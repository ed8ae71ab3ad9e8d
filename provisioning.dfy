/** The menu of the provisioning script and what its phases compute: the
    answer-to-phase mapping (as written and as intended), the ledger each
    phase gates on and writes, and, as functions of the inventory, the ledger
    and the random draws, the claim batches of the Devices phase and the
    action batches of the Settings phase. The methods that carry these out
    on the script's state are in the Phases module. */
module Provisioning {
  import opened Text
  import opened ActionBatches
  import opened Actions
  import opened Ledger

  // ---------------------------------------------------------------- inventory

  /** One row of inventory.csv; `address` is None when the file has no
      Address column. */
  datatype Row = Row(site: string, location: string, mx: string, ms: string, mr: string, mv: string,
                     mgmtVlan: string, msIp: string, mrIp: string, address: Option<string>)

  const Roles: seq<string> := ["SD-WAN UTM gateway", "Access switch", "Wireless AP", "Security camera"]

  /** The `devices` list of a row: gateway, switch, AP and camera, in order. */
  function DevicesOf(row: Row): (ds: seq<Device>)
    ensures |ds| == 4
    ensures ds[0] == Device(row.mx, "SD-WAN UTM gateway") && ds[1] == Device(row.ms, "Access switch")
    ensures ds[2] == Device(row.mr, "Wireless AP") && ds[3] == Device(row.mv, "Security camera")
  {
    seq(4, i requires 0 <= i < 4 => Device([row.mx, row.ms, row.mr, row.mv][i], Roles[i]))
  }

  function Sites(rows: seq<Row>): (r: seq<string>)
    ensures |r| == |rows| && forall i :: 0 <= i < |rows| ==> r[i] == rows[i].site
  {
    seq(|rows|, i requires 0 <= i < |rows| => rows[i].site)
  }

  function Locations(rows: seq<Row>): (r: seq<string>)
    ensures |r| == |rows| && forall i :: 0 <= i < |rows| ==> r[i] == rows[i].location
  {
    seq(|rows|, i requires 0 <= i < |rows| => rows[i].location)
  }

  /** What the operator entered once at start-up. */
  datatype Context = Context(orgId: string, userName: string, customTags: seq<string>)

  // ---------------------------------------------------------------- menu

  datatype Phase = NetworksPhase | DevicesPhase | SettingsPhase | FunPhase | TeardownPhase | NoPhase

  /** The phase the value of `stop` selects; any other value runs nothing. */
  function PhaseOf(stop: string): Phase {
    if stop == "1" then NetworksPhase
    else if stop == "2" then DevicesPhase
    else if stop == "3" then SettingsPhase
    else if stop == "4" then FunPhase
    else if stop == "5" then TeardownPhase
    else NoPhase
  }

  /** The keyword chain as written: its last test repeats 'fun', so it can
      never map an answer to '5'. */
  function MenuAnswerAsWritten(answer: string): (r: string)
    ensures r == "5" ==> ToLower(answer) == "5"
    ensures r in ["1", "2", "3", "4"] || r == ToLower(answer)
  {
    var stop := ToLower(answer);
    if Contains(stop, "network") then "1"
    else if Contains(stop, "device") then "2"
    else if Contains(stop, "setting") then "3"
    else if Contains(stop, "fun") then "4"
    else if Contains(stop, "fun") then "5"
    else stop
  }

  /** The keyword chain as intended: 'bye' selects teardown. */
  function MenuAnswer(answer: string): string {
    var stop := ToLower(answer);
    if Contains(stop, "network") then "1"
    else if Contains(stop, "device") then "2"
    else if Contains(stop, "setting") then "3"
    else if Contains(stop, "fun") then "4"
    else if Contains(stop, "bye") then "5"
    else stop
  }

  /** Written as it is, the menu reaches teardown only on the literal answer
      '5': no keyword selects it. */
  lemma MenuTeardownAsWritten(answer: string)
    ensures PhaseOf(MenuAnswerAsWritten(answer)) == TeardownPhase <==> ToLower(answer) == "5"
  {
    NoKeywordIn("5");
  }

  /** The answer "Bye!" that the prompt suggests runs nothing as written, and
      teardown as intended. */
  lemma MenuByeCounterexample()
    ensures PhaseOf(MenuAnswerAsWritten("Bye!")) == NoPhase
    ensures PhaseOf(MenuAnswer("Bye!")) == TeardownPhase
  {
    var stop := ToLower("Bye!");
    assert stop == "bye!";
    assert stop[..3] == "bye";
    assert !Contains(stop, "fun") by {
      assert stop[..3] != "fun" by { assert stop[..3][0] == 'b'; }
      assert stop[1..] == "ye!";
      assert stop[1..][..3] != "fun" by { assert stop[1..][..3][0] == 'y'; }
      assert !Contains(stop[1..][1..], "fun") by { assert |stop[1..][1..]| == 2; }
    }
    assert Contains(stop, "bye");
  }

  /** The chain as written: Networks, Devices, Settings and Fun are selected
      as intended, by their keyword when no earlier keyword occurs or by
      their digit, while teardown is reached only by the answer '5'. */
  lemma MenuPhasesAsWritten(answer: string)
    ensures var stop := ToLower(answer);
      var p := PhaseOf(MenuAnswerAsWritten(answer));
      && (p == NetworksPhase <==> Contains(stop, "network") || stop == "1")
      && (p == DevicesPhase <==> !Contains(stop, "network") && (Contains(stop, "device") || stop == "2"))
      && (p == SettingsPhase <==>
            && !Contains(stop, "network") && !Contains(stop, "device")
            && (Contains(stop, "setting") || stop == "3"))
      && (p == FunPhase <==>
            && !Contains(stop, "network") && !Contains(stop, "device") && !Contains(stop, "setting")
            && (Contains(stop, "fun") || stop == "4"))
      && (p == TeardownPhase <==> stop == "5")
  {
    var stop := ToLower(answer);
    if |stop| == 1 {
      NoKeywordIn(stop);
    }
  }

  /** A one-character answer contains none of the keywords. */
  lemma NoKeywordIn(stop: string)
    requires |stop| == 1
    ensures !Contains(stop, "network") && !Contains(stop, "device") && !Contains(stop, "setting")
    ensures !Contains(stop, "fun") && !Contains(stop, "bye")
  {
    assert stop[1..] == "";
  }

  /** The intended menu: each phase is selected by its keyword, when no
      keyword earlier in the chain occurs, or by its digit. */
  lemma MenuPhases(answer: string)
    ensures var stop := ToLower(answer);
      var p := PhaseOf(MenuAnswer(answer));
      && (p == NetworksPhase <==> Contains(stop, "network") || stop == "1")
      && (p == DevicesPhase <==> !Contains(stop, "network") && (Contains(stop, "device") || stop == "2"))
      && (p == SettingsPhase <==>
            && !Contains(stop, "network") && !Contains(stop, "device")
            && (Contains(stop, "setting") || stop == "3"))
      && (p == FunPhase <==>
            && !Contains(stop, "network") && !Contains(stop, "device") && !Contains(stop, "setting")
            && (Contains(stop, "fun") || stop == "4"))
      && (p == TeardownPhase <==>
            && !Contains(stop, "network") && !Contains(stop, "device") && !Contains(stop, "setting")
            && !Contains(stop, "fun") && (Contains(stop, "bye") || stop == "5"))
  {
    var stop := ToLower(answer);
    if |stop| == 1 {
      NoKeywordIn(stop);
    }
  }

  // ---------------------------------------------------------------- Devices phase

  /** The record of a site after the Devices phase. */
  function WithDevices(rec: Record, row: Row, vlan: int): Record {
    rec.(devices := Some(DevicesOf(row)), mgmtVlan := Some(vlan))
  }

  /** int(row['Mgmt. VLAN']) succeeds for each of the first n rows. */
  predicate VlansParse(rows: seq<Row>, n: nat)
    requires n <= |rows|
  {
    forall k :: 0 <= k < n ==> ParseInt(rows[k].mgmtVlan).Some?
  }

  /** The Devices phase runs through every row: each row has a record and a
      numeric management VLAN. */
  predicate DevicesComplete(ledger: seq<Record>, rows: seq<Row>) {
    |rows| <= |ledger| && VlansParse(rows, |rows|)
  }

  /** The ledger once the first n rows have been recorded. */
  function ClaimedLedger(ledger: seq<Record>, rows: seq<Row>, n: nat): (r: seq<Record>)
    requires n <= |rows| && n <= |ledger| && VlansParse(rows, n)
    ensures |r| == |ledger|
  {
    seq(|ledger|, k requires 0 <= k < |ledger| =>
          if k < n then WithDevices(ledger[k], rows[k], ParseInt(rows[k].mgmtVlan).value) else ledger[k])
  }

  /** The Devices phase gives each of the first n records the four
      (serial, role) pairs of its row, in gateway, switch, AP, camera order,
      and the row's management VLAN, and changes nothing else. */
  lemma ClaimedLedgerRecords(ledger: seq<Record>, rows: seq<Row>, n: nat)
    requires n <= |rows| && n <= |ledger| && VlansParse(rows, n)
    ensures var r := ClaimedLedger(ledger, rows, n);
      && (forall k :: 0 <= k < n ==>
            && r[k].devices.Some? && |r[k].devices.value| == 4
            && r[k].devices.value[0] == Device(rows[k].mx, "SD-WAN UTM gateway")
            && r[k].devices.value[1] == Device(rows[k].ms, "Access switch")
            && r[k].devices.value[2] == Device(rows[k].mr, "Wireless AP")
            && r[k].devices.value[3] == Device(rows[k].mv, "Security camera")
            && ParseInt(rows[k].mgmtVlan) == r[k].mgmtVlan
            && r[k].netId == ledger[k].netId && r[k].site == ledger[k].site
            && r[k].location == ledger[k].location && r[k].settingsCreated == ledger[k].settingsCreated)
      && (forall k :: n <= k < |ledger| ==> r[k] == ledger[k])
  {
  }

  /** The claims add_devices appends for a list of serials: one per
      non-empty serial, in order. */
  function ClaimsOf(netId: string, serials: seq<string>): seq<Action>
    decreases |serials|
  {
    if |serials| == 0 then []
    else
      var last := serials[|serials| - 1];
      ClaimsOf(netId, serials[..|serials| - 1]) + (if last != "" then [ClaimAction(netId, last)] else [])
  }

  /** The non-empty serials of a list, in their order. */
  function Filled(serials: seq<string>): (f: seq<string>)
    ensures |f| <= |serials|
    ensures forall s :: s in f <==> s in serials && s != ""
    ensures (forall i :: 0 <= i < |serials| ==> serials[i] != "") ==> f == serials
    decreases |serials|
  {
    if |serials| == 0 then []
    else
      var init := serials[..|serials| - 1];
      var last := serials[|serials| - 1];
      assert serials == init + [last];
      Filled(init) + (if last != "" then [last] else [])
  }

  /** Appending one serial to a list keeps it exactly when it is non-empty. */
  lemma FilledSnoc(serials: seq<string>, s: string)
    ensures Filled(serials + [s]) == Filled(serials) + (if s == "" then [] else [s])
  {
    assert (serials + [s])[..|serials|] == serials;
  }

  /** A single serial is kept exactly when it is non-empty. */
  lemma FilledSingleton(s: string)
    ensures Filled([s]) == (if s == "" then [] else [s])
  {
    assert [s][..0] == [];
  }

  /** Filled distributes over concatenation; with FilledSingleton this fixes
      the order and the multiplicity of the serials it keeps. */
  lemma {:induction false} FilledConcat(a: seq<string>, b: seq<string>)
    ensures Filled(a + b) == Filled(a) + Filled(b)
    decreases |b|
  {
    if |b| == 0 {
      assert a + b == a;
    } else {
      var init := b[..|b| - 1];
      var last := b[|b| - 1];
      FilledConcat(a, init);
      assert a + b == (a + init) + [last];
      assert b == init + [last];
      FilledSnoc(a + init, last);
      FilledSnoc(init, last);
    }
  }

  /** The claims are exactly one per non-empty serial, in the order of the
      serials, each sent to the site's devices. */
  lemma {:induction false} ClaimsOfShape(netId: string, serials: seq<string>)
    ensures var r := ClaimsOf(netId, serials);
      && |r| == |Filled(serials)| <= |serials|
      && ((forall i :: 0 <= i < |serials| ==> serials[i] != "") ==> |r| == |serials|)
      && forall j :: 0 <= j < |r| ==>
           && r[j] == ClaimAction(netId, Filled(serials)[j])
           && r[j].resource == "/networks/" + netId + "/devices" && r[j].operation == Claim
           && r[j].body.ClaimBody? && r[j].body.serial != "" && r[j].body.serial in serials
    decreases |serials|
  {
    if |serials| > 0 {
      var init := serials[..|serials| - 1];
      ClaimsOfShape(netId, init);
      var f := Filled(serials);
      assert forall j :: 0 <= j < |f| ==> f[j] in f;
    }
  }

  function RowSerials(row: Row): seq<string> {
    [row.mx, row.ms, row.mr, row.mv]
  }

  /** The claim batch of the Devices phase for the first n rows. */
  function DeviceClaims(ledger: seq<Record>, rows: seq<Row>, n: nat): seq<Action>
    requires n <= |rows| && n <= |ledger|
    decreases n
  {
    if n == 0 then []
    else DeviceClaims(ledger, rows, n - 1) + ClaimsOf(ledger[n - 1].netId, RowSerials(rows[n - 1]))
  }

  /** The claim batch holds only claims, at most four per row, and exactly
      four per row when every serial of the inventory is filled in. */
  lemma {:induction false} DeviceClaimsCount(ledger: seq<Record>, rows: seq<Row>, n: nat)
    requires n <= |rows| && n <= |ledger|
    ensures var r := DeviceClaims(ledger, rows, n);
      && |r| <= 4 * n
      && ((forall k, i :: 0 <= k < n && 0 <= i < 4 ==> RowSerials(rows[k])[i] != "") ==> |r| == 4 * n)
      && forall j :: 0 <= j < |r| ==> r[j].operation == Claim
    decreases n
  {
    if n > 0 {
      DeviceClaimsCount(ledger, rows, n - 1);
      ClaimsOfShape(ledger[n - 1].netId, RowSerials(rows[n - 1]));
      var prev: seq<Action> := DeviceClaims(ledger, rows, n - 1);
      var last: seq<Action> := ClaimsOf(ledger[n - 1].netId, RowSerials(rows[n - 1]));
      assert DeviceClaims(ledger, rows, n) == prev + last;
      forall j | 0 <= j < |prev + last| ensures (prev + last)[j].operation == Claim {
        if j >= |prev| {
          assert (prev + last)[j] == last[j - |prev|];
        }
      }
    }
  }

  // ---------------------------------------------------------------- Settings phase

  /** The random draws of one site's settings: a tag sample per device, a
      tag sample per switch port and the choice of port 7's VLAN. */
  datatype SiteDraws = SiteDraws(devicePicks: seq<TagPick>, portPicks: seq<TagPick>, port7: nat)

  predicate ValidDraws(d: SiteDraws, customTags: seq<string>) {
    && |d.devicePicks| == 4 && ValidPicks(d.devicePicks, |TagPool(customTags)|)
    && |d.portPicks| == 5 && ValidPicks(d.portPicks, |TagPool(customTags)|)
    && d.port7 < 3
  }

  /** The attribute updates configure_device appends for the first n
      devices of a site, the k-th device tagged with tags[k]. */
  function DeviceUpdates(netId: string, devices: seq<Device>, address: string, ctx: Context,
                         tags: seq<string>, n: nat): seq<Action>
    requires n <= |devices| && n <= |tags|
    decreases n
  {
    if n == 0 then []
    else
      var d := devices[n - 1];
      DeviceUpdates(netId, devices, address, ctx, tags, n - 1)
        + (if d.serial != "" then [DeviceAction(netId, d.serial, d.role, address, ctx.userName, tags[n - 1])]
           else [])
  }

  /** The address a site's devices get: the row's Address column when the
      inventory has one, otherwise the recorded location. */
  function SiteAddress(rec: Record, row: Row): string {
    if row.address.Some? then row.address.value else rec.location
  }

  /** The action batch of one site for the site's random draws: the four
      device tag samples and the five port tag samples. */
  function SiteActions(ctx: Context, rec: Record, row: Row, vlan: int, d: SiteDraws): Option<seq<Action>>
    requires ValidDraws(d, ctx.customTags)
  {
    SiteBatch(ctx, rec, row, vlan, SampledTags(ctx.customTags, d.devicePicks),
              SampledTags(ctx.customTags, d.portPicks), d.port7)
  }

  /** The action batch of one site, given its sampled tags, or None when
      batch_vlans raises: device attributes, management interfaces, then
      VLANs and group policies on the site's first run only, then the switch
      ports. */
  function SiteBatch(ctx: Context, rec: Record, row: Row, vlan: int, deviceTags: seq<string>,
                     portTags: seq<string>, port7: nat): Option<seq<Action>>
    requires |deviceTags| == 4 && |portTags| == 5 && port7 < 3
  {
    var base := DeviceUpdates(rec.netId, DevicesOf(row), SiteAddress(rec, row), ctx, deviceTags, 4)
                + ManagementActions(rec.netId, [(row.ms, row.msIp), (row.mr, row.mrIp)], vlan);
    var ports := SwitchPortActions(row.ms, vlan, port7, portTags);
    if rec.settingsCreated then Some(base + ports)
    else match VlanActions(rec.netId, rec.site)
      case None => None
      case Some(vlans) => Some(base + vlans + PolicyActions(rec.netId) + ports)
  }

  /** The batch of row k of the Settings phase, or None where the phase
      raises at that row: no record for it, a management VLAN int() rejects,
      or, on the site's first run, a site for which int(site + '1') raises. */
  function RowActions(ctx: Context, ledger: seq<Record>, rows: seq<Row>, draws: seq<SiteDraws>, k: nat)
    : Option<seq<Action>>
    requires k < |rows| && k < |draws| && ValidDraws(draws[k], ctx.customTags)
  {
    if k >= |ledger| then None
    else match ParseInt(rows[k].mgmtVlan)
      case None => None
      case Some(vlan) => SiteActions(ctx, ledger[k], rows[k], vlan, draws[k])
  }

  predicate AllValidDraws(draws: seq<SiteDraws>, customTags: seq<string>) {
    forall k :: 0 <= k < |draws| ==> ValidDraws(draws[k], customTags)
  }

  /** f(0), ..., f(n - 1). */
  function Tabulate<T>(f: nat -> T, n: nat): (r: seq<T>)
    ensures |r| == n
    decreases n
  {
    if n == 0 then [] else Tabulate(f, n - 1) + [f(n - 1)]
  }

  /** The k-th element of a tabulation is f(k). */
  lemma {:induction false} TabulateAt<T>(f: nat -> T, n: nat, k: nat)
    requires k < n
    ensures Tabulate(f, n)[k] == f(k)
    decreases n
  {
    if k < n - 1 {
      TabulateAt(f, n - 1, k);
    }
  }

  /** The batches of the rows, or None where the Settings phase would raise
      (the None for positions past the rows is never reached). */
  function AllRowActions(ctx: Context, ledger: seq<Record>, rows: seq<Row>, draws: seq<SiteDraws>)
    : (r: seq<Option<seq<Action>>>)
    requires |rows| <= |draws| && AllValidDraws(draws, ctx.customTags)
    ensures |r| == |rows|
  {
    Tabulate((k: nat) => if k < |rows| then RowActions(ctx, ledger, rows, draws, k) else None, |rows|)
  }

  /** The k-th entry is the batch of row k. */
  lemma AllRowActionsAt(ctx: Context, ledger: seq<Record>, rows: seq<Row>, draws: seq<SiteDraws>, k: nat)
    requires |rows| <= |draws| && AllValidDraws(draws, ctx.customTags)
    requires k < |rows|
    ensures AllRowActions(ctx, ledger, rows, draws)[k] == RowActions(ctx, ledger, rows, draws, k)
  {
    TabulateAt((j: nat) => if j < |rows| then RowActions(ctx, ledger, rows, draws, j) else None, |rows|, k);
  }

  /** The length of the run of Some values at the head of xs[..n]: every
      value below it is Some and, short of n, the value at it is None. */
  function LeadingRun<T>(xs: seq<Option<T>>, n: nat): (c: nat)
    requires n <= |xs|
    ensures c <= n
    ensures forall k :: 0 <= k < c ==> xs[k].Some?
    ensures c < n ==> xs[c].None?
    decreases n
  {
    if n == 0 then 0
    else
      var c := LeadingRun(xs, n - 1);
      if c == n - 1 && xs[n - 1].Some? then n else c
  }

  /** Whether xs[..n] holds only Some values. */
  predicate AllSome<T>(xs: seq<Option<T>>, n: nat)
    requires n <= |xs|
    decreases n
  {
    n == 0 || (AllSome(xs, n - 1) && xs[n - 1].Some?)
  }

  lemma {:induction false} AllSomeAt<T>(xs: seq<Option<T>>, n: nat, k: nat)
    requires n <= |xs| && AllSome(xs, n) && k < n
    ensures xs[k].Some?
    decreases n
  {
    if k < n - 1 {
      AllSomeAt(xs, n - 1, k);
    }
  }

  /** A run of c Some values followed, short of n, by a None is the leading
      run: LeadingRun is pinned down by the two facts its contract states. */
  lemma {:induction false} LeadingRunUnique<T>(xs: seq<Option<T>>, n: nat, c: nat)
    requires n <= |xs| && c <= n
    requires AllSome(xs, c)
    requires c < n ==> xs[c].None?
    ensures c == LeadingRun(xs, n)
    decreases n
  {
    if n > c {
      LeadingRunUnique(xs, n - 1, c);
    } else if n > 0 {
      LeadingRunUnique(xs, n - 1, n - 1);
    }
  }

  /** The number of leading rows among the first n whose batch is built. */
  function CompletedRows(ctx: Context, ledger: seq<Record>, rows: seq<Row>, draws: seq<SiteDraws>, n: nat)
    : (c: nat)
    requires n <= |rows| && |rows| <= |draws| && AllValidDraws(draws, ctx.customTags)
  {
    LeadingRun(AllRowActions(ctx, ledger, rows, draws), n)
  }

  /** One confirmed synchronous batch per built action list, for the first n. */
  function Batches(orgId: string, built: seq<Option<seq<Action>>>, n: nat): (r: seq<Request<Action>>)
    requires n <= |built|
    ensures |r| == n
    ensures forall k :: 0 <= k < n ==> r[k] == CreateActionBatch(orgId, true, true, built[k])
    decreases n
  {
    if n == 0 then [] else Batches(orgId, built, n - 1) + [CreateActionBatch(orgId, true, true, built[n - 1])]
  }

  /** The batches the Settings phase submits for the first n rows. */
  function SettingsBatches(ctx: Context, ledger: seq<Record>, rows: seq<Row>, draws: seq<SiteDraws>, n: nat)
    : (r: seq<Request<Action>>)
    requires n <= |rows| && |rows| <= |draws| && AllValidDraws(draws, ctx.customTags)
    requires n <= CompletedRows(ctx, ledger, rows, draws, |rows|)
  {
    Batches(ctx.orgId, AllRowActions(ctx, ledger, rows, draws), n)
  }

  /** The ledger once the first n rows have been configured: their records
      are marked as having their settings created, and nothing else changes. */
  function SettledLedger(ledger: seq<Record>, n: nat): (r: seq<Record>)
    ensures |r| == |ledger|
    ensures forall k :: 0 <= k < |ledger| ==>
      && r[k].settingsCreated == (k < n || ledger[k].settingsCreated)
      && r[k].netId == ledger[k].netId && r[k].location == ledger[k].location && r[k].site == ledger[k].site
      && r[k].devices == ledger[k].devices && r[k].mgmtVlan == ledger[k].mgmtVlan
  {
    seq(|ledger|, k requires 0 <= k < |ledger| =>
          if k < n then ledger[k].(settingsCreated := true) else ledger[k])
  }

  /** Configuring row n marks record n and no other. */
  lemma SettledLedgerStep(ledger: seq<Record>, n: nat)
    requires n < |ledger|
    ensures SettledLedger(ledger, n)[n] == ledger[n]
    ensures SettledLedger(ledger, n)[n := ledger[n].(settingsCreated := true)] == SettledLedger(ledger, n + 1)
  {
  }

  /** Row n of the Settings phase sees its record as it was loaded: the
      records before it are the only ones marked so far. */
  lemma RowActionsSettled(ctx: Context, ledger: seq<Record>, rows: seq<Row>, draws: seq<SiteDraws>, n: nat)
    requires n < |rows| && n < |draws| && ValidDraws(draws[n], ctx.customTags)
    ensures RowActions(ctx, SettledLedger(ledger, n), rows, draws, n) == RowActions(ctx, ledger, rows, draws, n)
    ensures RowActions(ctx, ledger, rows, draws, n).Some? ==> n < |ledger|
  {
    if n < |ledger| {
      SettledLedgerStep(ledger, n);
    }
  }

  predicate HasCreate(r: seq<Action>) {
    exists i :: 0 <= i < |r| && r[i].operation == Create
  }

  predicate AllUpdates(r: seq<Action>) {
    forall i :: 0 <= i < |r| ==> r[i].operation == Update
  }

  lemma {:induction false} DeviceUpdatesAreUpdates(netId: string, devices: seq<Device>, address: string,
                                                   ctx: Context, tags: seq<string>, n: nat)
    requires n <= |devices| && n <= |tags|
    ensures AllUpdates(DeviceUpdates(netId, devices, address, ctx, tags, n))
    ensures |DeviceUpdates(netId, devices, address, ctx, tags, n)| <= n
    decreases n
  {
    if n > 0 {
      DeviceUpdatesAreUpdates(netId, devices, address, ctx, tags, n - 1);
    }
  }

  lemma ManagementActionsAreUpdates(netId: string, pairs: seq<(string, string)>, vlan: int)
    ensures AllUpdates(ManagementActions(netId, pairs, vlan))
  {
    ManagementActionsPerPair(netId, pairs, vlan);
    var r := ManagementActions(netId, pairs, vlan);
    var kept := SerialledPairs(pairs);
    forall i | 0 <= i < |r| ensures r[i].operation == Update {
      ManagementActionShape(netId, kept[i].0, kept[i].1, vlan);
    }
  }

  lemma SwitchPortActionsAreUpdates(switch: string, vlan: int, choice: nat, tags: seq<string>)
    requires choice < 3 && |tags| == 5
    ensures AllUpdates(SwitchPortActions(switch, vlan, choice, tags))
  {
    SwitchPortActionsShape(switch, vlan, choice, tags);
  }

  lemma AllUpdatesConcat(a: seq<Action>, b: seq<Action>)
    requires AllUpdates(a) && AllUpdates(b)
    ensures AllUpdates(a + b) && !HasCreate(a + b)
  {
    assert forall i :: 0 <= i < |a + b| ==> (a + b)[i] == if i < |a| then a[i] else b[i - |a|];
  }

  /** A site's batch creates something exactly on its first Settings run:
      VLANs and group policies are created only while the record lacks
      settings_created; every other action is an update. */
  lemma SiteActionsCreate(ctx: Context, rec: Record, row: Row, vlan: int, d: SiteDraws)
    requires ValidDraws(d, ctx.customTags)
    requires SiteActions(ctx, rec, row, vlan, d).Some?
    ensures HasCreate(SiteActions(ctx, rec, row, vlan, d).value) <==> !rec.settingsCreated
  {
    var devs := DeviceUpdates(rec.netId, DevicesOf(row), SiteAddress(rec, row), ctx, SampledTags(ctx.customTags, d.devicePicks), 4);
    var mgmt := ManagementActions(rec.netId, [(row.ms, row.msIp), (row.mr, row.mrIp)], vlan);
    var ports := SwitchPortActions(row.ms, vlan, d.port7, SampledTags(ctx.customTags, d.portPicks));
    DeviceUpdatesAreUpdates(rec.netId, DevicesOf(row), SiteAddress(rec, row), ctx, SampledTags(ctx.customTags, d.devicePicks), 4);
    ManagementActionsAreUpdates(rec.netId, [(row.ms, row.msIp), (row.mr, row.mrIp)], vlan);
    SwitchPortActionsAreUpdates(row.ms, vlan, d.port7, SampledTags(ctx.customTags, d.portPicks));
    AllUpdatesConcat(devs, mgmt);
    AllUpdatesConcat(devs + mgmt, ports);
    if !rec.settingsCreated {
      var r := SiteActions(ctx, rec, row, vlan, d).value;
      var vlans := VlanActions(rec.netId, rec.site).value;
      var policies := PolicyActions(rec.netId);
      PolicyActionsShape(rec.netId);
      assert r == (devs + mgmt + vlans) + policies + ports;
      assert r[|devs + mgmt + vlans|] == policies[0];
    }
  }

  /** Re-running the Settings phase after a complete run builds every site's
      batch again, and none of them creates anything. */
  lemma SettingsRerunCreatesNothing(ctx: Context, ledger: seq<Record>, rows: seq<Row>,
                                    draws: seq<SiteDraws>, again: seq<SiteDraws>)
    requires |rows| <= |draws| && AllValidDraws(draws, ctx.customTags)
    requires |rows| <= |again| && AllValidDraws(again, ctx.customTags)
    requires CompletedRows(ctx, ledger, rows, draws, |rows|) == |rows|
    ensures var settled := SettledLedger(ledger, |rows|);
      forall k :: 0 <= k < |rows| ==>
        && RowActions(ctx, settled, rows, again, k).Some?
        && !HasCreate(RowActions(ctx, settled, rows, again, k).value)
  {
    var settled := SettledLedger(ledger, |rows|);
    forall k | 0 <= k < |rows|
      ensures RowActions(ctx, settled, rows, again, k).Some?
      ensures !HasCreate(RowActions(ctx, settled, rows, again, k).value)
    {
      AllRowActionsAt(ctx, ledger, rows, draws, k);
      assert RowActions(ctx, ledger, rows, draws, k).Some?;
      var vlan := ParseInt(rows[k].mgmtVlan).value;
      SiteActionsCreate(ctx, settled[k], rows[k], vlan, again[k]);
    }
  }
}
