/** The menu loop of the provisioning script as a state machine. The world
    it changes is a Provisioner: the ledger file on disk, the action batches
    submitted to the dashboard, the networks deleted, and whether the script
    is still running. Each phase is a method, proved against the functions
    of the Provisioning and Ledger modules; what the dashboard answers and
    what the random draws return are parameters. */
module Phases {
  import opened Text
  import opened ActionBatches
  import opened Actions
  import opened Ledger
  import opened Provisioning

  /** Whether the script is still in its menu loop: it can have called
      sys.exit, died on an exception, or be polling a batch that never
      leaves the pending state. */
  datatype Halt = Running | Exited | Crashed | Stuck

  /** The dashboard's answers during one Networks phase: the network list
      create_networks fetches, the id of the ISP network it creates (None for
      an error), whether enabling its VLANs succeeds, whether the batch is
      accepted, the tag samples, and the network list fetched afterwards. */
  datatype NetworksWorld = NetworksWorld(firstFetch: NetFetch, ispCreated: Option<string>, vlansEnabled: bool,
                                         batchAccepted: bool, picks: seq<TagPick>, secondFetch: NetFetch)

  /** The dashboard's answers during one Devices phase: whether the claim
      batch is accepted and what the successive polls of it observe. */
  datatype DevicesWorld = DevicesWorld(accepted: bool, observations: seq<Fetch>)

  /** The network create_networks copies every site from, or how it stops. */
  datatype Isp = Isp(id: string) | NoIsp(halt: Halt)

  /** The ISP network: the first listed network named 'ISP' or, when there is
      none, a freshly created one with VLANs enabled. An error text from the
      listing is iterated as if it were the list, which dies unless the text
      is empty. */
  function FindIsp(w: NetworksWorld): (isp: Isp)
    ensures isp.NoIsp? ==> isp.halt == Crashed || isp.halt == Exited
    ensures isp == NoIsp(Crashed) <==> w.firstFetch.NetErr? && w.firstFetch.text != ""
    ensures w.firstFetch.NetOk? && IdOfFirst(w.firstFetch.networks, "ISP").Some? ==>
              isp == Isp(IdOfFirst(w.firstFetch.networks, "ISP").value)
    ensures isp.Isp? && !(w.firstFetch.NetOk? && IdOfFirst(w.firstFetch.networks, "ISP").Some?) ==>
              w.ispCreated == Some(isp.id) && w.vlansEnabled
    ensures var listedWithoutIsp := || (w.firstFetch.NetOk? && IdOfFirst(w.firstFetch.networks, "ISP").None?)
                                    || w.firstFetch == NetErr("");
      && (listedWithoutIsp && w.ispCreated.Some? && w.vlansEnabled ==> isp == Isp(w.ispCreated.value))
      && (listedWithoutIsp && (w.ispCreated.None? || !w.vlansEnabled) ==> isp == NoIsp(Exited))
  {
    var listed: Option<seq<Network>> :=
      match w.firstFetch
      case NetOk(nets) => Some(nets)
      case NetErr(text) => if text == "" then Some([]) else None;
    if listed.None? then NoIsp(Crashed)
    else match IdOfFirst(listed.value, "ISP")
      case Some(id) => Isp(id)
      case None =>
        if w.ispCreated.None? || !w.vlansEnabled then NoIsp(Exited) else Isp(w.ispCreated.value)
  }

  /** The body of the Settings loop for one site, given the tags it samples:
      the action list it builds, or None when batch_vlans raises. */
  method BuildSiteActions(ctx: Context, rec: Record, row: Row, vlan: int, deviceTags: seq<string>,
                          portTags: seq<string>, port7: nat)
    returns (built: Option<seq<Action>>)
    requires |deviceTags| == 4 && |portTags| == 5 && port7 < 3
    ensures built == SiteBatch(ctx, rec, row, vlan, deviceTags, portTags, port7)
  {
    var actions := new ActionList();
    var address := SiteAddress(rec, row);
    ConfigureDevices(actions, rec.netId, DevicesOf(row), address, ctx, deviceTags);
    BatchDevices(actions, rec.netId, [(row.ms, row.msIp), (row.mr, row.mrIp)], vlan);
    assert actions.items == DeviceUpdates(rec.netId, DevicesOf(row), SiteAddress(rec, row), ctx, deviceTags, 4)
                            + ManagementActions(rec.netId, [(row.ms, row.msIp), (row.mr, row.mrIp)], vlan);
    if !rec.settingsCreated {
      var ok := BatchVlans(actions, rec.netId, rec.site);
      if !ok {
        return None;
      }
      BatchPolicies(actions, rec.netId);
    }
    BatchSwitchports(actions, row.ms, rec.site, vlan, port7, portTags);
    return Some(actions.items);
  }

  /** The loop of create_settings that hands each (serial, role) pair of a
      site to configure_device, with the site's address. */
  method ConfigureDevices(actions: ActionList, netId: string, devices: seq<Device>, address: string,
                          ctx: Context, tags: seq<string>)
    requires |devices| <= |tags|
    modifies actions
    ensures actions.items == old(actions.items) + DeviceUpdates(netId, devices, address, ctx, tags, |devices|)
  {
    ghost var before := actions.items;
    var i := 0;
    while i < |devices|
      invariant i <= |devices|
      invariant actions.items == before + DeviceUpdates(netId, devices, address, ctx, tags, i)
    {
      ConfigureDevice(actions, netId, devices[i].serial, devices[i].role, address, ctx.userName, tags[i]);
      i := i + 1;
    }
  }

  /** The body of the Settings loop for row k, up to its submission: the
      record lookup, int() of the management VLAN, and the site's actions. */
  method RowBatch(ctx: Context, ledger: seq<Record>, rows: seq<Row>, draws: seq<SiteDraws>, k: nat)
    returns (built: Option<seq<Action>>)
    requires k < |rows| && k < |draws| && ValidDraws(draws[k], ctx.customTags)
    ensures built == RowActions(ctx, ledger, rows, draws, k)
  {
    if k >= |ledger| {
      return None;
    }
    var mgmtVlan := ParseInt(rows[k].mgmtVlan);
    if mgmtVlan.None? {
      return None;
    }
    built := BuildSiteActions(ctx, ledger[k], rows[k], mgmtVlan.value, SampledTags(ctx.customTags, draws[k].devicePicks),
                             SampledTags(ctx.customTags, draws[k].portPicks), draws[k].port7);
  }

  /** The loop of the Settings branch over the inventory rows: the batch
      of each row in turn, until a row raises. It gives the batches submitted,
      the number of rows completed and the ledger as it then stands in
      memory. */
  method SettleRows(ctx: Context, start: seq<Record>, rows: seq<Row>, draws: seq<SiteDraws>)
    returns (ledger: seq<Record>, batches: seq<Request<Action>>, completed: nat)
    requires |rows| <= |draws| && AllValidDraws(draws, ctx.customTags)
    ensures completed == CompletedRows(ctx, start, rows, draws, |rows|)
    ensures batches == SettingsBatches(ctx, start, rows, draws, completed)
    ensures ledger == SettledLedger(start, completed)
  {
    ghost var built := AllRowActions(ctx, start, rows, draws);
    ledger := start;
    batches := [];
    var counter := 0;
    var crashed := false;
    while counter < |rows| && !crashed
      invariant counter <= |rows|
      invariant AllSome(built, counter)
      invariant crashed ==> counter < |rows| && built[counter].None?
      invariant ledger == SettledLedger(start, counter)
      invariant batches == Batches(ctx.orgId, built, counter)
      decreases |rows| - counter, if crashed then 0 else 1
    {
      var actions, next := SettleRow(ctx, start, rows, draws, built, ledger, counter);
      if actions.None? {
        crashed := true;
      } else {
        batches := batches + [CreateActionBatch(ctx.orgId, true, true, actions)];
        ledger := next;
        counter := counter + 1;
      }
    }
    LeadingRunUnique(built, |rows|, counter);
    completed := counter;
  }

  /** One pass of the Settings loop: row k's batch and, when it is built,
      the ledger with row k's record marked. */
  method SettleRow(ctx: Context, start: seq<Record>, rows: seq<Row>, draws: seq<SiteDraws>,
                   ghost built: seq<Option<seq<Action>>>, ledger: seq<Record>, k: nat)
    returns (actions: Option<seq<Action>>, next: seq<Record>)
    requires k < |rows| && |rows| <= |draws| && AllValidDraws(draws, ctx.customTags)
    requires built == AllRowActions(ctx, start, rows, draws)
    requires ledger == SettledLedger(start, k)
    ensures actions == built[k]
    ensures actions.Some? ==> next == SettledLedger(start, k + 1)
  {
    actions := RowBatch(ctx, ledger, rows, draws, k);
    RowActionsSettled(ctx, start, rows, draws, k);
    AllRowActionsAt(ctx, start, rows, draws, k);
    next := ledger;
    if actions.Some? {
      SettledLedgerStep(start, k);
      next := ledger[k := ledger[k].(settingsCreated := true)];
    }
  }

  /** The loop of the Devices branch over one row's four serials, each
      handed to add_devices. */
  method ClaimRow(actions: ActionList, netId: string, serials: seq<string>)
    modifies actions
    ensures actions.items == old(actions.items) + ClaimsOf(netId, serials)
  {
    ghost var before := actions.items;
    var i := 0;
    while i < |serials|
      invariant i <= |serials|
      invariant actions.items == before + ClaimsOf(netId, serials[..i])
    {
      AddDevices(actions, netId, serials[i]);
      assert serials[..i + 1][..i] == serials[..i];
      i := i + 1;
    }
    assert serials[..i] == serials;
  }

  /** The loop of the Devices branch over the inventory: each row's four
      serials are claimed into the network of the record at the same
      position, and the record gets the row's devices and management VLAN.
      ok is false where the loop raises: a row without a record, or a
      management VLAN int() rejects. */
  method ClaimRows(start: seq<Record>, rows: seq<Row>)
    returns (ok: bool, ledger: seq<Record>, claims: seq<Action>)
    ensures ok == DevicesComplete(start, rows)
    ensures ok ==> ledger == ClaimedLedger(start, rows, |rows|) && claims == DeviceClaims(start, rows, |rows|)
  {
    ledger := start;
    var actions := new ActionList();
    var counter := 0;
    while counter < |rows|
      invariant counter <= |rows| && counter <= |start|
      invariant VlansParse(rows, counter)
      invariant ledger == ClaimedLedger(start, rows, counter)
      invariant actions.items == DeviceClaims(start, rows, counter)
    {
      if counter >= |ledger| {
        return false, ledger, actions.items;
      }
      var row := rows[counter];
      var netId := ledger[counter].netId;
      var mgmtVlan := ParseInt(row.mgmtVlan);
      if mgmtVlan.None? {
        return false, ledger, actions.items;
      }
      ClaimRow(actions, netId, RowSerials(row));
      ledger := ledger[counter := WithDevices(ledger[counter], row, mgmtVlan.value)];
      counter := counter + 1;
    }
    return true, ledger, actions.items;
  }

  class Provisioner {
    const ctx: Context
    const inventory: seq<Row>
    var file: LedgerFile
    var submitted: seq<Request<Action>>
    var deleted: seq<string>
    var halted: Halt

    /** The script after its prompts: the custom tags are the answer split
        on spaces. */
    constructor (orgId: string, userName: string, tagsAnswer: string, inventory: seq<Row>, file: LedgerFile)
      ensures ctx == Context(orgId, userName, SplitWords(tagsAnswer)) && AreWords(ctx.customTags)
      ensures this.inventory == inventory && this.file == file
      ensures submitted == [] && deleted == [] && halted == Running
    {
      SplitWordsAreWords(tagsAnswer);
      ctx := Context(orgId, userName, SplitWords(tagsAnswer));
      this.inventory := inventory;
      this.file := file;
      submitted := [];
      deleted := [];
      halted := Running;
    }

    /** create_networks: find or create the ISP network, then submit one
        confirmed synchronous batch creating a network per site. */
    method CreateNetworks(sites: seq<string>, locations: seq<string>, w: NetworksWorld)
      requires halted == Running
      requires |w.picks| >= ZipLength(sites, locations) && ValidPicks(w.picks, |TagPool(ctx.customTags)|)
      modifies this
      ensures file == old(file) && deleted == old(deleted)
      ensures var isp := FindIsp(w);
        && (isp.NoIsp? ==> submitted == old(submitted) && halted == isp.halt)
        && (isp.Isp? ==>
              && submitted == old(submitted)
                   + [CreateActionBatch(ctx.orgId, true, true,
                                        Some(NetworkActions(ctx.orgId, sites, locations, isp.id, ctx.customTags, w.picks)))]
              && halted == (if w.batchAccepted then Running else Exited))
    {
      var networks: seq<Network>;
      match w.firstFetch {
        case NetOk(nets) =>
          networks := nets;
        case NetErr(text) =>
          if text != "" {
            halted := Crashed;
            return;
          }
          networks := [];
      }
      var netNames := Names(networks);
      var ispNet: string;
      if "ISP" in netNames {
        ispNet := networks[IndexOf(netNames, "ISP").value].id;
      } else {
        if w.ispCreated.None? {
          halted := Exited;
          return;
        }
        ispNet := w.ispCreated.value;
        if !w.vlansEnabled {
          halted := Exited;
          return;
        }
      }
      assert FindIsp(w) == Isp(ispNet);
      var actions := new ActionList();
      BuildNetworkActions(actions, ctx.orgId, sites, locations, ispNet, ctx.customTags, w.picks);
      assert submitted == old(submitted);
      assert actions.items == NetworkActions(ctx.orgId, sites, locations, ispNet, ctx.customTags, w.picks);
      submitted := submitted + [CreateActionBatch(ctx.orgId, true, true, Some(actions.items))];
      if !w.batchAccepted {
        halted := Exited;
      }
    }

    /** What the Networks branch does: skipped when the ledger has records; otherwise
        create the networks, list them again and record every site whose
        network is listed. */
    twostate predicate NetworksRan(w: NetworksWorld)
      requires |w.picks| >= |inventory| && ValidPicks(w.picks, |TagPool(ctx.customTags)|)
      reads this
    {
      && deleted == old(deleted)
      && (Load(old(file)) != [] ==> file == old(file) && submitted == old(submitted) && halted == Running)
      && (Load(old(file)) == [] ==>
        var isp := FindIsp(w);
        && (isp.NoIsp? ==> submitted == old(submitted) && halted == isp.halt && file == old(file))
        && (isp.Isp? ==>
              && submitted == old(submitted)
                   + [CreateActionBatch(ctx.orgId, true, true,
                                        Some(NetworkActions(ctx.orgId, Sites(inventory), Locations(inventory),
                                                            isp.id, ctx.customTags, w.picks)))]
              && (!w.batchAccepted || w.secondFetch.NetErr? ==> halted == Exited && file == old(file))
              && (w.batchAccepted && w.secondFetch.NetOk? ==>
                    && halted == Running
                    && file == Stored(FoundRecords(Sites(inventory), Locations(inventory),
                                                   w.secondFetch.networks, |inventory|)))))
    }

    /** The Networks branch (see NetworksRan). */
    method RunNetworks(w: NetworksWorld)
      requires halted == Running
      requires |w.picks| >= |inventory| && ValidPicks(w.picks, |TagPool(ctx.customTags)|)
      modifies this
      ensures NetworksRan(w)
    {
      var ledger := Load(file);
      if ledger != [] {
        return;
      }
      var sites := Sites(inventory);
      var locations := Locations(inventory);
      CreateNetworks(sites, locations, w);
      if halted != Running {
        return;
      }
      match w.secondFetch {
        case NetErr(_) =>
          halted := Exited;
        case NetOk(networks) =>
          ledger := CollectRecords(sites, locations, networks);
          file := Stored(ledger);
      }
    }

    /** What the Devices branch does: refused on an empty ledger; otherwise claim the
        devices of every row in one asynchronous batch, wait for it, and
        record each row's devices and management VLAN whatever the batch's
        outcome. */
    twostate predicate DevicesRan(w: DevicesWorld)
      reads this
    {
      && deleted == old(deleted)
      && var ledger := Load(old(file));
        && (ledger == [] ==> file == old(file) && submitted == old(submitted) && halted == Running)
        && (ledger != [] && !DevicesComplete(ledger, inventory) ==>
              file == old(file) && submitted == old(submitted) && halted == Crashed)
        && (ledger != [] && DevicesComplete(ledger, inventory) ==>
              && submitted == old(submitted)
                   + [CreateActionBatch(ctx.orgId, true, false, Some(DeviceClaims(ledger, inventory, |inventory|)))]
              && (w.accepted && PollOutcome(w.observations).None? ==> halted == Stuck && file == old(file))
              && (!(w.accepted && PollOutcome(w.observations).None?) ==>
                    halted == Running && file == Stored(ClaimedLedger(ledger, inventory, |inventory|))))
    }

    /** The Devices branch (see DevicesRan). */
    method RunDevices(w: DevicesWorld)
      requires halted == Running
      modifies this
      ensures DevicesRan(w)
    {
      var ledger := Load(file);
      if ledger == [] {
        return;
      }
      var ok, claimed, claims := ClaimRows(ledger, inventory);
      if !ok {
        halted := Crashed;
        return;
      }
      submitted := submitted + [CreateActionBatch(ctx.orgId, true, false, Some(claims))];
      if w.accepted {
        var done, polls, countdown := CheckUntilCompleted(w.observations, false);
        if done.None? {
          halted := Stuck;
          return;
        }
      }
      file := Stored(claimed);
    }

    /** What the Settings branch does: refused on an empty ledger or when its first
        record has no devices; otherwise submit one confirmed synchronous
        batch per row and mark the row's record, whatever the batch's
        outcome. An exception at a row keeps the batches already submitted
        and leaves the file as it was. */
    twostate predicate SettingsRan(draws: seq<SiteDraws>)
      requires |inventory| <= |draws| && AllValidDraws(draws, ctx.customTags)
      reads this
    {
      && deleted == old(deleted)
      && var ledger := Load(old(file));
        && (ledger == [] || ledger[0].devices.None? ==>
              file == old(file) && submitted == old(submitted) && halted == Running)
        && (ledger != [] && ledger[0].devices.Some? ==>
              var c := CompletedRows(ctx, ledger, inventory, draws, |inventory|);
              && submitted == old(submitted) + SettingsBatches(ctx, ledger, inventory, draws, c)
              && (c == |inventory| ==> halted == Running && file == Stored(SettledLedger(ledger, |inventory|)))
              && (c < |inventory| ==> halted == Crashed && file == old(file)))
    }

    /** The Settings branch (see SettingsRan). */
    method RunSettings(draws: seq<SiteDraws>)
      requires halted == Running
      requires |inventory| <= |draws| && AllValidDraws(draws, ctx.customTags)
      modifies this
      ensures SettingsRan(draws)
    {
      var ledger := Load(file);
      if ledger == [] || ledger[0].devices.None? {
        return;
      }
      var settled, batches, completed := SettleRows(ctx, ledger, inventory, draws);
      submitted := submitted + batches;
      if completed < |inventory| {
        halted := Crashed;
      } else {
        file := Stored(settled);
      }
    }

    /** What the Fun branch does, whose blinking, snapshots and messages are not
        modelled: gated like Settings, it dies when the inventory has no row
        or the first record has fewer than four devices. */
    twostate predicate FunRan()
      reads this
    {
      && file == old(file) && submitted == old(submitted) && deleted == old(deleted)
      && var ledger := Load(old(file));
        halted == (if ledger != [] && ledger[0].devices.Some?
                      && (|inventory| == 0 || |ledger[0].devices.value| < 4) then Crashed else Running)
    }

    /** The Fun branch (see FunRan). */
    method RunFun()
      requires halted == Running
      modifies this
      ensures FunRan()
    {
      var ledger := Load(file);
      if ledger == [] || ledger[0].devices.None? {
        return;
      }
      if |inventory| == 0 || |ledger[0].devices.value| < 4 {
        halted := Crashed;
      }
    }

    /** What the Bye branch does: delete every recorded network, remove the ledger
        file and exit. */
    twostate predicate TeardownRan()
      reads this
    {
      && deleted == old(deleted) + NetIds(Load(old(file)))
      && file == Missing && halted == Exited && submitted == old(submitted)
    }

    /** The Bye branch (see TeardownRan). */
    method RunTeardown()
      requires halted == Running
      modifies this
      ensures TeardownRan()
    {
      var ledger := Load(file);
      var i := 0;
      while i < |ledger|
        invariant i <= |ledger|
        invariant deleted == old(deleted) + NetIds(ledger[..i])
        invariant submitted == old(submitted)
      {
        deleted := deleted + [ledger[i].netId];
        assert NetIds(ledger[..i + 1]) == NetIds(ledger[..i]) + [ledger[i].netId];
        i := i + 1;
      }
      assert ledger[..i] == ledger;
      file := Missing;
      halted := Exited;
    }

    /** One round of the menu loop: map the answer to a phase with the
        keyword chain as written, load the ledger and run the phase it
        selects. */
    method Step(answer: string, nw: NetworksWorld, dw: DevicesWorld, draws: seq<SiteDraws>)
      requires halted == Running
      requires |nw.picks| >= |inventory| && ValidPicks(nw.picks, |TagPool(ctx.customTags)|)
      requires |inventory| <= |draws| && AllValidDraws(draws, ctx.customTags)
      modifies this
      ensures var phase := PhaseOf(MenuAnswerAsWritten(answer));
        var ledger := Load(old(file));
        var refused := || phase == NoPhase
                       || (phase == NetworksPhase && ledger != [])
                       || (phase in {DevicesPhase, SettingsPhase, FunPhase} && ledger == [])
                       || (phase in {SettingsPhase, FunPhase} && ledger != [] && ledger[0].devices.None?);
        && (refused ==>
              file == old(file) && submitted == old(submitted) && deleted == old(deleted) && halted == old(halted))
        && (phase != TeardownPhase ==> deleted == old(deleted))
        && (phase == NetworksPhase ==> NetworksRan(nw))
        && (phase == DevicesPhase ==> DevicesRan(dw))
        && (phase == SettingsPhase ==> SettingsRan(draws))
        && (phase == FunPhase ==> FunRan())
        && (phase == TeardownPhase ==> TeardownRan())
    {
      var stop := MenuAnswerAsWritten(answer);
      var phase := PhaseOf(stop);
      match phase {
        case NetworksPhase => RunNetworks(nw);
        case DevicesPhase => RunDevices(dw);
        case SettingsPhase => RunSettings(draws);
        case FunPhase => RunFun();
        case TeardownPhase => RunTeardown();
        case NoPhase =>
      }
    }
  }
}
