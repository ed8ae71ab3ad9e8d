/** The provisioning ledger (networks_data.json): one record per site whose
    network exists, extended by the Devices and Settings phases, and the
    lookups by network name that the Networks phase makes over the fetched
    list of the organisation's networks. */
module Ledger {
  import opened Text
  import opened Actions

  /** A (serial, role) pair of a record's `devices` list. */
  datatype Device = Device(serial: string, role: string)

  /** One ledger record. `devices` and `mgmtVlan` are absent until the
      Devices phase; `settingsCreated` stands for the presence of the
      `settings_created` key. */
  datatype Record = Record(netId: string, location: string, site: string,
                           devices: Option<seq<Device>>, mgmtVlan: Option<int>,
                           settingsCreated: bool)

  /** The ledger file as the script finds it on disk. */
  datatype LedgerFile = Missing | Unparsable | Stored(records: seq<Record>)

  /** The load at the top of every menu round: a missing file or one that is
      not valid JSON reads as the empty ledger. */
  function Load(f: LedgerFile): (ledger: seq<Record>)
    ensures f.Stored? ==> ledger == f.records
    ensures !f.Stored? ==> ledger == []
  {
    match f
    case Stored(records) => records
    case _ => []
  }

  /** The network ids of the records, in ledger order: what teardown deletes. */
  function NetIds(ledger: seq<Record>): (ids: seq<string>)
    ensures |ids| == |ledger|
    ensures forall i :: 0 <= i < |ledger| ==> ids[i] == ledger[i].netId
  {
    seq(|ledger|, i requires 0 <= i < |ledger| => ledger[i].netId)
  }

  /** A network of the organisation as get_networks lists it. */
  datatype Network = Network(id: string, name: string)

  /** The result of get_networks: the list, or the response text on an error. */
  datatype NetFetch = NetOk(networks: seq<Network>) | NetErr(text: string)

  /** [net['name'] for net in networks] */
  function Names(nets: seq<Network>): (names: seq<string>)
    ensures |names| == |nets|
    ensures forall i :: 0 <= i < |nets| ==> names[i] == nets[i].name
  {
    seq(|nets|, i requires 0 <= i < |nets| => nets[i].name)
  }

  /** list.index(x): the first position holding x, None for the ValueError. */
  function IndexOf(xs: seq<string>, x: string): (r: Option<nat>)
    ensures r.None? <==> x !in xs
    ensures r.Some? ==> r.value < |xs| && xs[r.value] == x
    ensures r.Some? ==> forall j :: 0 <= j < r.value ==> xs[j] != x
    decreases |xs|
  {
    if |xs| == 0 then None
    else if xs[0] == x then Some(0)
    else match IndexOf(xs[1..], x)
      case None => None
      case Some(i) => Some(i + 1)
  }

  /** The id of the first network called `name`, if there is one. */
  function IdOfFirst(nets: seq<Network>, name: string): (id: Option<string>)
    ensures id.None? <==> forall i :: 0 <= i < |nets| ==> nets[i].name != name
    ensures id.Some? ==> exists i :: 0 <= i < |nets| && nets[i].name == name && nets[i].id == id.value
                                     && forall j :: 0 <= j < i ==> nets[j].name != name
  {
    var names := Names(nets);
    match IndexOf(names, name)
    case None =>
      assert forall i :: 0 <= i < |nets| ==> nets[i].name != name by {
        forall i | 0 <= i < |nets| ensures nets[i].name != name {
          assert names[i] == nets[i].name;
        }
      }
      None
    case Some(i) => Some(nets[i].id)
  }

  /** The record the Networks phase writes for inventory position k when its
      network was found with id `netId`. */
  function NewRecord(netId: string, location: string, site: string): Record {
    Record(netId, location, site, None, None, false)
  }

  /** The id the Networks phase looks up for each inventory location: that
      of the first fetched network whose name is the derived one, if any. */
  function FoundIds(locations: seq<string>, nets: seq<Network>): (ids: seq<Option<string>>)
    ensures |ids| == |locations|
    ensures forall k :: 0 <= k < |locations| ==> ids[k] == IdOfFirst(nets, NetworkName(locations[k]))
  {
    seq(|locations|, k requires 0 <= k < |locations| => IdOfFirst(nets, NetworkName(locations[k])))
  }

  /** The records collected from the first n (site, location) pairs, given
      the id looked up for each: one per pair whose id was found. */
  function Collected(sites: seq<string>, locations: seq<string>, ids: seq<Option<string>>, n: nat): seq<Record>
    requires n <= |sites| && n <= |locations| && n <= |ids|
    decreases n
  {
    if n == 0 then []
    else
      var prev := Collected(sites, locations, ids, n - 1);
      match ids[n - 1]
      case None => prev
      case Some(id) => prev + [NewRecord(id, locations[n - 1], sites[n - 1])]
  }

  /** The records the Networks phase collects from the first n zipped
      (site, location) pairs: one per pair whose derived name is among the
      fetched networks, carrying the id of the first network of that name. */
  function FoundRecords(sites: seq<string>, locations: seq<string>, nets: seq<Network>, n: nat): seq<Record>
    requires n <= ZipLength(sites, locations)
  {
    Collected(sites, locations, FoundIds(locations, nets), n)
  }

  /** Whether the network of inventory position k was among the fetched ones. */
  predicate Found(locations: seq<string>, nets: seq<Network>, k: nat)
    requires k < |locations|
  {
    IdOfFirst(nets, NetworkName(locations[k])).Some?
  }

  /** The positions below n that hold a value, ascending. */
  function Positions<T>(xs: seq<Option<T>>, n: nat): (ps: seq<nat>)
    requires n <= |xs|
    ensures forall j :: 0 <= j < |ps| ==> ps[j] < n
    decreases n
  {
    if n == 0 then []
    else Positions(xs, n - 1) + (if xs[n - 1].Some? then [n - 1] else [])
  }

  /** The inventory positions below n whose network was found, ascending. */
  function FoundPositions(locations: seq<string>, nets: seq<Network>, n: nat): seq<nat>
    requires n <= |locations|
  {
    Positions(FoundIds(locations, nets), n)
  }

  /** Positions lists exactly the positions holding a value, each once and
      in ascending order. */
  lemma {:induction false} PositionsExact<T>(xs: seq<Option<T>>, n: nat)
    requires n <= |xs|
    ensures var ps := Positions(xs, n);
      && (forall k :: 0 <= k < n ==> (xs[k].Some? <==> k in ps))
      && (forall i, j :: 0 <= i < j < |ps| ==> ps[i] < ps[j])
    decreases n
  {
    if n > 0 {
      PositionsExact(xs, n - 1);
    }
  }

  /** When every position below n holds a value, Positions is 0, 1, ..., n - 1. */
  lemma {:induction false} AllPositions<T>(xs: seq<Option<T>>, n: nat)
    requires n <= |xs|
    requires forall k :: 0 <= k < n ==> xs[k].Some?
    ensures |Positions(xs, n)| == n
    ensures forall j :: 0 <= j < n ==> Positions(xs, n)[j] == j
    decreases n
  {
    if n > 0 {
      AllPositions(xs, n - 1);
    }
  }

  /** The j-th collected record comes from the j-th position holding an id,
      and carries that id. */
  lemma {:induction false} CollectedAtPositions(sites: seq<string>, locations: seq<string>,
                                                ids: seq<Option<string>>, n: nat)
    requires n <= |sites| && n <= |locations| && n <= |ids|
    ensures var r := Collected(sites, locations, ids, n);
      var ps := Positions(ids, n);
      && |r| == |ps|
      && forall j :: 0 <= j < |r| ==>
           && r[j].site == sites[ps[j]] && r[j].location == locations[ps[j]]
           && ids[ps[j]] == Some(r[j].netId)
           && r[j].devices.None? && r[j].mgmtVlan.None? && !r[j].settingsCreated
    decreases n
  {
    if n > 0 {
      CollectedAtPositions(sites, locations, ids, n - 1);
    }
  }

  /** FoundPositions lists exactly the found positions, each once and in
      ascending order. */
  lemma FoundPositionsExact(locations: seq<string>, nets: seq<Network>, n: nat)
    requires n <= |locations|
    ensures var ps := FoundPositions(locations, nets, n);
      && (forall k :: 0 <= k < n ==> (Found(locations, nets, k) <==> k in ps))
      && (forall i, j :: 0 <= i < j < |ps| ==> ps[i] < ps[j])
  {
    PositionsExact(FoundIds(locations, nets), n);
  }

  /** The ledger after the Networks phase holds one record per found
      position, in inventory order, with that position's site and location
      and the id of the first network whose name is the derived one. */
  lemma FoundRecordsAtPositions(sites: seq<string>, locations: seq<string>, nets: seq<Network>, n: nat)
    requires n <= ZipLength(sites, locations)
    ensures var r := FoundRecords(sites, locations, nets, n);
      var ps := FoundPositions(locations, nets, n);
      && |r| == |ps|
      && forall j :: 0 <= j < |r| ==>
           && r[j].site == sites[ps[j]] && r[j].location == locations[ps[j]]
           && IdOfFirst(nets, NetworkName(locations[ps[j]])) == Some(r[j].netId)
           && r[j].devices.None? && r[j].mgmtVlan.None? && !r[j].settingsCreated
  {
    CollectedAtPositions(sites, locations, FoundIds(locations, nets), n);
  }

  /** When every derived name was found, the ledger lines up with the
      inventory, one record per zipped pair. */
  lemma AllFoundAligned(sites: seq<string>, locations: seq<string>, nets: seq<Network>)
    requires forall k :: 0 <= k < ZipLength(sites, locations) ==> Found(locations, nets, k)
    ensures var r := FoundRecords(sites, locations, nets, ZipLength(sites, locations));
      && |r| == ZipLength(sites, locations)
      && forall k :: 0 <= k < |r| ==> r[k].site == sites[k] && r[k].location == locations[k]
  {
    var n := ZipLength(sites, locations);
    var ids := FoundIds(locations, nets);
    forall k | 0 <= k < n
      ensures ids[k].Some?
    {
      assert Found(locations, nets, k);
    }
    AllPositions(ids, n);
    CollectedAtPositions(sites, locations, ids, n);
  }

  /** The loop of the Networks phase that collects the ledger records. */
  method CollectRecords(sites: seq<string>, locations: seq<string>, nets: seq<Network>)
    returns (ledger: seq<Record>)
    ensures ledger == FoundRecords(sites, locations, nets, ZipLength(sites, locations))
  {
    var netNames := Names(nets);
    ledger := [];
    var k := 0;
    while k < ZipLength(sites, locations)
      invariant k <= ZipLength(sites, locations)
      invariant ledger == FoundRecords(sites, locations, nets, k)
    {
      var netName := ReplaceChar(locations[k], ',', " -");
      if netName in netNames {
        var i := IndexOf(netNames, netName).value;
        ledger := ledger + [NewRecord(nets[i].id, locations[k], sites[k])];
      }
      k := k + 1;
    }
  }
}
