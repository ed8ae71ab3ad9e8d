/** Atomic actions and the builders of the provisioning script that append
    them to a caller-owned list: network creation, device claims, device
    attributes, management interfaces, MX VLANs, group policies and switch
    ports. Each builder is a method that extends a caller-owned ActionList
    and is proved against a function that gives the actions it appends. */
module Actions {
  import opened Text

  datatype Operation = Create | Update | Destroy | Claim

  /** The `vlan` field of a management interface: a VLAN number, or '' for
      an untagged interface. */
  datatype VlanTag = Tagged(id: int) | Untagged

  /** The body of each kind of action, one variant per (resource, operation).
      A group-policy body is the template of group_policies.py stored under
      `template`, with its `name` field set. */
  datatype Body =
    | NetworkBody(name: string, netType: string, tags: string, copyFromNetworkId: string)
    | ClaimBody(serial: string)
    | DeviceBody(name: string, tags: string, address: string, moveMapMarker: bool, notes: string)
    | ManagementBody(usingStaticIp: bool, vlan: VlanTag, staticIp: string, staticGatewayIp: string,
                     staticSubnetMask: string, staticDns: seq<string>)
    | VlanUpdateBody(name: string, subnet: string, applianceIp: string)
    | VlanCreateBody(id: string, name: string, subnet: string, applianceIp: string)
    | EmptyBody
    | PolicyBody(template: string, name: string)
    | SwitchPortBody(name: string, portType: string, portVlan: int, tags: string)

  datatype Action = Action(resource: string, operation: Operation, body: Body)

  /** A list of actions owned by a caller and extended in place by the builders. */
  class ActionList {
    var items: seq<Action>

    constructor ()
      ensures items == []
    {
      items := [];
    }

    method Append(a: Action)
      modifies this
      ensures items == old(items) + [a]
    {
      items := items + [a];
    }
  }

  // ---------------------------------------------------------------- tags

  const DefaultTags: seq<string> := ["foo", "bar", "foobar", "spam", "ham", "eggs"]

  /** custom_tags + ['foo', 'bar', 'foobar', 'spam', 'ham', 'eggs'] */
  function TagPool(customTags: seq<string>): seq<string> {
    customTags + DefaultTags
  }

  /** One outcome of random.sample(pool, 3): three distinct positions of the pool. */
  datatype TagPick = TagPick(first: nat, second: nat, third: nat)

  predicate ValidPick(p: TagPick, poolSize: nat) {
    && p.first < poolSize && p.second < poolSize && p.third < poolSize
    && p.first != p.second && p.first != p.third && p.second != p.third
  }

  predicate ValidPicks(picks: seq<TagPick>, poolSize: nat) {
    forall k :: 0 <= k < |picks| ==> ValidPick(picks[k], poolSize)
  }

  function PickedTags(customTags: seq<string>, p: TagPick): seq<string>
    requires ValidPick(p, |TagPool(customTags)|)
  {
    var pool := TagPool(customTags);
    [pool[p.first], pool[p.second], pool[p.third]]
  }

  /** ' '.join(random.sample(pool, 3)) for the sample p. */
  function Tags(customTags: seq<string>, p: TagPick): string
    requires ValidPick(p, |TagPool(customTags)|)
  {
    JoinWords(PickedTags(customTags, p))
  }

  /** Custom tags as str.split() leaves them. */
  predicate AreWords(words: seq<string>) {
    forall i :: 0 <= i < |words| ==> IsWord(words[i])
  }

  /** A tags string holds exactly three tags, taken from three distinct
      positions of the pool. */
  lemma TagsAreThreePoolWords(customTags: seq<string>, p: TagPick)
    requires ValidPick(p, |TagPool(customTags)|)
    requires AreWords(customTags)
    ensures SplitWords(Tags(customTags, p)) == PickedTags(customTags, p)
    ensures |SplitWords(Tags(customTags, p))| == 3
    ensures forall w :: w in SplitWords(Tags(customTags, p)) ==> w in TagPool(customTags)
  {
    var pool := TagPool(customTags);
    assert AreWords(DefaultTags) by {
      assert ' ' !in "foo" && ' ' !in "bar" && ' ' !in "foobar";
      assert ' ' !in "spam" && ' ' !in "ham" && ' ' !in "eggs";
    }
    assert AreWords(pool) by {
      forall i | 0 <= i < |pool| ensures IsWord(pool[i]) {
        if i >= |customTags| { assert pool[i] == DefaultTags[i - |customTags|]; }
      }
    }
    SplitJoinWords(PickedTags(customTags, p));
  }

  /** The tags of a run of random.sample calls, one per pick, in order. */
  function SampledTags(customTags: seq<string>, picks: seq<TagPick>): (tags: seq<string>)
    requires ValidPicks(picks, |TagPool(customTags)|)
    ensures |tags| == |picks|
    ensures forall k :: 0 <= k < |picks| ==> tags[k] == Tags(customTags, picks[k])
  {
    seq(|picks|, k requires 0 <= k < |picks| => Tags(customTags, picks[k]))
  }

  /** Every sampled tags string is three words of the pool. */
  lemma SampledTagsArePoolWords(customTags: seq<string>, picks: seq<TagPick>)
    requires ValidPicks(picks, |TagPool(customTags)|)
    requires AreWords(customTags)
    ensures forall k :: 0 <= k < |picks| ==>
              && |SplitWords(SampledTags(customTags, picks)[k])| == 3
              && forall w :: w in SplitWords(SampledTags(customTags, picks)[k]) ==> w in TagPool(customTags)
  {
    forall k | 0 <= k < |picks|
      ensures && |SplitWords(SampledTags(customTags, picks)[k])| == 3
              && forall w :: w in SplitWords(SampledTags(customTags, picks)[k]) ==> w in TagPool(customTags)
    {
      TagsAreThreePoolWords(customTags, picks[k]);
    }
  }

  // ---------------------------------------------------------------- resource paths

  function NetworksPath(orgId: string): string { "/organizations/" + orgId + "/networks" }
  function DevicesPath(netId: string): string { "/networks/" + netId + "/devices" }
  function DevicePath(netId: string, serial: string): string { DevicesPath(netId) + "/" + serial }
  function ManagementPath(netId: string, serial: string): string {
    DevicePath(netId, serial) + "/managementInterfaceSettings"
  }
  function VlansPath(netId: string): string { "/networks/" + netId + "/vlans" }
  function GroupPoliciesPath(netId: string): string { "/networks/" + netId + "/groupPolicies" }
  function SwitchPortPath(serial: string, port: nat): string
    requires port < 10
  {
    "/devices/" + serial + "/switchPorts/" + [DigitChar(port)]
  }

  // ---------------------------------------------------------------- networks

  const NetType: string := "appliance switch wireless camera systemsManager"

  /** The name a site's network gets: its location with every ',' replaced by ' -'. */
  function NetworkName(location: string): (name: string)
    ensures ',' !in name
    ensures ',' !in location ==> name == location
  {
    ReplaceCharRemoves(location, ',', " -");
    ReplaceChar(location, ',', " -")
  }

  function NetworkAction(orgId: string, location: string, tags: string, isp: string): Action {
    Action(NetworksPath(orgId), Create, NetworkBody(NetworkName(location), NetType, tags, isp))
  }

  /** The number of (site, location) pairs zip(sites, locations) yields. */
  function ZipLength<S, T>(a: seq<S>, b: seq<T>): nat {
    if |a| < |b| then |a| else |b|
  }

  /** The actions create_networks builds: one per zipped (site, location)
      pair, each network copied from the ISP network and tagged with its
      pair's sample. */
  function NetworkActions(orgId: string, sites: seq<string>, locations: seq<string>, isp: string,
                          customTags: seq<string>, picks: seq<TagPick>): seq<Action>
    requires |picks| >= ZipLength(sites, locations)
    requires ValidPicks(picks, |TagPool(customTags)|)
  {
    seq(ZipLength(sites, locations),
        k requires 0 <= k < ZipLength(sites, locations) =>
          NetworkAction(orgId, locations[k], Tags(customTags, picks[k]), isp))
  }

  /** One create per pair, all addressed to the organisation's networks and
      copied from the ISP network, each named after its location and carrying
      three tags from the pool. */
  lemma NetworkActionsShape(orgId: string, sites: seq<string>, locations: seq<string>, isp: string,
                            customTags: seq<string>, picks: seq<TagPick>)
    requires |picks| >= ZipLength(sites, locations)
    requires ValidPicks(picks, |TagPool(customTags)|)
    requires AreWords(customTags)
    ensures var r := NetworkActions(orgId, sites, locations, isp, customTags, picks);
      && |r| == ZipLength(sites, locations)
      && forall k :: 0 <= k < |r| ==>
           && r[k].resource == "/organizations/" + orgId + "/networks"
           && r[k].operation == Create
           && r[k].body.NetworkBody?
           && r[k].body.name == ReplaceChar(locations[k], ',', " -")
           && ',' !in r[k].body.name
           && r[k].body.netType == NetType
           && r[k].body.copyFromNetworkId == isp
           && |SplitWords(r[k].body.tags)| == 3
  {
    var r := NetworkActions(orgId, sites, locations, isp, customTags, picks);
    forall k | 0 <= k < |r| ensures |SplitWords(r[k].body.tags)| == 3 {
      TagsAreThreePoolWords(customTags, picks[k]);
    }
  }

  /** The loop of create_networks that fills its action list. */
  method BuildNetworkActions(actions: ActionList, orgId: string, sites: seq<string>, locations: seq<string>,
                             isp: string, customTags: seq<string>, picks: seq<TagPick>)
    requires |picks| >= ZipLength(sites, locations)
    requires ValidPicks(picks, |TagPool(customTags)|)
    modifies actions
    ensures actions.items == old(actions.items) + NetworkActions(orgId, sites, locations, isp, customTags, picks)
  {
    ghost var before := actions.items;
    ghost var all := NetworkActions(orgId, sites, locations, isp, customTags, picks);
    var n := ZipLength(sites, locations);
    var k := 0;
    while k < n
      invariant k <= n
      invariant actions.items == before + all[..k]
    {
      actions.Append(NetworkAction(orgId, locations[k], Tags(customTags, picks[k]), isp));
      assert all[..k + 1] == all[..k] + [all[k]];
      k := k + 1;
    }
    assert all[..n] == all;
  }

  // ---------------------------------------------------------------- devices

  function ClaimAction(netId: string, serial: string): Action {
    Action(DevicesPath(netId), Claim, ClaimBody(serial))
  }

  /** add_devices: one claim for a non-empty serial, nothing for an empty one. */
  method AddDevices(actions: ActionList, netId: string, serial: string)
    modifies actions
    ensures serial != "" ==> actions.items == old(actions.items) + [ClaimAction(netId, serial)]
    ensures serial == "" ==> actions.items == old(actions.items)
  {
    if serial != "" {
      actions.Append(ClaimAction(netId, serial));
    }
  }

  function DeviceAction(netId: string, serial: string, name: string, address: string,
                        userName: string, tags: string): Action {
    Action(DevicePath(netId, serial), Update,
           DeviceBody(name, tags, address, true, "installed by " + userName))
  }

  /** configure_device, given the tags it samples: one attribute update for
      a non-empty serial. */
  method ConfigureDevice(actions: ActionList, netId: string, serial: string, name: string,
                         address: string, userName: string, tags: string)
    modifies actions
    ensures serial != "" ==>
      actions.items == old(actions.items) + [DeviceAction(netId, serial, name, address, userName, tags)]
    ensures serial == "" ==> actions.items == old(actions.items)
  {
    if serial != "" {
      actions.Append(Action(DevicePath(netId, serial), Update,
                            DeviceBody(name, tags, address, true, "installed by " + userName)));
    }
  }

  // ---------------------------------------------------------------- management interfaces

  const SubnetMask: string := "255.255.255.0"
  const DnsServers: seq<string> := ["208.67.220.220", "208.67.222.222"]

  /** ip[:-1] + '1': the MX's address, .1 on the device's subnet. */
  function GatewayIp(ip: string): string {
    if |ip| == 0 then "1" else ip[..|ip| - 1] + "1"
  }

  function ManagementAction(netId: string, serial: string, ip: string, vlan: int): Action {
    Action(ManagementPath(netId, serial), Update,
           ManagementBody(true, if Contains(ip, ".2") then Tagged(vlan) else Untagged,
                          ip, GatewayIp(ip), SubnetMask, DnsServers))
  }

  /** The management interface of a device at ip: the gateway is ip with its
      last character replaced by '1', the VLAN tag is present exactly when
      ".2" occurs in ip, and the mask is always /24. */
  lemma ManagementActionShape(netId: string, serial: string, ip: string, vlan: int)
    ensures var a := ManagementAction(netId, serial, ip, vlan);
      && a.resource == "/networks/" + netId + "/devices/" + serial + "/managementInterfaceSettings"
      && a.operation == Update
      && a.body.ManagementBody?
      && a.body.staticIp == ip
      && |a.body.staticGatewayIp| == (if |ip| == 0 then 1 else |ip|)
      && a.body.staticGatewayIp[|a.body.staticGatewayIp| - 1] == '1'
      && (forall i :: 0 <= i < |ip| - 1 ==> a.body.staticGatewayIp[i] == ip[i])
      && (a.body.vlan == Tagged(vlan) <==> exists i: nat :: OccursAt(ip, ".2", i))
      && (a.body.vlan != Tagged(vlan) ==> a.body.vlan == Untagged)
      && a.body.staticSubnetMask == "255.255.255.0"
  {
    ContainsIff(ip, ".2");
  }

  /** The (serial, ip) pairs with a non-empty serial, in order. */
  function SerialledPairs(pairs: seq<(string, string)>): seq<(string, string)>
    decreases |pairs|
  {
    if |pairs| == 0 then []
    else SerialledPairs(pairs[..|pairs| - 1])
         + (if pairs[|pairs| - 1].0 != "" then [pairs[|pairs| - 1]] else [])
  }

  /** The actions batch_devices appends. */
  function ManagementActions(netId: string, pairs: seq<(string, string)>, vlan: int): seq<Action>
    decreases |pairs|
  {
    if |pairs| == 0 then []
    else ManagementActions(netId, pairs[..|pairs| - 1], vlan)
         + (var (serial, ip) := pairs[|pairs| - 1];
            if serial != "" then [ManagementAction(netId, serial, ip, vlan)] else [])
  }

  /** batch_devices appends one management update per pair with a non-empty
      serial, in the order of the pairs. */
  lemma {:induction false} ManagementActionsPerPair(netId: string, pairs: seq<(string, string)>, vlan: int)
    ensures var r := ManagementActions(netId, pairs, vlan);
      var kept := SerialledPairs(pairs);
      && |r| == |kept|
      && (forall k :: 0 <= k < |kept| ==> kept[k] in pairs && kept[k].0 != "")
      && (forall k :: 0 <= k < |r| ==> r[k] == ManagementAction(netId, kept[k].0, kept[k].1, vlan))
    decreases |pairs|
  {
    if |pairs| > 0 {
      var init := pairs[..|pairs| - 1];
      ManagementActionsPerPair(netId, init, vlan);
      var kept := SerialledPairs(pairs);
      forall k | 0 <= k < |kept| ensures kept[k] in pairs {
        if k < |SerialledPairs(init)| {
          assert kept[k] in init;
        } else {
          assert kept[k] == pairs[|pairs| - 1];
        }
      }
    }
  }

  /** batch_devices */
  method BatchDevices(actions: ActionList, netId: string, serialsIps: seq<(string, string)>, vlan: int)
    modifies actions
    ensures actions.items == old(actions.items) + ManagementActions(netId, serialsIps, vlan)
  {
    ghost var before := actions.items;
    var k := 0;
    while k < |serialsIps|
      invariant k <= |serialsIps|
      invariant actions.items == before + ManagementActions(netId, serialsIps[..k], vlan)
    {
      var (serial, ip) := serialsIps[k];
      assert serialsIps[..k + 1][..k] == serialsIps[..k];
      if serial != "" {
        var tag := if Contains(ip, ".2") then Tagged(vlan) else Untagged;
        actions.Append(Action(ManagementPath(netId, serial), Update,
                              ManagementBody(true, tag, ip, GatewayIp(ip), SubnetMask, DnsServers)));
      }
      k := k + 1;
    }
    assert serialsIps[..k] == serialsIps;
  }

  // ---------------------------------------------------------------- VLANs

  const VlanNames: seq<string> := ["Management", "Data", "Voice", "Guest"]

  /** The first action of batch_vlans: site '0' renames VLAN 1 as its
      management VLAN, every other site destroys VLAN 1. */
  function VlanOneAction(netId: string, num: string): Action {
    if num == "0" then
      Action(VlansPath(netId) + "/1", Update,
             VlanUpdateBody("Site " + num + " - Management", "10." + num + ".1.0/24", "10." + num + ".1.1"))
    else
      Action(VlansPath(netId) + "/1", Destroy, EmptyBody)
  }

  /** The x of range(1, 5) for which batch_vlans creates a VLAN: 2, 3, 4 on
      site '0', 1, 2, 3 elsewhere. */
  function CreatedVlanDigits(num: string): seq<nat> {
    if num == "0" then [2, 3, 4] else [1, 2, 3]
  }

  /** int(num + str(x)), the number of the VLAN created for x. */
  function VlanNumber(num: string, x: nat): int
    requires 1 <= x <= 4 && ParseInt(num + "1").Some?
  {
    ParseWithDigitUniform(num, '1', DigitChar(x));
    assert "1" == ['1'];
    ParseInt(num + [DigitChar(x)]).value
  }

  function VlanCreateAction(netId: string, num: string, x: nat, vlan: int): Action
    requires 1 <= x <= 4
  {
    var d := [DigitChar(x)];
    Action(VlansPath(netId), Create,
           VlanCreateBody(IntToString(vlan), "Site " + num + " - " + VlanNames[x - 1],
                          "10." + num + "." + d + ".0/24", "10." + num + "." + d + ".1"))
  }

  /** The first n VLAN creations of batch_vlans, in order. */
  function CreatedVlans(netId: string, num: string, n: nat): (r: seq<Action>)
    requires n <= 3 && (n > 0 ==> ParseInt(num + "1").Some?)
    ensures |r| == n
  {
    if n == 0 then []
    else
      var x := CreatedVlanDigits(num)[n - 1];
      CreatedVlans(netId, num, n - 1) + [VlanCreateAction(netId, num, x, VlanNumber(num, x))]
  }

  /** The actions batch_vlans appends, or None when int(num + str(x)) raises. */
  function VlanActions(netId: string, num: string): Option<seq<Action>> {
    if ParseInt(num + "1").None? then None
    else Some([VlanOneAction(netId, num)] + CreatedVlans(netId, num, 3))
  }

  /** The k-th VLAN creation (k in 1..3) of batch_vlans, for x the k-th
      created digit. */
  lemma CreatedVlanAt(netId: string, num: string, k: nat)
    requires 1 <= k <= 3 && ParseInt(num + "1").Some?
    ensures var x := CreatedVlanDigits(num)[k - 1];
      VlanActions(netId, num).value[k] == VlanCreateAction(netId, num, x, VlanNumber(num, x))
  {
    var c := CreatedVlans(netId, num, 3);
    assert c == CreatedVlans(netId, num, 2) + [c[2]];
    assert CreatedVlans(netId, num, 2) == CreatedVlans(netId, num, 1) + [c[1]];
  }

  /** batch_vlans always appends four actions: on site '0' an update of VLAN 1
      and the creation of VLANs 2, 3 and 4; elsewhere the destruction of VLAN 1
      and the creation of VLANs int(num+'1'), int(num+'2'), int(num+'3'). Each
      created VLAN x gets the subnet 10.{num}.{x}.0/24 and the MX at .1. */
  lemma VlanActionsShape(netId: string, num: string)
    requires ParseInt(num + "1").Some?
    ensures var r := VlanActions(netId, num).value;
      && |r| == 4
      && r[0].resource == "/networks/" + netId + "/vlans/1"
      && (num == "0" ==> r[0].operation == Update && r[0].body.subnet == "10.0.1.0/24")
      && (num != "0" ==> r[0].operation == Destroy && r[0].body == EmptyBody)
      && forall k :: 1 <= k < 4 ==>
           var x := if num == "0" then k + 1 else k;
           && r[k].resource == "/networks/" + netId + "/vlans"
           && r[k].operation == Create
           && r[k].body.VlanCreateBody?
           && ParseInt(r[k].body.id) == ParseInt(num + [DigitChar(x)])
           && r[k].body.subnet == "10." + num + "." + [DigitChar(x)] + ".0/24"
           && r[k].body.applianceIp == "10." + num + "." + [DigitChar(x)] + ".1"
  {
    var r := VlanActions(netId, num).value;
    forall k | 1 <= k < 4
      ensures var x := if num == "0" then k + 1 else k;
        && r[k].resource == "/networks/" + netId + "/vlans"
        && r[k].operation == Create
        && r[k].body.VlanCreateBody?
        && ParseInt(r[k].body.id) == ParseInt(num + [DigitChar(x)])
        && r[k].body.subnet == "10." + num + "." + [DigitChar(x)] + ".0/24"
        && r[k].body.applianceIp == "10." + num + "." + [DigitChar(x)] + ".1"
    {
      CreatedVlanShape(netId, num, k);
    }
  }

  lemma CreatedVlanShape(netId: string, num: string, k: nat)
    requires 1 <= k <= 3 && ParseInt(num + "1").Some?
    ensures var r := VlanActions(netId, num).value;
      var x := if num == "0" then k + 1 else k;
      && r[k].resource == "/networks/" + netId + "/vlans"
      && r[k].operation == Create
      && r[k].body.VlanCreateBody?
      && ParseInt(r[k].body.id) == ParseInt(num + [DigitChar(x)])
      && r[k].body.subnet == "10." + num + "." + [DigitChar(x)] + ".0/24"
      && r[k].body.applianceIp == "10." + num + "." + [DigitChar(x)] + ".1"
  {
    var x := CreatedVlanDigits(num)[k - 1];
    assert x == if num == "0" then k + 1 else k;
    CreatedVlanAt(netId, num, k);
    ParseWithDigitUniform(num, '1', DigitChar(x));
    assert "1" == ['1'];
    ParseIntOfIntToString(VlanNumber(num, x));
  }

  /** For a plain decimal site number, VLAN x is numbered 10 * site + x. */
  lemma VlanNumberOfDecimalSite(num: string, x: nat)
    requires |num| > 0 && AllDigits(num) && 1 <= x <= 4
    ensures ParseInt(num + "1").Some?
    ensures VlanNumber(num, x) == 10 * DigitsValue(num) + x
  {
    AppendDigit(num, '1');
    assert "1" == ['1'];
    AppendDigit(num, DigitChar(x));
  }

  /** For a plain decimal site number the three VLANs batch_vlans creates
      have pairwise distinct ids. */
  lemma VlanIdsDistinct(netId: string, num: string)
    requires |num| > 0 && AllDigits(num)
    ensures ParseInt(num + "1").Some?
    ensures var r := VlanActions(netId, num).value;
      && r[1].body.VlanCreateBody? && r[2].body.VlanCreateBody? && r[3].body.VlanCreateBody?
      && r[1].body.id != r[2].body.id && r[1].body.id != r[3].body.id && r[2].body.id != r[3].body.id
  {
    var xs := CreatedVlanDigits(num);
    VlanNumberOfDecimalSite(num, xs[0]);
    VlanNumberOfDecimalSite(num, xs[1]);
    VlanNumberOfDecimalSite(num, xs[2]);
    CreatedVlanAt(netId, num, 1);
    CreatedVlanAt(netId, num, 2);
    CreatedVlanAt(netId, num, 3);
    IntToStringInjective(VlanNumber(num, xs[0]), VlanNumber(num, xs[1]));
    IntToStringInjective(VlanNumber(num, xs[0]), VlanNumber(num, xs[2]));
    IntToStringInjective(VlanNumber(num, xs[1]), VlanNumber(num, xs[2]));
  }

  /** How many VLANs batch_vlans has created before reaching x in range(1, 5). */
  function CreatedBelow(num: string, x: nat): (n: nat)
    requires 1 <= x <= 5
    ensures n <= 3
  {
    if num == "0" then (if x <= 2 then 0 else x - 2)
    else (if x == 5 then 3 else x - 1)
  }

  /** One created VLAN extends CreatedVlans by the creation for x. */
  lemma CreatedVlansStep(netId: string, num: string, x: nat)
    requires 1 <= x <= 4 && (if num == "0" then x != 1 else x != 4)
    requires ParseInt(num + [DigitChar(x)]).Some?
    ensures ParseInt(num + "1").Some?
    ensures CreatedBelow(num, x + 1) == CreatedBelow(num, x) + 1
    ensures CreatedVlans(netId, num, CreatedBelow(num, x) + 1)
         == CreatedVlans(netId, num, CreatedBelow(num, x))
            + [VlanCreateAction(netId, num, x, ParseInt(num + [DigitChar(x)]).value)]
  {
    ParseWithDigitUniform(num, '1', DigitChar(x));
    assert "1" == ['1'];
    assert CreatedVlanDigits(num)[CreatedBelow(num, x)] == x;
  }

  /** batch_vlans. ok is false when int(num + str(x)) raises; the exception
      leaves the VLAN 1 action appended and nothing after it. */
  method BatchVlans(actions: ActionList, netId: string, num: string) returns (ok: bool)
    modifies actions
    ensures ok == VlanActions(netId, num).Some?
    ensures ok ==> actions.items == old(actions.items) + VlanActions(netId, num).value
    ensures !ok ==> actions.items == old(actions.items) + [VlanOneAction(netId, num)]
  {
    actions.Append(VlanOneAction(netId, num));
    ok := CreateVlans(actions, netId, num);
  }

  /** The "Add more VLANs" loop of batch_vlans. */
  method CreateVlans(actions: ActionList, netId: string, num: string) returns (ok: bool)
    modifies actions
    ensures ok == ParseInt(num + "1").Some?
    ensures ok ==> actions.items == old(actions.items) + CreatedVlans(netId, num, 3)
    ensures !ok ==> actions.items == old(actions.items)
  {
    ghost var start := actions.items;
    for x := 1 to 5
      invariant CreatedBelow(num, x) > 0 ==> ParseInt(num + "1").Some?
      invariant actions.items == start + CreatedVlans(netId, num, CreatedBelow(num, x))
    {
      if (num == "0" && x == 1) || (num != "0" && x == 4) {
        continue;
      }
      var parsed := ParseInt(num + [DigitChar(x)]);
      if parsed.None? {
        ParseWithDigitUniform(num, '1', DigitChar(x));
        assert "1" == ['1'];
        return false;
      }
      CreatedVlansStep(netId, num, x);
      actions.Append(VlanCreateAction(netId, num, x, parsed.value));
    }
    return true;
  }

  // ---------------------------------------------------------------- group policies

  const PolicyNames: seq<string> := ["Employee", "Executive", "Guest", "Sales", "Support"]

  function PolicyAction(netId: string, name: string): Action {
    Action(GroupPoliciesPath(netId), Create, PolicyBody(name, name))
  }

  /** The actions batch_policies appends. */
  function PolicyActions(netId: string): seq<Action> {
    seq(|PolicyNames|, k requires 0 <= k < |PolicyNames| => PolicyAction(netId, PolicyNames[k]))
  }

  /** batch_policies appends five group-policy creations in the order
      Employee, Executive, Guest, Sales, Support, each body named after its
      template. */
  lemma PolicyActionsShape(netId: string)
    ensures var r := PolicyActions(netId);
      && |r| == 5
      && (forall k :: 0 <= k < 5 ==>
            && r[k].resource == "/networks/" + netId + "/groupPolicies"
            && r[k].operation == Create
            && r[k].body.PolicyBody?
            && r[k].body.name == r[k].body.template)
      && [r[0].body.name, r[1].body.name, r[2].body.name, r[3].body.name, r[4].body.name]
         == ["Employee", "Executive", "Guest", "Sales", "Support"]
  {
  }

  /** batch_policies */
  method BatchPolicies(actions: ActionList, netId: string)
    modifies actions
    ensures actions.items == old(actions.items) + PolicyActions(netId)
  {
    ghost var before := actions.items;
    var k := 0;
    while k < |PolicyNames|
      invariant k <= |PolicyNames|
      invariant actions.items == before + PolicyActions(netId)[..k]
    {
      var name := PolicyNames[k];
      actions.Append(Action(GroupPoliciesPath(netId), Create, PolicyBody(name, name)));
      assert PolicyActions(netId)[..k + 1] == PolicyActions(netId)[..k] + [PolicyAction(netId, name)];
      k := k + 1;
    }
    assert PolicyActions(netId)[..k] == PolicyActions(netId);
  }

  // ---------------------------------------------------------------- switch ports

  /** The ports batch_switchports configures, in the order it appends them. */
  const SwitchPorts: seq<nat> := [1, 3, 5, 7, 9]

  function PortName(port: nat): string {
    if port == 1 then "Uplink to MX"
    else if port == 3 then "MR wireless AP"
    else if port == 5 then "MV security camera"
    else if port == 7 then "ready to connect!"
    else "SFP port"
  }

  /** The update of one port: port 7 is an access port on the chosen VLAN,
      the others are trunks on the management VLAN. */
  function SwitchPortAction(switch: string, port: nat, vlan: int, accessVlan: int, tags: string): Action
    requires port < 10
  {
    Action(SwitchPortPath(switch, port), Update, PortSettings(port, vlan, accessVlan, tags))
  }

  /** A port's settings: port 7 is an access port, the others are trunks. */
  function PortSettings(port: nat, vlan: int, accessVlan: int, tags: string): Body {
    if port == 7 then SwitchPortBody(PortName(port), "access", accessVlan, tags)
    else SwitchPortBody(PortName(port), "trunk", vlan, tags)
  }

  /** The updates of the first n ports of SwitchPorts, the k-th tagged with
      tags[k]; port 7's VLAN is random.choice(range(vlan + 1, vlan + 4)), the
      choice being `choice`. */
  function PortActions(switch: string, vlan: int, choice: nat, tags: seq<string>, n: nat): (r: seq<Action>)
    requires n <= 5 && |tags| == 5
    ensures |r| == n
    decreases n
  {
    if n == 0 then []
    else PortActions(switch, vlan, choice, tags, n - 1)
         + [SwitchPortAction(switch, SwitchPorts[n - 1], vlan, vlan + 1 + choice, tags[n - 1])]
  }

  /** The actions batch_switchports appends given its five tag samples:
      nothing without a switch, otherwise the updates of all five ports. */
  function SwitchPortActions(switch: string, vlan: int, choice: nat, tags: seq<string>): seq<Action>
    requires choice < 3 && |tags| == 5
  {
    if switch == "" then [] else PortActions(switch, vlan, choice, tags, 5)
  }

  /** Nothing without a switch; otherwise five updates, for ports 1, 3, 5, 7
      and 9 in ascending order, each with its own tag sample, the trunks on
      the management VLAN and port 7 an access port on a VLAN in
      [vlan + 1, vlan + 3]. */
  lemma SwitchPortActionsShape(switch: string, vlan: int, choice: nat, tags: seq<string>)
    requires choice < 3 && |tags| == 5
    ensures var r := SwitchPortActions(switch, vlan, choice, tags);
      && (switch == "" ==> r == [])
      && (switch != "" ==>
           && |r| == 5
           && (forall k :: 0 <= k < 5 ==>
                 && r[k].operation == Update
                 && r[k].resource == "/devices/" + switch + "/switchPorts/" + [DigitChar(2 * k + 1)]
                 && r[k].body.SwitchPortBody?
                 && r[k].body.tags == tags[k])
           && (forall k :: 0 <= k < 5 && k != 3 ==> r[k].body.portType == "trunk" && r[k].body.portVlan == vlan)
           && r[3].body.portType == "access"
           && vlan + 1 <= r[3].body.portVlan <= vlan + 3)
  {
    if switch != "" {
      forall k | 0 <= k < 5
        ensures var r := SwitchPortActions(switch, vlan, choice, tags);
          && r[k].operation == Update
          && r[k].resource == "/devices/" + switch + "/switchPorts/" + [DigitChar(2 * k + 1)]
          && r[k].body.SwitchPortBody?
          && r[k].body.tags == tags[k]
          && (k != 3 ==> r[k].body.portType == "trunk" && r[k].body.portVlan == vlan)
          && (k == 3 ==> r[k].body.portType == "access" && r[k].body.portVlan == vlan + 1 + choice)
      {
        PortActionAt(switch, vlan, choice, tags, 5, k);
      }
    }
  }

  /** The k-th port update is that of port 2k + 1. */
  lemma {:induction false} PortActionAt(switch: string, vlan: int, choice: nat, tags: seq<string>, n: nat, k: nat)
    requires n <= 5 && |tags| == 5
    requires k < n
    ensures SwitchPorts[k] == 2 * k + 1
    ensures PortActions(switch, vlan, choice, tags, n)[k]
         == SwitchPortAction(switch, 2 * k + 1, vlan, vlan + 1 + choice, tags[k])
    decreases n
  {
    if k < n - 1 {
      PortActionAt(switch, vlan, choice, tags, n - 1, k);
    }
  }

  /** One pass of the batch_switchports loop: the update of port x, or None
      for the ports its if-chain skips. */
  method PortAction(switch: string, x: nat, vlan: int, choice: nat, tags: string) returns (action: Option<Action>)
    requires 1 <= x < 10
    ensures action.Some? <==> x == 1 || x == 3 || x == 5 || x == 7 || x == 9
    ensures action.Some? ==> action.value == SwitchPortAction(switch, x, vlan, vlan + 1 + choice, tags)
  {
    var name, portType, portVlan;
    if x == 1 {
      name, portType, portVlan := "Uplink to MX", "trunk", vlan;
    } else if x == 3 {
      name, portType, portVlan := "MR wireless AP", "trunk", vlan;
    } else if x == 5 {
      name, portType, portVlan := "MV security camera", "trunk", vlan;
    } else if x == 7 {
      name, portType, portVlan := "ready to connect!", "access", vlan + 1 + choice;
    } else if x == 9 {
      name, portType, portVlan := "SFP port", "trunk", vlan;
    } else {
      return None;
    }
    action := Some(Action(SwitchPortPath(switch, x), Update, SwitchPortBody(name, portType, portVlan, tags)));
  }

  /** batch_switchports, given the tag samples it draws for its five ports. */
  method BatchSwitchports(actions: ActionList, switch: string, num: string, vlan: int,
                          choice: nat, tags: seq<string>)
    requires choice < 3 && |tags| == 5
    modifies actions
    ensures actions.items == old(actions.items) + SwitchPortActions(switch, vlan, choice, tags)
  {
    if switch != "" {
      ghost var before := actions.items;
      var x, k := 1, 0;
      while x < 10
        invariant 1 <= x <= 10 && k <= 5 && (x == 2 * k || x == 2 * k + 1)
        invariant actions.items == before + PortActions(switch, vlan, choice, tags, k)
      {
        var action := PortAction(switch, x, vlan, choice, tags[k]);
        if action.Some? {
          assert SwitchPorts[k] == x;
          actions.Append(action.value);
          k := k + 1;
        }
        x := x + 1;
      }
    }
  }
}
