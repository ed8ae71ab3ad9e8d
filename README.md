# Action-batch provisioning of a Meraki demo organisation

This project models the provisioning script of the Meraki "action batches"
demo. The script reads an inventory of sites and runs a menu of phases
against a dashboard organisation:

- **Networks** creates one network per site, copied from an `ISP` network.
  It then records every site whose network is listed afterwards in a ledger
  file, `networks_data.json`.
- **Devices** claims each site's gateway, switch, access point and camera
  in one asynchronous action batch. It polls that batch and records the
  devices and the management VLAN of every site.
- **Settings** submits one synchronous action batch per site. Each batch
  holds the device attributes, the management interfaces and the switch
  ports. On a site's first run it also holds the MX VLANs and group
  policies. The site is then marked `settings_created`.
- **Teardown** deletes every recorded network, removes the ledger and exits.

The model has six modules:

- `Text` (text.dfy) covers the parts of Python's `int()`, f-string
  formatting, `in`, `replace`, `lower`, `split` and `join` that the script
  depends on.
- `ActionBatches` (action_batches.dfy) covers the batch endpoints' requests,
  `check_status` and `check_until_completed`.
- `Actions` (actions.dfy) holds the action values and the builders
  (`add_devices`, `configure_device`, `batch_devices`, `batch_vlans`,
  `batch_policies`, `batch_switchports` and the list built in
  `create_networks`). Each builder is a method that extends a
  caller-owned `ActionList` and is proved against a function that gives
  the actions it appends.
- `Ledger` (ledger.dfy) holds the ledger records, the ledger load and the
  records the Networks phase collects from the fetched network list.
- `Provisioning` (provisioning.dfy) holds the menu mapping and the
  specification of the Devices and Settings phases as functions of the
  ledger and the inventory.
- `Phases` (phases.dfy) holds the menu loop as a `Provisioner` class.
  Its state is the ledger file, the batches submitted, the networks deleted
  and whether the script still runs. Each phase is a method proved against
  the `Provisioning` and `Ledger` functions.

What the dashboard answers is a parameter: network lists, batch acceptance
and the successive observations of a polled batch. So are the random draws
(`random.sample` of three tags, `random.choice` of port 7's VLAN).

## Model

| member | source | states |
|---|---|---|
| Text.ParseIntOfIntToString | demo.py:164-166 | `int(f'{n}') == n` for every integer n |
| Text.IntToStringInjective | demo.py:166 | distinct VLAN numbers format to distinct id strings |
| Text.AppendDigit | demo.py:164 | appending a digit to a decimal string multiplies its value by ten and adds the digit |
| Text.ParseWithDigitUniform | demo.py:161-164 | whether `int(num + str(x))` raises does not depend on the digit x |
| Text.ContainsIff | demo.py:129 | Python's `t in s` on strings holds exactly when t occurs at some position of s |
| Text.ReplaceCharRemoves | demo.py:35 | after `replace(',', ' -')` no comma is left, and a comma-free string is unchanged |
| Text.SplitWordsAreWords | demo.py:293 | every piece `split()` returns is a non-empty word without spaces |
| Text.SplitJoinWords | demo.py:36 | `' '.join(words).split()` gives the words back |
| ActionBatches.BatchUrl | action_batches.py:34-35 | the single-batch URL is the organisation's batch collection, a slash, then the batch id |
| ActionBatches.GetOrgActionBatches | action_batches.py:25-31 | a GET with no payload of exactly the organisation's batch collection URL, which every single-batch URL extends |
| ActionBatches.GetActionBatch | action_batches.py:34-40 | a GET with no payload of the collection URL, a slash and the batch id |
| ActionBatches.DeleteActionBatch | action_batches.py:43-49 | a DELETE with no payload of the collection URL, a slash and the batch id |
| ActionBatches.UpdateActionBatchAsWritten | action_batches.py:52-63 | as written: a POST of the two flags to the collection URL, a slash and the batch id |
| ActionBatches.CreateActionBatch | action_batches.py:10-22 | a POST to the organisation's batches whose payload is exactly confirmed, synchronous and actions as given |
| ActionBatches.UpdateAsWrittenIsNotPut | action_batches.py:52-63 | the update as written goes out as a POST, the verb of a batch creation, never as a PUT |
| ActionBatches.SingleBatchRequests | action_batches.py:10-63 | get, delete and update address the same batch URL; the update is a PUT of the two flags only; a bare create sends false, false and no actions |
| ActionBatches.CheckStatus | action_batches.py:67-76 | 1 iff ok, completed and not failed; -1 iff ok and failed, so failure wins; 0 iff the fetch failed or neither flag is set |
| ActionBatches.PollOutcome | action_batches.py:80-87 | the polling gives no verdict exactly when every observed status is 0 |
| ActionBatches.PollOutcomeIsFirstTerminal | action_batches.py:80-87 | the polling outcome is the verdict of the first observation that is not pending |
| ActionBatches.PollOutcomeStable | action_batches.py:80-87 | observations after the first terminal one never change the outcome |
| ActionBatches.CheckUntilCompleted | action_batches.py:80-91 | returns True or False at the first terminal status and keeps polling while every status is 0; all earlier polls were pending; the counter advances only on pending polls with print_message set |
| Actions.ActionList.Append | demo.py:70 | `list.append`: the list grows by exactly the one action |
| Actions.TagsAreThreePoolWords | demo.py:36 | a tags string splits back into exactly the three sampled pool entries |
| Actions.SampledTags | demo.py:110 | one tags string per draw, in order, each the join of that draw's three tags |
| Actions.SampledTagsArePoolWords | demo.py:230 | every sampled tags string is three words of the pool |
| Actions.NetworkName | demo.py:35 | a network name has no comma, and a comma-free location is its own name |
| Actions.NetworkActionsShape | demo.py:33-47 | one create per zipped pair, at `/organizations/{org}/networks`, named after the location with `','` turned into `' -'`, copied from the ISP network, with three tags |
| Actions.BuildNetworkActions | demo.py:33-47 | the loop appends exactly the actions of `NetworkActions`, in pair order |
| Actions.AddDevices | demo.py:68-78 | one claim at `/networks/{net}/devices` for a non-empty serial, nothing otherwise |
| Actions.ConfigureDevice | demo.py:102-116 | one update at `/networks/{net}/devices/{serial}` with moveMapMarker true and notes `installed by {user}` for a non-empty serial, nothing otherwise |
| Actions.ManagementActionShape | demo.py:123-136 | the gateway is the IP with its last character replaced by '1'; the VLAN tag is set exactly when '.2' occurs in the IP, else ''; the mask is 255.255.255.0 |
| Actions.ManagementActionsPerPair | demo.py:120-137 | one management update per pair with a non-empty serial, in pair order |
| Actions.BatchDevices | demo.py:120-137 | the loop appends exactly the actions of `ManagementActions` |
| Actions.CreatedVlanAt | demo.py:161-176 | the k-th created VLAN is the one for the k-th digit batch_vlans does not skip |
| Actions.VlanActionsShape | demo.py:141-176 | four actions: update (site '0') or destroy (other sites) of VLAN 1, then three creates numbered `int(num + str(x))`, with subnet `10.{num}.{x}.0/24` and appliance IP `10.{num}.{x}.1` |
| Actions.CreatedVlanShape | demo.py:161-176 | the k-th create carries the id, subnet and appliance IP of its digit x |
| Actions.VlanNumberOfDecimalSite | demo.py:164 | for a decimal site number, VLAN x is numbered 10 * site + x |
| Actions.VlanIdsDistinct | demo.py:161-170 | for a decimal site number the three created VLAN ids are pairwise distinct |
| Actions.CreatedVlansStep | demo.py:161-176 | each VLAN the loop creates extends the created list by the create for its digit |
| Actions.BatchVlans | demo.py:141-176 | appends exactly `VlanActions`, or only the VLAN 1 action when `int()` raises |
| Actions.CreateVlans | demo.py:160-176 | the "more VLANs" loop succeeds iff `int(num + '1')` parses, and then appends exactly the three creates |
| Actions.PolicyActionsShape | demo.py:180-190 | five creates at `/networks/{net}/groupPolicies` in the order Employee, Executive, Guest, Sales, Support, each named after its template |
| Actions.BatchPolicies | demo.py:180-190 | the loop appends exactly the actions of `PolicyActions` |
| Actions.SwitchPortActionsShape | demo.py:194-236 | nothing without a switch; otherwise five updates for ports 1, 3, 5, 7, 9 in order, trunks on the management VLAN, port 7 an access port on a VLAN in [vlan + 1, vlan + 3] |
| Actions.PortActionAt | demo.py:196-236 | the k-th port update is that of port 2k + 1 with the k-th tag sample |
| Actions.PortAction | demo.py:197-229 | the if-chain yields an update exactly for ports 1, 3, 5, 7 and 9, and it is that port's update |
| Actions.BatchSwitchports | demo.py:194-236 | the loop over range(1, 10) appends exactly the actions of `SwitchPortActions` |
| Ledger.Load | demo.py:311-315 | a missing or unparsable ledger file loads as the empty ledger |
| Ledger.NetIds | demo.py:467-468 | teardown visits the network ids of the records, in ledger order |
| Ledger.Names | demo.py:340 | the fetched network names, position by position |
| Ledger.IndexOf | demo.py:344 | `list.index`: the first position holding x, None exactly when x is absent |
| Ledger.IdOfFirst | demo.py:340-344 | the id of the first network with the name, None exactly when no network has it |
| Ledger.FoundIds | demo.py:341-344 | the lookup result for each inventory location |
| Ledger.PositionsExact | demo.py:341-345 | the found positions are listed exactly, each once, ascending |
| Ledger.AllPositions | demo.py:341-345 | when every position is found, the positions are 0 to n - 1 |
| Ledger.CollectedAtPositions | demo.py:341-345 | the j-th record comes from the j-th found position and carries its id |
| Ledger.FoundPositionsExact | demo.py:341-345 | a position gets a record iff its derived name was among the fetched networks |
| Ledger.FoundRecordsAtPositions | demo.py:341-345 | the ledger holds one record per found position, in inventory order, with the site, the location and the id of the first network of that name |
| Ledger.AllFoundAligned | demo.py:341-345 | when every network was found, the ledger lines up with the inventory |
| Ledger.CollectRecords | demo.py:334-345 | the loop collects exactly `FoundRecords` |
| Provisioning.DevicesOf | demo.py:368-371 | four (serial, role) pairs in gateway, switch, AP, camera order |
| Provisioning.Sites | demo.py:324-330 | the Site column, row by row |
| Provisioning.Locations | demo.py:324-330 | the Location column, row by row |
| Provisioning.MenuAnswerAsWritten | demo.py:298-309 | as written, the chain gives a phase digit or the lowered answer itself, and '5' only for the answer '5' |
| Provisioning.MenuPhasesAsWritten | demo.py:298-309 | as written, Networks, Devices, Settings and Fun are each selected exactly by their keyword when no earlier keyword occurs, or by their digit; teardown only by the answer '5' |
| Provisioning.MenuTeardownAsWritten | demo.py:298-309 | as written, only the literal answer '5' reaches teardown |
| Provisioning.MenuByeCounterexample | demo.py:298-309 | "Bye!" runs nothing as written and teardown as intended |
| Provisioning.NoKeywordIn | demo.py:300-309 | a one-character answer matches no keyword, so a digit answer selects its own phase |
| Provisioning.MenuPhases | demo.py:298-309 | as intended, each of Networks, Devices, Settings, Fun and teardown is selected exactly when its keyword occurs and no earlier keyword does, or by its digit |
| Provisioning.ClaimedLedger | demo.py:372-373 | the Devices phase keeps the ledger's length |
| Provisioning.ClaimedLedgerRecords | demo.py:359-374 | each processed record gets its row's four pairs in order and its management VLAN; nothing else changes |
| Provisioning.Filled | demo.py:366-367 | the non-empty serials, in order: an empty-free list is kept whole |
| Provisioning.FilledSingleton | demo.py:366-367 | a single serial is kept exactly when it is non-empty |
| Provisioning.FilledConcat | demo.py:366-367 | keeping the non-empty serials distributes over concatenation, so with FilledSingleton their order and multiplicity are kept |
| Provisioning.ClaimsOfShape | demo.py:366-367 | exactly one claim per non-empty serial of the row, in the row's order, all at the site's devices |
| Provisioning.DeviceClaimsCount | demo.py:359-376 | the claim batch holds only claims, at most four per row, exactly four when every serial is filled in |
| Provisioning.AllRowActionsAt | demo.py:392-423 | the k-th entry of the Settings run is the batch of row k |
| Provisioning.LeadingRun | demo.py:392-423 | the rows completed before the first raising row: all before it built, the one at it not |
| Provisioning.LeadingRunUnique | demo.py:392-423 | a run of built rows ended by a raising row is the completed count |
| Provisioning.Batches | demo.py:421 | one confirmed synchronous batch per built action list, in row order |
| Provisioning.SettledLedger | demo.py:422 | the first n records are marked settings_created, and nothing else changes |
| Provisioning.SettledLedgerStep | demo.py:422 | configuring row n marks record n and no other |
| Provisioning.RowActionsSettled | demo.py:394-419 | row n's batch is the same whether the earlier records are marked or not |
| Provisioning.DeviceUpdatesAreUpdates | demo.py:408-409 | the device attribute actions are all updates, at most one per device |
| Provisioning.ManagementActionsAreUpdates | demo.py:412 | the management actions are all updates |
| Provisioning.SwitchPortActionsAreUpdates | demo.py:419 | the switch-port actions are all updates |
| Provisioning.SiteActionsCreate | demo.py:415-419 | a site's batch creates something iff its record lacks settings_created |
| Provisioning.SettingsRerunCreatesNothing | demo.py:415-422 | after a complete Settings run, a second run builds every site's batch again and none of them creates anything |
| Phases.FindIsp | demo.py:19-30 | the first network named 'ISP'; when the listing has none, the created one if creation and VLAN enabling succeed and an exit otherwise; a crash iff the listing failed with a non-empty text |
| Phases.BuildSiteActions | demo.py:393-419 | the body of the Settings loop builds exactly `SiteBatch`, or raises in batch_vlans |
| Phases.ConfigureDevices | demo.py:408-409 | the loop appends exactly `DeviceUpdates` for the site's four devices |
| Phases.RowBatch | demo.py:392-419 | row k's batch is `RowActions`: it raises with no record, with a management VLAN `int()` rejects, or, on the site's first run, with a site for which `int(site + '1')` raises |
| Phases.SettleRows | demo.py:391-424 | the loop submits the batches of the leading built rows and marks exactly those records |
| Phases.SettleRow | demo.py:392-423 | one pass of the loop: the row's batch and the ledger with its record marked |
| Phases.ClaimRow | demo.py:366-367 | the row's serials handed to add_devices in order |
| Phases.ClaimRows | demo.py:356-374 | the loop completes iff every row has a record and a numeric VLAN, and then gives the claimed ledger and the claims |
| Phases.Provisioner.constructor | demo.py:291-293 | the custom tags are the answer split into words |
| Phases.Provisioner.CreateNetworks | demo.py:17-63 | one confirmed synchronous batch of `NetworkActions` copied from the ISP network, or the exit or crash of the ISP lookup |
| Phases.Provisioner.RunNetworks | demo.py:317-348 | skipped on a non-empty ledger; otherwise the networks batch, then the ledger of `FoundRecords` (stated as `NetworksRan`) |
| Phases.Provisioner.RunDevices | demo.py:351-380 | refused on an empty ledger; otherwise one asynchronous claim batch and the claimed ledger whatever the batch's outcome; stuck while every poll is pending (stated as `DevicesRan`) |
| Phases.Provisioner.RunSettings | demo.py:382-427 | refused on an empty ledger or without devices in the first record; otherwise the batches of the completed rows; the settled ledger when every row completes, a crash with the file unchanged otherwise (stated as `SettingsRan`) |
| Phases.Provisioner.RunFun | demo.py:429-441 | gated like Settings; dies on an empty inventory or a first record with fewer than four devices (stated as `FunRan`) |
| Phases.Provisioner.RunTeardown | demo.py:465-474 | deletes every recorded network in ledger order, removes the file and exits (stated as `TeardownRan`) |
| Phases.Provisioner.Step | demo.py:296-474 | one menu round with the keyword chain as written: refused phases change nothing; each selected phase leaves the state its Run method promises; only teardown deletes, exactly the recorded networks |

## Left out

- HTTP, the API key and its headers, JSON encoding, console prompts and
  output, `time.sleep`, and writing the `create_*.json` payload files are
  not modelled. Requests are values, and the dashboard's answers are
  parameters.
- dashboard.py is not part of this model. Its calls (`get_networks`,
  `create_network`, `enable_vlans`, `delete_network`, `blink_device`,
  `take_snapshot`, `post_message`) appear only as their results.
- group_policies.py is not part of this model. A policy body is its
  template name. The in-place `body['name'] = name` on the shared
  dictionary is modelled as a body whose name is the template's key.
  Aliasing between runs is not captured.
- The ISP network created by `create_networks`, and the VLAN enabling on
  it, are not recorded as requests. Only whether they succeed is modelled.
- CSV parsing is not modelled: the inventory is a sequence of `Row`
  values. A missing column (`KeyError`) is not modelled either.
- Phases.Provisioner.RunFun: the blinking, snapshots and chat messages are
  not modelled. Only the phase's gate and the ways it can die are.
- The output handling of `create_settings` is not modelled. It only
  prints, and drops error bodies of 1000 characters or more.
- The Devices phase's `create_devices` prints the error text of a rejected
  batch and does not poll. RunDevices models the skipped poll and not the
  print.
- Text.ParseInt: Python's `int()` also accepts surrounding whitespace,
  underscores between digits and non-ASCII digits. The model accepts an
  optional sign followed by ASCII digits.
- Text.ToLower: only ASCII letters are lowered.
- Text.SplitWords: only the space separates words. Python's `split()` also
  splits on tabs and newlines.
- Actions.SampledTags: `random.sample` is a parameter. Each draw is three
  distinct pool positions, and the lemmas state the bounds: three words,
  all from the pool.
- The port-7 `random.choice` is an index below 3 into
  `range(vlan + 1, vlan + 4)`.
- Some helper methods are the source's inline loops and loop bodies, given
  names: Phases.ClaimRow, Phases.ClaimRows, Phases.SettleRows,
  Phases.SettleRow, Phases.RowBatch, Phases.BuildSiteActions,
  Phases.ConfigureDevices, Actions.CreateVlans and Actions.PortAction.
  The Settings loop's tag samples are drawn before the site's actions are
  built. The source draws them as it goes, from the same pool and in the
  same order.
- ActionBatches.CheckUntilCompleted: a batch that stays pending forever is
  modelled by a finite sequence of observations that are all pending.
  The result is then None, where the source never returns.
- On these points the model follows the code:
  - the devices are recorded whatever the claim batch's outcome;
  - `settings_created` is set whatever the settings batch's outcome;
  - Settings checks for devices in the first record only;
  - teardown removes the ledger file after deleting every network,
    whatever each deletion returned;
  - the poll has no deadline.

## Findings

| source | as written | input that shows it | evidently intended | confidence | as-written member | corrected member |
|---|---|---|---|---|---|---|
| demo.py:306-309 | the last keyword test repeats `'fun'`, so no keyword selects teardown | the answer `Bye!` (lowered `bye!`) selects no phase | `'bye' in stop` selects `'5'` | high, not executed | Provisioning.MenuByeCounterexample | Provisioning.MenuPhases |
| action_batches.py:52-61 | `update_action_batch` builds `put_url` but sends it with `requests.post` | any call, e.g. org `1`, batch `2` | a PUT to the batch URL | high, not executed | ActionBatches.UpdateAsWrittenIsNotPut | ActionBatches.SingleBatchRequests |
