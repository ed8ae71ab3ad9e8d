/** The action-batch client: the requests it sends to the dashboard API, the
    three-way classification of a fetched batch, and the loop that polls an
    asynchronous batch until it completes or fails. The HTTP exchange itself
    is not modelled: a request is the value that would be sent, and a fetch is
    the observation it returned. */
module ActionBatches {
  import opened Text

  const BaseUrl: string := "https://api.meraki.com/api/v0"

  datatype Verb = Get | Post | Put | Delete

  /** The JSON body of a request: none, the three fields of a new batch, or
      the two flags of an existing one. */
  datatype Payload<A> =
    | NoPayload
    | NewBatch(confirmed: bool, synchronous: bool, actions: Option<seq<A>>)
    | BatchFlags(confirmed: bool, synchronous: bool)

  datatype Request<A> = Request(verb: Verb, url: string, payload: Payload<A>)

  /** {base}/organizations/{org_id}/actionBatches */
  function OrgBatchesUrl(orgId: string): string {
    BaseUrl + "/organizations/" + orgId + "/actionBatches"
  }

  /** {base}/organizations/{org_id}/actionBatches/{batch_id} */
  function BatchUrl(orgId: string, batchId: string): (url: string)
    ensures |url| == |OrgBatchesUrl(orgId)| + 1 + |batchId|
    ensures url[..|OrgBatchesUrl(orgId)|] == OrgBatchesUrl(orgId)
    ensures url[|OrgBatchesUrl(orgId)|] == '/'
    ensures url[|OrgBatchesUrl(orgId)| + 1..] == batchId
  {
    OrgBatchesUrl(orgId) + "/" + batchId
  }

  /** create_action_batch: POST of exactly confirmed, synchronous and actions,
      which default to false, false and None. */
  function CreateActionBatch<A>(orgId: string, confirmed: bool := false, synchronous: bool := false,
                                actions: Option<seq<A>> := None): (r: Request<A>)
    ensures r.verb == Post && r.url == OrgBatchesUrl(orgId)
    ensures r.payload.NewBatch? && r.payload.confirmed == confirmed
    ensures r.payload.synchronous == synchronous && r.payload.actions == actions
  {
    Request(Post, OrgBatchesUrl(orgId), NewBatch(confirmed, synchronous, actions))
  }

  /** get_org_action_batches: a GET of the collection every single-batch URL
      extends. */
  function GetOrgActionBatches<A>(orgId: string): (r: Request<A>)
    ensures r.verb == Get && r.payload == NoPayload
    ensures r.url == OrgBatchesUrl(orgId)
    ensures forall batchId :: |r.url| < |BatchUrl(orgId, batchId)| && BatchUrl(orgId, batchId)[..|r.url|] == r.url
  {
    Request(Get, OrgBatchesUrl(orgId), NoPayload)
  }

  /** get_action_batch */
  function GetActionBatch<A>(orgId: string, batchId: string): (r: Request<A>)
    ensures r.verb == Get && r.payload == NoPayload
    ensures r.url == OrgBatchesUrl(orgId) + "/" + batchId
  {
    Request(Get, BatchUrl(orgId, batchId), NoPayload)
  }

  /** delete_action_batch */
  function DeleteActionBatch<A>(orgId: string, batchId: string): (r: Request<A>)
    ensures r.verb == Delete && r.payload == NoPayload
    ensures r.url == OrgBatchesUrl(orgId) + "/" + batchId
  {
    Request(Delete, BatchUrl(orgId, batchId), NoPayload)
  }

  /** update_action_batch as written: it builds the URL under the name put_url
      but sends it with requests.post. */
  function UpdateActionBatchAsWritten<A>(orgId: string, batchId: string, confirmed: bool := false,
                                         synchronous: bool := false): (r: Request<A>)
    ensures r.verb == Post && r.payload == BatchFlags(confirmed, synchronous)
    ensures r.url == OrgBatchesUrl(orgId) + "/" + batchId
  {
    Request(Post, BatchUrl(orgId, batchId), BatchFlags(confirmed, synchronous))
  }

  /** update_action_batch as intended: a PUT of the two flags to the batch. */
  function UpdateActionBatch<A>(orgId: string, batchId: string, confirmed: bool := false,
                                synchronous: bool := false): Request<A> {
    Request(Put, BatchUrl(orgId, batchId), BatchFlags(confirmed, synchronous))
  }

  /** The as-written update is not a PUT, for every batch. */
  lemma UpdateAsWrittenIsNotPut<A>(orgId: string, batchId: string, confirmed: bool, synchronous: bool)
    ensures UpdateActionBatchAsWritten<A>(orgId, batchId, confirmed, synchronous).verb != Put
    ensures UpdateActionBatchAsWritten<A>(orgId, batchId, confirmed, synchronous).verb
         == CreateActionBatch<A>(orgId).verb
  {
  }

  /** The three single-batch operations address the same URL, one level below
      the organisation's batch collection; the update carries the two flags and
      no actions, and a bare create sends false, false and no actions. */
  lemma SingleBatchRequests<A>(orgId: string, batchId: string, confirmed: bool, synchronous: bool)
    ensures GetActionBatch<A>(orgId, batchId).url == DeleteActionBatch<A>(orgId, batchId).url
         == UpdateActionBatch<A>(orgId, batchId, confirmed, synchronous).url
         == OrgBatchesUrl(orgId) + "/" + batchId
    ensures UpdateActionBatch<A>(orgId, batchId, confirmed, synchronous).verb == Put
    ensures UpdateActionBatch<A>(orgId, batchId, confirmed, synchronous).payload
         == BatchFlags(confirmed, synchronous)
    ensures CreateActionBatch<A>(orgId).payload == NewBatch(false, false, None)
  {
  }

  /** What one get_action_batch returned: whether the response was ok and, if
      it was, the batch's status flags (ignored when the fetch failed). */
  datatype Fetch = Fetch(ok: bool, completed: bool, failed: bool)

  /** check_status: 1 for a completed batch, -1 for a failed one (failure wins
      over completion), 0 for a pending batch or a failed fetch. */
  function CheckStatus(f: Fetch): (status: int)
    ensures status == 1 <==> f.ok && f.completed && !f.failed
    ensures status == -1 <==> f.ok && f.failed
    ensures status == 0 <==> !f.ok || (!f.completed && !f.failed)
  {
    if f.ok && f.completed && !f.failed then 1
    else if f.ok && f.failed then -1
    else 0
  }

  /** The outcome of polling through the given observations: the verdict of
      the first one that is not pending, or None while all are pending. */
  function PollOutcome(observations: seq<Fetch>): (r: Option<bool>)
    ensures r.None? <==> forall j :: 0 <= j < |observations| ==> CheckStatus(observations[j]) == 0
    decreases |observations|
  {
    if |observations| == 0 then None
    else if CheckStatus(observations[0]) == 1 then Some(true)
    else if CheckStatus(observations[0]) == -1 then Some(false)
    else PollOutcome(observations[1..])
  }

  /** PollOutcome decides at the first terminal observation: it is Some exactly
      when some observation is terminal, and then it is the verdict of the
      first one. */
  lemma {:induction false} PollOutcomeIsFirstTerminal(observations: seq<Fetch>, k: nat)
    requires k < |observations| && CheckStatus(observations[k]) != 0
    requires forall j :: 0 <= j < k ==> CheckStatus(observations[j]) == 0
    ensures PollOutcome(observations) == Some(CheckStatus(observations[k]) == 1)
    decreases k
  {
    if k > 0 {
      PollOutcomeIsFirstTerminal(observations[1..], k - 1);
    }
  }

  /** Observations after the first terminal one never change the outcome. */
  lemma {:induction false} PollOutcomeStable(observations: seq<Fetch>, later: seq<Fetch>)
    requires PollOutcome(observations).Some?
    ensures PollOutcome(observations + later) == PollOutcome(observations)
    decreases |observations|
  {
    assert (observations + later)[0] == observations[0];
    if CheckStatus(observations[0]) == 0 {
      assert (observations + later)[1..] == observations[1..] + later;
      PollOutcomeStable(observations[1..], later);
    }
  }

  /** check_until_completed, run against the observations its successive
      get_action_batch calls return. done is Some(true) when the batch
      completed and Some(false) when it failed; None means every observation
      was pending, where the source keeps polling forever. polls is the number
      of fetches made, counter the source's countdown counter, which only
      advances on a pending poll when print_message is set. */
  method CheckUntilCompleted(observations: seq<Fetch>, printMessage: bool)
    returns (done: Option<bool>, polls: nat, counter: nat)
    ensures done == PollOutcome(observations)
    ensures polls <= |observations|
    ensures forall j :: 0 <= j < polls && (done.Some? ==> j < polls - 1) ==> CheckStatus(observations[j]) == 0
    ensures done.Some? ==> 0 < polls && CheckStatus(observations[polls - 1]) != 0
                           && done.value == (CheckStatus(observations[polls - 1]) == 1)
    ensures done.None? ==> polls == |observations|
    ensures counter == if !printMessage then 0 else if done.Some? then polls - 1 else polls
  {
    counter := 0;
    polls := 0;
    while polls < |observations|
      invariant polls <= |observations|
      invariant forall j :: 0 <= j < polls ==> CheckStatus(observations[j]) == 0
      invariant PollOutcome(observations) == PollOutcome(observations[polls..])
      invariant counter == if printMessage then polls else 0
    {
      var status := CheckStatus(observations[polls]);
      polls := polls + 1;
      if status == 1 {
        done := Some(true);
        return;
      } else if status == -1 {
        done := Some(false);
        return;
      } else if printMessage {
        counter := counter + 1;
      }
      assert observations[polls - 1..][1..] == observations[polls..];
    }
    done := None;
  }
}
