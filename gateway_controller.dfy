/**
 * The webhook entry point.  A body that is not an array is rejected with 400.
 * Up to 100 events, every element is validated against the event schema;
 * above 100, only the first and the last are (a deliberate approximation).
 * The first failing element rejects the whole request with 400 before anything
 * is published; otherwise the body's own elements are handed, unchanged, to
 * the publishing service together with the header correlation id.
 */
module GatewayController {
  import opened Wrappers
  import opened JsonValues
  import opened EventsSchema
  import opened Nats
  import opened Gateway

  const FullValidationLimit: nat := 100

  datatype Rejection = NotAnArray | InvalidEvent(index: nat)

  datatype Response =
    | Ok(received: nat)              // 200 `{status: 'ok', received}`
    | BadRequest(reason: Rejection)  // 400 with the schema issues of the offending element
    | InternalError                  // 500: `publishEvents` threw

  /** The positions the controller validates, in the order it validates them. */
  function CheckedIndices(n: nat): (r: seq<nat>)
    ensures n > FullValidationLimit ==> r == [0, n - 1]
    ensures n <= FullValidationLimit ==> |r| == n && forall k :: 0 <= k < n ==> r[k] == k
    ensures forall k :: 0 <= k < |r| ==> r[k] < n
  {
    if n > FullValidationLimit then [0, n - 1] else seq(n, k => k)
  }

  /**
   * The position, in `indices`, of the first element `accepts` rejects.  The
   * controller passes the event schema; the search does not depend on it.
   */
  function FirstInvalid(events: seq<Json>, indices: seq<nat>, accepts: Json -> bool): (r: Option<nat>)
    requires forall k :: 0 <= k < |indices| ==> indices[k] < |events|
    ensures r.None? <==> forall k :: 0 <= k < |indices| ==> accepts(events[indices[k]])
    ensures r.Some? ==> r.value < |indices| && !accepts(events[indices[r.value]])
    ensures r.Some? ==> forall k :: 0 <= k < r.value ==> accepts(events[indices[k]])
  {
    if indices == [] then None
    else if !accepts(events[indices[0]]) then Some(0)
    else
      match FirstInvalid(events, indices[1..], accepts)
      case Some(p) => Some(p + 1)
      case None => None
  }

  /** The validation gate of `handleWebhook`: the events to publish, or why the request is refused. */
  function Validate(body: Json): (r: Result<seq<Json>, Rejection>)
    ensures !body.Arr? ==> r == Failure(NotAnArray)
    ensures r.Success? ==> body.Arr? && r.value == body.items
    ensures r.Failure? && r.error.InvalidEvent? ==>
      body.Arr? && r.error.index < |body.items| && !ValidEvent(body.items[r.error.index])
  {
    match body
    case Arr(events) =>
      var indices := CheckedIndices(|events|);
      (match FirstInvalid(events, indices, ValidEvent)
       case Some(p) => Failure(InvalidEvent(indices[p]))
       case None => Success(events))
    case _ => Failure(NotAnArray)
  }

  /** Up to 100 events, the request is accepted iff every element is a valid event. */
  lemma SmallBodyFullyValidated(events: seq<Json>)
    requires |events| <= FullValidationLimit
    ensures Validate(Arr(events)).Success? <==> forall i :: 0 <= i < |events| ==> ValidEvent(events[i])
  {
    var indices := CheckedIndices(|events|);
    if Validate(Arr(events)).Success? {
      forall i | 0 <= i < |events| ensures ValidEvent(events[i]) {
        assert indices[i] == i;
      }
    }
  }

  /** Above 100 events, the request is accepted iff its first and last elements are valid. */
  lemma LargeBodyEndsValidated(events: seq<Json>)
    requires |events| > FullValidationLimit
    ensures Validate(Arr(events)).Success? <==>
      ValidEvent(events[0]) && ValidEvent(events[|events| - 1])
  {
    var n := |events|;
    assert CheckedIndices(n) == [0, n - 1];
    FirstOfTwo(events, 0, n - 1, ValidEvent);
  }

  /** Checking two positions finds no failure iff both elements are accepted. */
  lemma FirstOfTwo(events: seq<Json>, i: nat, j: nat, accepts: Json -> bool)
    requires i < |events| && j < |events|
    ensures FirstInvalid(events, [i, j], accepts).None? <==> accepts(events[i]) && accepts(events[j])
  {
    assert [i, j][1..] == [j];
    assert [i, j][1..][1..] == [];
  }

  /**
   * Above 100 events, the middle elements are never looked at: two bodies of the
   * same length that agree on their first and last elements get the same verdict.
   */
  lemma LargeBodyMiddleUnchecked(a: seq<Json>, b: seq<Json>)
    requires |a| == |b| > FullValidationLimit
    requires a[0] == b[0] && a[|a| - 1] == b[|b| - 1]
    ensures Validate(Arr(a)).Success? <==> Validate(Arr(b)).Success?
    ensures Validate(Arr(a)).Failure? ==> Validate(Arr(a)) == Validate(Arr(b))
  {
    LargeBodyEndsValidated(a);
    LargeBodyEndsValidated(b);
  }

  /**
   * The rejection names the first checked element that fails, in checking order:
   * every element checked before it is valid.
   */
  lemma RejectionIsFirstFailure(events: seq<Json>)
    requires Validate(Arr(events)).Failure?
    ensures var idx := Validate(Arr(events)).error.index;
      var indices := CheckedIndices(|events|);
      && idx in indices && !ValidEvent(events[idx])
      && forall k :: 0 <= k < |indices| && indices[k] < idx ==> ValidEvent(events[indices[k]])
  {
    var indices := CheckedIndices(|events|);
    var p := FirstInvalid(events, indices, ValidEvent).value;
    forall k | 0 <= k < |indices| && indices[k] < indices[p]
      ensures ValidEvent(events[indices[k]])
    {
      // the checked indices are strictly increasing, so an index below indices[p] sits before p
      if |events| > FullValidationLimit {
        assert p == 1 ==> k == 0;
        assert p == 0 ==> false;
      } else {
        assert indices[k] == k && indices[p] == p;
      }
    }
  }

  /** A 150-event body whose last element is invalid is refused, whatever its middle holds. */
  lemma LargeBodyInvalidLastRejected(events: seq<Json>)
    requires |events| == 150 && !ValidEvent(events[149])
    ensures Validate(Arr(events)).Failure?
  {
    LargeBodyEndsValidated(events);
  }

  /**
   * A fully validated request holds only facebook and tiktok events, so none is
   * dropped as an unknown source and none throws: each event is published or
   * counted failed.
   */
  lemma SmallAcceptedBodyAccounted(events: seq<Json>, cid: string, ready: bool, faults: set<nat>)
    requires |events| <= FullValidationLimit && Validate(Arr(events)).Success?
    ensures forall i :: 0 <= i < |events| ==> RouteOf(events[i]).ToSubject?
    ensures Attempted(events, 0) == |events|
    ensures var t := RunRange(events, |events|, cid, ready, faults);
      !t.crashed && t.processed + t.failed == |events|
  {
    SmallBodyFullyValidated(events);
    forall i | 0 <= i < |events| ensures RouteOf(events[i]).ToSubject? {
      ValidEventBySource(events[i]);
    }
    assert Null !in events by {
      forall i | 0 <= i < |events| ensures events[i] != Null {
        assert RouteOf(events[i]).ToSubject?;
      }
    }
    assert events[0..] == events;
    AttemptedAll(events, 0);
    assert events[..|events|] == events;
    RunRangeAccounts(events, |events|, cid, ready, faults);
  }

  class GatewayController {
    const service: GatewayService

    constructor (service: GatewayService)
      ensures this.service == service
    {
      this.service := service;
    }

    /**
     * `handleWebhook`.  A refused request publishes nothing and touches no counter;
     * an accepted one hands the body's own elements and the header correlation id
     * to `publishEvents` and answers with the number of events received.
     */
    method HandleWebhook(body: Json, correlationId: Option<string>, freshId: string, faults: set<nat>)
      returns (response: Response)
      requires freshId != ""
      modifies service`accepted, service`processed, service`failed, service`errors, service.nats`log
      ensures Validate(body).Failure? ==>
        && response == BadRequest(Validate(body).error)
        && service.nats.log == old(service.nats.log)
        && service.accepted == old(service.accepted)
        && service.processed == old(service.processed) && service.failed == old(service.failed)
        && service.errors == old(service.errors)
      ensures Validate(body).Success? ==>
        var events := body.items;
        var t := RunRange(events, Attempted(events, 0),
                          EffectiveCorrelationId(correlationId, freshId),
                          service.nats.js.Some?, faults);
        && response == (if t.crashed then InternalError else Ok(|events|))
        && service.nats.log == old(service.nats.log) + t.messages
        && service.accepted == old(service.accepted) + |events|
        && service.processed == old(service.processed) + t.processed
        && service.failed == old(service.failed) + t.failed
        && service.errors == old(service.errors) + t.errors
    {
      match Validate(body) {
        case Failure(reason) =>
          return BadRequest(reason);
        case Success(events) =>
          var completed, _, _ := service.PublishEvents(events, correlationId, freshId, faults);
          response := if completed then Ok(|events|) else InternalError;
      }
    }
  }
}
