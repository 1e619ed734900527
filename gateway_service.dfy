/**
 * The gateway's publishing service: assigns a correlation id, then walks the
 * accepted events in consecutive slices of 1000, routes each one by its
 * `source` to `events.facebook` or `events.tiktok`, publishes it through the
 * log adapter and keeps the accepted / processed / failed tallies.
 *
 * Reading `source` off a `null` element throws a TypeError inside the
 * per-event callback; the other callbacks of that slice still run, but the
 * slice's `Promise.all` rejects, so the later slices are never started and
 * `publishEvents` itself throws.
 */
module Gateway {
  import opened Wrappers
  import opened JsonValues
  import opened Nats

  const BatchSize: nat := 1000
  const FacebookSubject: string := "events.facebook"
  const TiktokSubject: string := "events.tiktok"
  const EventsStream: string := "EVENTS"
  const EventsSubjects: seq<string> := ["events.*"]
  const StreamInitError: string := "GATEWAY Can not ensure EVENTS stream"

  /** The options `onModuleInit` passes to `ensureStream`. */
  function EventsStreamOptions(): (o: StreamOptions)
    ensures o.name == EventsStream && o.subjects == EventsSubjects
    ensures o.retention.None? && o.maxMsgs.None? && o.maxBytes.None?
    ensures o.storage.None? && o.discard.None?
  {
    StreamOptions(EventsStream, EventsSubjects, None, None, None, None, None)
  }

  /** The given correlation id when truthy, else the freshly generated one. */
  function EffectiveCorrelationId(correlationId: Option<string>, freshId: string): (r: string)
    requires freshId != ""
    ensures r != ""
    ensures Truthy(correlationId) ==> r == correlationId.value
    ensures !Truthy(correlationId) ==> r == freshId
  {
    if Truthy(correlationId) then correlationId.value else freshId
  }

  /** Where one event goes, decided by `event.source` alone. */
  datatype Route = ToSubject(subject: string) | UnknownSource | SourceThrows

  function RouteOf(e: Json): (r: Route)
    ensures r == SourceThrows <==> e == Null
    ensures r == ToSubject(FacebookSubject) <==> Field(e, "source") == Some(Str("facebook"))
    ensures r == ToSubject(TiktokSubject) <==> Field(e, "source") == Some(Str("tiktok"))
    ensures r.ToSubject? ==> r.subject in {FacebookSubject, TiktokSubject}
  {
    if e.Null? then SourceThrows
    else if Field(e, "source") == Some(Str("facebook")) then ToSubject(FacebookSubject)
    else if Field(e, "source") == Some(Str("tiktok")) then ToSubject(TiktokSubject)
    else UnknownSource
  }

  /** The log entry for a failed publish: the event's id and the correlation id. */
  datatype PublishError = PublishError(eventId: Option<Json>, correlationId: string)

  /** What `publishEvents` has done after some prefix of the events. */
  datatype Tally = Tally(
    messages: seq<Message>, processed: nat, failed: nat,
    errors: seq<PublishError>, crashed: bool)

  /**
   * The effect of the callback for the event at `index`: a TypeError, an
   * unknown source counted failed, or a publish that succeeds unless the
   * JetStream client is unset (`ready` false) or the broker fails it.
   */
  function StepTally(t: Tally, e: Json, index: nat, cid: string, ready: bool, faults: set<nat>): Tally {
    match RouteOf(e)
    case SourceThrows => t.(crashed := true)
    case UnknownSource => t.(failed := t.failed + 1)
    case ToSubject(subject) =>
      if ready && index !in faults then
        t.(messages := t.messages + [Message(subject, Encode(e), PublishHeaders(Some(cid)))],
           processed := t.processed + 1)
      else
        t.(failed := t.failed + 1, errors := t.errors + [PublishError(Field(e, "eventId"), cid)])
  }

  /** The tally after the callbacks of events `0 .. hi-1`, in order. */
  function RunRange(events: seq<Json>, hi: nat, cid: string, ready: bool, faults: set<nat>): (t: Tally)
    requires hi <= |events|
    ensures t.crashed <==> Null in events[..hi]
  {
    if hi == 0 then Tally([], 0, 0, [], false)
    else
      assert events[..hi] == events[..hi - 1] + [events[hi - 1]];
      StepTally(RunRange(events, hi - 1, cid, ready, faults), events[hi - 1], hi - 1, cid, ready, faults)
  }

  function ChunkEnd(n: nat, i: nat): nat {
    if i + BatchSize < n then i + BatchSize else n
  }

  /**
   * How many events get their callback run, walking slices from `i`: all of
   * them, unless a slice holds a `null`, in which case up to that slice's end.
   */
  function Attempted(events: seq<Json>, i: nat): (m: nat)
    requires i <= |events|
    ensures i <= m <= |events|
    decreases |events| - i
  {
    if i == |events| then |events|
    else
      var e := ChunkEnd(|events|, i);
      if Null in events[i..e] then e else Attempted(events, e)
  }

  /** Without a `null`, every event is attempted. */
  lemma {:induction false} AttemptedAll(events: seq<Json>, i: nat)
    requires i <= |events| && Null !in events[i..]
    ensures Attempted(events, i) == |events|
    decreases |events| - i
  {
    if i < |events| {
      var e := ChunkEnd(|events|, i);
      assert events[i..e] == events[i..][..e - i];
      assert events[e..] == events[i..][e - i..];
      AttemptedAll(events, e);
    }
  }

  /**
   * With the first `null` at `k`, the attempted events are exactly those of the
   * slices up to and including the one that holds `k`.
   */
  lemma {:induction false} AttemptedUpToNullSlice(events: seq<Json>, i: nat, k: nat)
    requires i <= k < |events| && i % BatchSize == 0
    requires events[k] == Null && Null !in events[i..k]
    ensures Attempted(events, i) == ChunkEnd(|events|, k / BatchSize * BatchSize)
    decreases |events| - i
  {
    var e := ChunkEnd(|events|, i);
    if k < e {
      assert events[k] == events[i..e][k - i];
      assert k / BatchSize == i / BatchSize;
    } else {
      assert events[i..e] == events[i..k][..e - i];
      assert e == i + BatchSize;
      assert events[e..k] == events[i..k][e - i..];
      AttemptedUpToNullSlice(events, e, k);
    }
  }

  /** Without a `null`, every event ends up processed or failed, never both, never twice. */
  lemma {:induction false} RunRangeAccounts(events: seq<Json>, hi: nat, cid: string, ready: bool,
                                            faults: set<nat>)
    requires hi <= |events| && Null !in events[..hi]
    ensures RunRange(events, hi, cid, ready, faults).processed +
            RunRange(events, hi, cid, ready, faults).failed == hi
    ensures |RunRange(events, hi, cid, ready, faults).messages| ==
            RunRange(events, hi, cid, ready, faults).processed
  {
    if hi > 0 {
      assert events[..hi - 1] == events[..hi][..hi - 1];
      RunRangeAccounts(events, hi - 1, cid, ready, faults);
    }
  }

  /**
   * Every published message carries an event whose `source` selects its
   * subject, with the one correlation id of the call in its header: unknown
   * sources are never published.
   */
  lemma {:induction false} RunRangeMessages(events: seq<Json>, hi: nat, cid: string, ready: bool,
                                            faults: set<nat>)
    requires hi <= |events| && cid != ""
    ensures forall m :: m in RunRange(events, hi, cid, ready, faults).messages ==>
      m.data.Encoded? && RouteOf(m.data.value) == ToSubject(m.subject) &&
      m.data.value in events[..hi] &&
      m.headers == map[CorrelationHeader := cid]
  {
    if hi > 0 {
      RunRangeMessages(events, hi - 1, cid, ready, faults);
      assert forall v :: v in events[..hi - 1] ==> v in events[..hi];
      assert events[hi - 1] in events[..hi];
    }
  }

  /** Whether the publish of the event at `index` is attempted and fails (client unset or broker failure). */
  predicate PublishFails(e: Json, index: nat, ready: bool, faults: set<nat>) {
    RouteOf(e).ToSubject? && !(ready && index !in faults)
  }

  /** The number of events among `events[..hi]` whose publish is attempted and fails. */
  function FailedPublishes(events: seq<Json>, hi: nat, ready: bool, faults: set<nat>): nat
    requires hi <= |events|
  {
    if hi == 0 then 0
    else FailedPublishes(events, hi - 1, ready, faults) +
           (if PublishFails(events[hi - 1], hi - 1, ready, faults) then 1 else 0)
  }

  /**
   * A failed publish is isolated: every routable event whose own publish
   * succeeds is published, whatever happened to the others, and every failed
   * publish is logged once, under its own event's id.
   */
  lemma {:induction false} PublishFailureIsolated(events: seq<Json>, hi: nat, cid: string, ready: bool,
                                                  faults: set<nat>)
    requires hi <= |events|
    ensures var t := RunRange(events, hi, cid, ready, faults);
      forall j :: 0 <= j < hi && RouteOf(events[j]).ToSubject? && ready && j !in faults ==>
        Message(RouteOf(events[j]).subject, Encode(events[j]), PublishHeaders(Some(cid))) in t.messages
    ensures var t := RunRange(events, hi, cid, ready, faults);
      forall j :: 0 <= j < hi && PublishFails(events[j], j, ready, faults) ==>
        PublishError(Field(events[j], "eventId"), cid) in t.errors
    ensures |RunRange(events, hi, cid, ready, faults).errors| == FailedPublishes(events, hi, ready, faults)
  {
    if hi > 0 {
      PublishFailureIsolated(events, hi - 1, cid, ready, faults);
      var t0 := RunRange(events, hi - 1, cid, ready, faults);
      var t := RunRange(events, hi, cid, ready, faults);
      assert t == StepTally(t0, events[hi - 1], hi - 1, cid, ready, faults);
      assert t0.messages <= t.messages && t0.errors <= t.errors;
    }
  }

  class GatewayService {
    const nats: NatsService
    // metrics counters events_accepted_total, events_processed_total, events_failed_total
    var accepted: nat
    var processed: nat
    var failed: nat
    // structured error-log entries
    var errors: seq<PublishError>
    var initErrors: seq<string>

    constructor (nats: NatsService)
      ensures this.nats == nats
      ensures accepted == 0 && processed == 0 && failed == 0 && errors == [] && initErrors == []
    {
      this.nats := nats;
      accepted, processed, failed := 0, 0, 0;
      errors, initErrors := [], [];
    }

    /** Ensures the EVENTS stream over `events.*`; a failure is logged, not rethrown. */
    method OnModuleInit(addFails: bool)
      modifies nats`streams, this`initErrors
      ensures EventsStream in old(nats.streams) ==> nats.streams == old(nats.streams)
      ensures EventsStream !in nats.streams ==> nats.streams == old(nats.streams)
      ensures EventsStream !in old(nats.streams) && EventsStream in nats.streams ==>
        nats.streams == old(nats.streams)[EventsStream := StreamConfigOf(EventsStreamOptions())]
      ensures var ok := nats.Jsm().Success? && (EventsStream in old(nats.streams) || !addFails);
        && (ok ==> EventsStream in nats.streams)
        && initErrors == old(initErrors) + (if ok then [] else [StreamInitError])
    {
      var ok := nats.EnsureStream(EventsStreamOptions(), addFails);
      if !ok {
        initErrors := initErrors + [StreamInitError];
      }
    }

    /** The metrics and the log hold the effect of the tally `t` on top of the given start values. */
    ghost predicate Reflects(t: Tally, log0: seq<Message>, processed0: nat, failed0: nat,
                             errors0: seq<PublishError>)
      reads this, nats
    {
      && nats.log == log0 + t.messages
      && processed == processed0 + t.processed
      && failed == failed0 + t.failed
      && errors == errors0 + t.errors
    }

    /**
     * The per-event callback of a slice: route by `source`, then publish, counting
     * the event processed or failed.  `threw` is the TypeError of a `null` event.
     */
    method RouteAndPublish(event: Json, index: nat, cid: string, faults: set<nat>,
                           ghost t: Tally, ghost log0: seq<Message>, ghost processed0: nat,
                           ghost failed0: nat, ghost errors0: seq<PublishError>)
      returns (threw: bool, published: bool)
      requires Reflects(t, log0, processed0, failed0, errors0)
      modifies this`processed, this`failed, this`errors, nats`log
      ensures var t' := StepTally(t, event, index, cid, nats.js.Some?, faults);
        && Reflects(t', log0, processed0, failed0, errors0)
        && (threw <==> event == Null) && t'.crashed == (t.crashed || threw)
        && t'.processed == t.processed + (if published then 1 else 0)
        && t'.failed == t.failed + (if threw || published then 0 else 1)
    {
      threw, published := false, false;
      match RouteOf(event) {
        case SourceThrows =>
          threw := true;
        case UnknownSource =>
          failed := failed + 1;
        case ToSubject(subject) =>
          published := nats.Publish(subject, event, Some(cid), index in faults);
          if published {
            processed := processed + 1;
          } else {
            failed := failed + 1;
            errors := errors + [PublishError(Field(event, "eventId"), cid)];
          }
      }
    }

    /**
     * One slice `events[lo..hi]` under `Promise.all`: every callback of the slice
     * runs (in this model, one after the other), even after one of them threw.
     */
    method PublishSlice(events: seq<Json>, lo: nat, hi: nat, cid: string, faults: set<nat>,
                        processedCount0: nat, failedCount0: nat,
                        ghost log0: seq<Message>, ghost processed0: nat,
                        ghost failed0: nat, ghost errors0: seq<PublishError>)
      returns (threw: bool, processedCount: nat, failedCount: nat)
      requires lo <= hi <= |events|
      requires var t := RunRange(events, lo, cid, nats.js.Some?, faults);
        && !t.crashed && processedCount0 == t.processed && failedCount0 == t.failed
        && Reflects(t, log0, processed0, failed0, errors0)
      modifies this`processed, this`failed, this`errors, nats`log
      ensures threw <==> Null in events[lo..hi]
      ensures var t := RunRange(events, hi, cid, nats.js.Some?, faults);
        && processedCount == t.processed && failedCount == t.failed
        && Reflects(t, log0, processed0, failed0, errors0)
    {
      ghost var ready := nats.js.Some?;
      threw, processedCount, failedCount := false, processedCount0, failedCount0;
      var j := lo;
      while j < hi
        invariant lo <= j <= hi
        invariant ready == nats.js.Some?
        invariant threw <==> Null in events[lo..j]
        invariant var t := RunRange(events, j, cid, ready, faults);
          && processedCount == t.processed && failedCount == t.failed
          && Reflects(t, log0, processed0, failed0, errors0)
      {
        assert events[lo..j + 1] == events[lo..j] + [events[j]];
        ghost var t := RunRange(events, j, cid, ready, faults);
        var eventThrew, published := RouteAndPublish(events[j], j, cid, faults,
                                                     t, log0, processed0, failed0, errors0);
        assert RunRange(events, j + 1, cid, ready, faults) == StepTally(t, events[j], j, cid, ready, faults);
        if eventThrew {
          threw := true;
        } else if published {
          processedCount := processedCount + 1;
        } else {
          failedCount := failedCount + 1;
        }
        j := j + 1;
      }
    }

    /**
     * `publishEvents`.  `freshId` is the value `randomUUID` would return and
     * `faults` the indices whose publish the broker fails.  `completed` is false
     * when the call throws (a `null` event).
     */
    method PublishEvents(events: seq<Json>, correlationId: Option<string>, freshId: string,
                         faults: set<nat>)
      returns (completed: bool, processedCount: nat, failedCount: nat)
      requires freshId != ""
      modifies this`accepted, this`processed, this`failed, this`errors, nats`log
      ensures var t := RunRange(events, Attempted(events, 0),
                                EffectiveCorrelationId(correlationId, freshId),
                                nats.js.Some?, faults);
        && nats.log == old(nats.log) + t.messages
        && completed == !t.crashed
        && processedCount == t.processed && failedCount == t.failed
        && accepted == old(accepted) + |events|
        && processed == old(processed) + t.processed
        && failed == old(failed) + t.failed
        && errors == old(errors) + t.errors
    {
      var cid := EffectiveCorrelationId(correlationId, freshId);
      accepted := accepted + |events|;
      ghost var ready := nats.js.Some?;
      ghost var log0, processed0, failed0, errors0 := nats.log, processed, failed, errors;
      processedCount, failedCount := 0, 0;
      completed := true;
      var i := 0;
      while i < |events|
        invariant 0 <= i <= |events|
        invariant Attempted(events, 0) == Attempted(events, i)
        invariant ready == nats.js.Some?
        invariant accepted == old(accepted) + |events|
        invariant var t := RunRange(events, i, cid, ready, faults);
          && !t.crashed && processedCount == t.processed && failedCount == t.failed
          && Reflects(t, log0, processed0, failed0, errors0)
      {
        var end := ChunkEnd(|events|, i);
        var sliceThrew;
        sliceThrew, processedCount, failedCount :=
          PublishSlice(events, i, end, cid, faults, processedCount, failedCount,
                       log0, processed0, failed0, errors0);
        if sliceThrew {
          assert Attempted(events, i) == end;
          completed := false;
          return;
        }
        assert Attempted(events, i) == Attempted(events, end);
        i := end;
      }
    }
  }
}
