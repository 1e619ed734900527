/**
 * What the two per-source collectors share: the store call that a fault is
 * injected into, the failure log entry of the message handler, and how a
 * handler failure is logged.
 */
module Collectors {
  import opened Wrappers
  import opened JsonValues
  import opened Nats

  /** The store calls of `handleEvent`, in the order they are made. */
  datatype Step = LocationStep | UserStep | EngagementStep | EventStep

  /** The fields of the handler's "Failed to process event" log entry. */
  datatype FailureLog = FailureLog(eventId: Option<Json>, correlationId: Option<string>)

  /** The store fault injected while handling a delivery, looked up by its stream position. */
  function FaultOf(faults: map<nat, Step>, d: Delivery): (r: Option<Step>)
    ensures r.Some? <==> d.streamSeq in faults
    ensures r.Some? ==> r.value == faults[d.streamSeq]
  {
    if d.streamSeq in faults then Some(faults[d.streamSeq]) else None
  }

  /**
   * The log entries a failed handler leaves: one carrying `event.eventId`, except
   * for a `null` payload, where reading `eventId` inside the catch block throws
   * before the entry is written.
   */
  function FailureEntries(data: Json, correlationId: Option<string>): (r: seq<FailureLog>)
    ensures |r| <= 1
    ensures r == [] <==> data == Null
    ensures r != [] ==> (r[0].correlationId == correlationId &&
      (r[0].eventId.Some? <==> data.Obj? && "eventId" in data.fields))
  {
    if data == Null then [] else [FailureLog(Field(data, "eventId"), correlationId)]
  }

  /** What a collector's message handler keeps: its store, its metrics, the acks it sent and its log. */
  datatype Snapshot<D> = Snapshot(
    db: D, accepted: nat, processed: nat, failed: nat, acked: seq<nat>, errors: seq<FailureLog>)

  /**
   * The handler's bookkeeping once `handleEvent` has left the store `db`: every
   * message is counted accepted, then either processed and acked or failed and logged.
   */
  function Settle<D>(s: Snapshot<D>, db: D, ok: bool, item: BatchItem): (t: Snapshot<D>)
    ensures t.db == db && t.accepted == s.accepted + 1
    ensures t.processed + t.failed == s.processed + s.failed + 1
    ensures ok ==> t.processed == s.processed + 1 && t.errors == s.errors &&
                   t.acked == s.acked + [item.msg.streamSeq]
    ensures !ok ==> t.failed == s.failed + 1 && t.acked == s.acked &&
                    t.errors == s.errors + FailureEntries(item.data, item.correlationId)
  {
    if ok then
      s.(db := db, accepted := s.accepted + 1, processed := s.processed + 1,
         acked := s.acked + [item.msg.streamSeq])
    else
      s.(db := db, accepted := s.accepted + 1, failed := s.failed + 1,
         errors := s.errors + FailureEntries(item.data, item.correlationId))
  }

  /** The keys among the first `n` whose flag is set, in order. */
  function Kept(keys: seq<nat>, flags: seq<bool>, n: nat): (r: seq<nat>)
    requires n <= |keys| && n <= |flags|
    ensures |r| <= n
  {
    if n == 0 then [] else Kept(keys, flags, n - 1) + (if flags[n - 1] then [keys[n - 1]] else [])
  }

  /** Every kept key is one of the first `n` keys, and its flag is set. */
  lemma {:induction false} KeptFrom(keys: seq<nat>, flags: seq<bool>, n: nat)
    requires n <= |keys| && n <= |flags|
    ensures forall x :: x in Kept(keys, flags, n) ==> exists i :: 0 <= i < n && flags[i] && x == keys[i]
  {
    if n > 0 {
      KeptFrom(keys, flags, n - 1);
    }
  }

  /** With distinct keys, a key is kept exactly when its flag is set. */
  lemma {:induction false} KeptMembers(keys: seq<nat>, flags: seq<bool>, n: nat)
    requires n <= |keys| && n <= |flags|
    requires forall i, j :: 0 <= i < j < |keys| ==> keys[i] != keys[j]
    ensures forall j :: 0 <= j < n ==> (keys[j] in Kept(keys, flags, n) <==> flags[j])
  {
    if n > 0 {
      KeptMembers(keys, flags, n - 1);
      KeptFrom(keys, flags, n - 1);
      var last := if flags[n - 1] then [keys[n - 1]] else [];
      assert Kept(keys, flags, n) == Kept(keys, flags, n - 1) + last;
      forall j | 0 <= j < n
        ensures keys[j] in Kept(keys, flags, n) <==> flags[j]
      {
        if j == n - 1 {
          assert keys[j] !in Kept(keys, flags, n - 1);
        } else {
          assert keys[j] !in last;
        }
      }
    }
  }
}
