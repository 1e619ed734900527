/**
 * The log adapter: a client of a durable log (NATS JetStream) that owns the
 * connection handles, creates streams and durable consumers when they are
 * missing, publishes JSON-encoded messages with an optional correlation
 * header and runs the pull-batch consumption loop.
 *
 * The broker behind the handles is modelled by three fields of the adapter:
 * the registered streams, the registered durable consumers and the append-only
 * log of published messages.  Network and broker failures are parameters.
 */
module Nats {
  import opened Wrappers
  import opened JsonValues

  // ---------------------------------------------------------------------------
  // Messages and the JSON codec

  /** The bytes of a message: the JSON encoding of a value, or bytes that are not JSON. */
  datatype Payload = Encoded(value: Json) | Malformed(raw: string)

  function Encode(v: Json): Payload {
    Encoded(v)
  }

  /** Decoding fails exactly on bytes that are not a JSON encoding; it inverts Encode. */
  function Decode(p: Payload): (r: Option<Json>)
    ensures r.Some? <==> p.Encoded?
    ensures r.Some? ==> Encode(r.value) == p
  {
    match p
    case Encoded(v) => Some(v)
    case Malformed(_) => None
  }

  const CorrelationHeader: string := "x-correlation-id"

  datatype Message = Message(subject: string, data: Payload, headers: map<string, string>)

  /** A message as a consumer receives it, with its position in the stream. */
  datatype Delivery = Delivery(streamSeq: nat, message: Message)

  /** The headers `publish` attaches: the correlation header iff a (truthy) id is given. */
  function PublishHeaders(correlationId: Option<string>): (h: map<string, string>)
    ensures CorrelationHeader in h <==> Truthy(correlationId)
    ensures CorrelationHeader in h ==> h[CorrelationHeader] == correlationId.value
    ensures h.Keys <= {CorrelationHeader}
  {
    if Truthy(correlationId) then map[CorrelationHeader := correlationId.value] else map[]
  }

  /** `msg.headers?.get("x-correlation-id")`. */
  function CorrelationIdOf(m: Message): (r: Option<string>)
    ensures r.Some? <==> CorrelationHeader in m.headers
  {
    if CorrelationHeader in m.headers then Some(m.headers[CorrelationHeader]) else None
  }

  // ---------------------------------------------------------------------------
  // Streams and consumers

  datatype RetentionPolicy = Limits | Interest | WorkQueue
  datatype StorageType = FileStorage | MemoryStorage
  datatype DiscardPolicy = DiscardOld | DiscardNew

  datatype StreamConfig = StreamConfig(
    name: string, subjects: seq<string>, retention: RetentionPolicy,
    maxMsgs: int, maxBytes: int, storage: StorageType, discard: DiscardPolicy)

  /** The argument of `ensureStream`: name and subjects, the rest optional. */
  datatype StreamOptions = StreamOptions(
    name: string, subjects: seq<string>, retention: Option<RetentionPolicy>,
    maxMsgs: Option<int>, maxBytes: Option<int>, storage: Option<StorageType>,
    discard: Option<DiscardPolicy>)

  const DefaultMaxMsgs: int := 1_000_000
  const DefaultMaxBytes: int := 1_000_000_000

  /** The configuration `ensureStream` creates: every option left out takes its default. */
  function StreamConfigOf(o: StreamOptions): (c: StreamConfig)
    ensures c.name == o.name && c.subjects == o.subjects
    ensures c.retention == o.retention.GetOr(Limits)
    ensures c.maxMsgs == o.maxMsgs.GetOr(DefaultMaxMsgs)
    ensures c.maxBytes == o.maxBytes.GetOr(DefaultMaxBytes)
    ensures c.storage == o.storage.GetOr(FileStorage)
    ensures c.discard == o.discard.GetOr(DiscardOld)
  {
    StreamConfig(o.name, o.subjects, o.retention.GetOr(Limits),
                 o.maxMsgs.GetOr(DefaultMaxMsgs), o.maxBytes.GetOr(DefaultMaxBytes),
                 o.storage.GetOr(FileStorage), o.discard.GetOr(DiscardOld))
  }

  datatype AckPolicy = AckExplicit | AckNone | AckAll

  datatype ConsumerConfig = ConsumerConfig(
    durableName: string, ackPolicy: AckPolicy, filterSubject: string)

  // ---------------------------------------------------------------------------
  // Connection handles

  const DefaultClientName: string := "default-nats-client"

  datatype Connection = Connection(servers: seq<string>, name: string)
  datatype JetStreamClient = JetStreamClient(connection: Connection)
  datatype JetStreamManager = JetStreamManager(connection: Connection)

  /** Where `connect` can fail: opening the connection, or obtaining the manager. */
  datatype ConnectFault = NoFault | ConnectRefused | ManagerUnavailable

  // ---------------------------------------------------------------------------
  // Pull-batch assembly

  const DefaultFetchExpires: nat := 5000

  datatype FetchRequest = FetchRequest(maxMessages: nat, expires: nat)

  /** `opts?.expires ?? 5000`. */
  function FetchExpires(expires: Option<nat>): (r: nat)
    ensures r == expires.GetOr(DefaultFetchExpires)
  {
    match expires
    case Some(e) => e
    case None => DefaultFetchExpires
  }

  datatype BatchItem = BatchItem(data: Json, msg: Delivery, correlationId: Option<string>)

  /** The batch item for one fetched message, or nothing when its payload does not decode. */
  function ItemOf(d: Delivery): Option<BatchItem> {
    match Decode(d.message.data)
    case Some(v) => Some(BatchItem(v, d, CorrelationIdOf(d.message)))
    case None => None
  }

  /** The fetched messages, in order, minus those that do not decode. */
  function DecodedBatch(fetched: seq<Delivery>): seq<BatchItem> {
    if fetched == [] then []
    else
      var last := fetched[|fetched| - 1];
      DecodedBatch(fetched[..|fetched| - 1]) +
        (match ItemOf(last) case Some(item) => [item] case None => [])
  }

  /** Fetching one more message extends the decoded batch by its item, when it decodes. */
  lemma DecodedBatchSnoc(fetched: seq<Delivery>, d: Delivery)
    ensures DecodedBatch(fetched + [d]) ==
      DecodedBatch(fetched) + (match ItemOf(d) case Some(item) => [item] case None => [])
  {
    assert (fetched + [d])[..|fetched|] == fetched;
  }

  /** Batch assembly distributes over concatenation of fetch results: it keeps the order. */
  lemma {:induction false} DecodedBatchAppend(a: seq<Delivery>, b: seq<Delivery>)
    ensures DecodedBatch(a + b) == DecodedBatch(a) + DecodedBatch(b)
    decreases |b|
  {
    if b == [] {
      assert a + b == a;
    } else {
      var b' := b[..|b| - 1];
      assert (a + b)[..|a + b| - 1] == a + b';
      DecodedBatchAppend(a, b');
    }
  }

  /**
   * Each item of a batch is the decoded payload of a distinct fetched message, in
   * fetch order, with that message's correlation header; the batch never holds
   * more items than were fetched.
   */
  lemma {:induction false} DecodedBatchItems(fetched: seq<Delivery>)
    ensures |DecodedBatch(fetched)| <= |fetched|
    ensures forall j :: 0 <= j < |DecodedBatch(fetched)| ==>
      DecodedBatch(fetched)[j].msg in fetched &&
      Decode(DecodedBatch(fetched)[j].msg.message.data) == Some(DecodedBatch(fetched)[j].data) &&
      DecodedBatch(fetched)[j].correlationId == CorrelationIdOf(DecodedBatch(fetched)[j].msg.message)
  {
    if fetched != [] {
      var init := fetched[..|fetched| - 1];
      DecodedBatchItems(init);
      assert forall d :: d in init ==> d in fetched;
    }
  }

  /** The batch is empty exactly when no fetched message decodes. */
  lemma {:induction false} DecodedBatchEmpty(fetched: seq<Delivery>)
    ensures DecodedBatch(fetched) == [] <==>
      forall j :: 0 <= j < |fetched| ==> !fetched[j].message.data.Encoded?
  {
    if fetched != [] {
      var init := fetched[..|fetched| - 1];
      DecodedBatchEmpty(init);
      assert forall j :: 0 <= j < |init| ==> init[j] == fetched[j];
    }
  }

  /** The batches a pull loop hands to its handler: the non-empty ones, in round order. */
  function HandledBatches(rounds: seq<seq<Delivery>>): seq<seq<BatchItem>> {
    if rounds == [] then []
    else
      var batch := DecodedBatch(rounds[|rounds| - 1]);
      HandledBatches(rounds[..|rounds| - 1]) + (if |batch| > 0 then [batch] else [])
  }

  /** Every batch handed to the handler is non-empty and bounded by the largest fetch. */
  lemma {:induction false} HandledBatchesBounded(rounds: seq<seq<Delivery>>, bound: nat)
    requires forall k :: 0 <= k < |rounds| ==> |rounds[k]| <= bound
    ensures |HandledBatches(rounds)| <= |rounds|
    ensures forall j :: 0 <= j < |HandledBatches(rounds)| ==>
      0 < |HandledBatches(rounds)[j]| <= bound
  {
    if rounds != [] {
      var init := rounds[..|rounds| - 1];
      HandledBatchesBounded(init, bound);
      DecodedBatchItems(rounds[|rounds| - 1]);
    }
  }

  function Repeat<T>(x: T, n: nat): (r: seq<T>)
    ensures |r| == n && forall j :: 0 <= j < n ==> r[j] == x
  {
    if n == 0 then [] else Repeat(x, n - 1) + [x]
  }

  // ---------------------------------------------------------------------------
  // The adapter

  class NatsService {
    var client: Option<Connection>
    var js: Option<JetStreamClient>
    var jsm: Option<JetStreamManager>
    var isShuttingDown: bool

    // the broker state reached through the handles
    var streams: map<string, StreamConfig>
    var consumers: map<(string, string), ConsumerConfig>
    var log: seq<Message>

    /** A fresh adapter, not yet connected, in front of a broker in the given state. */
    constructor (existingStreams: map<string, StreamConfig>,
                 existingConsumers: map<(string, string), ConsumerConfig>)
      ensures client.None? && js.None? && jsm.None? && !isShuttingDown
      ensures streams == existingStreams && consumers == existingConsumers && log == []
    {
      client, js, jsm := None, None, None;
      isShuttingDown := false;
      streams, consumers, log := existingStreams, existingConsumers, [];
    }

    /** The `client` getter: throws while the connection is unset. */
    function Client(): (r: Result<Connection, string>)
      reads this
      ensures r.Success? <==> client.Some?
      ensures r.Success? ==> r.value == client.value
      ensures r.Failure? ==> r.error == "NATS not connected"
    {
      match client
      case Some(c) => Success(c)
      case None => Failure("NATS not connected")
    }

    /** The `js` getter: throws while the JetStream client is unset. */
    function Js(): (r: Result<JetStreamClient, string>)
      reads this
      ensures r.Success? <==> js.Some?
      ensures r.Success? ==> r.value == js.value
      ensures r.Failure? ==> r.error == "JetStream not initialized"
    {
      match js
      case Some(c) => Success(c)
      case None => Failure("JetStream not initialized")
    }

    /** The `jsm` getter: throws while the manager is unset. */
    function Jsm(): (r: Result<JetStreamManager, string>)
      reads this
      ensures r.Success? <==> jsm.Some?
      ensures r.Success? ==> r.value == jsm.value
      ensures r.Failure? ==> r.error == "JetStreamManager not initialized"
    {
      match jsm
      case Some(m) => Success(m)
      case None => Failure("JetStreamManager not initialized")
    }

    /** Ready iff all three handles are set, that is iff no getter throws. */
    function IsReady(): (r: bool)
      reads this
      ensures r <==> Client().Success? && Js().Success? && Jsm().Success?
    {
      client.Some? && js.Some? && jsm.Some?
    }

    /**
     * Sets the connection, then the JetStream client, then the manager.  A refused
     * connection changes nothing; a manager that cannot be obtained leaves the
     * first two handles set and the manager as it was.
     */
    method Connect(servers: seq<string>, name: Option<string>, fault: ConnectFault)
      modifies this`client, this`js, this`jsm
      ensures fault == ConnectRefused ==>
        client == old(client) && js == old(js) && jsm == old(jsm)
      ensures fault != ConnectRefused ==>
        client == Some(Connection(servers, name.GetOr(DefaultClientName))) &&
        js == Some(JetStreamClient(client.value))
      ensures fault == ManagerUnavailable ==> jsm == old(jsm)
      ensures fault == NoFault ==> jsm == Some(JetStreamManager(client.value)) && IsReady()
    {
      if fault == ConnectRefused {
        return;
      }
      var c := Connection(servers, name.GetOr(DefaultClientName));
      client := Some(c);
      js := Some(JetStreamClient(c));
      if fault == ManagerUnavailable {
        return;
      }
      jsm := Some(JetStreamManager(c));
    }

    /** Raises the shutdown flag, but only when a connection exists (draining is I/O). */
    method OnModuleDestroy()
      modifies this`isShuttingDown
      ensures isShuttingDown == (old(isShuttingDown) || client.Some?)
    {
      if client.Some? {
        isShuttingDown := true;
      }
    }

    /**
     * Publishes the encoded value on `subject`, with the correlation header iff a
     * truthy correlation id is given.  Fails when the JetStream client is unset or
     * the broker rejects the message.
     */
    method Publish(subject: string, data: Json, correlationId: Option<string>, fault: bool)
      returns (ok: bool)
      modifies this`log
      ensures ok <==> Js().Success? && !fault
      ensures log == old(log) +
        (if ok then [Message(subject, Encode(data), PublishHeaders(correlationId))] else [])
    {
      var h := PublishHeaders(correlationId);
      if js.None? || fault {
        return false;
      }
      log := log + [Message(subject, Encode(data), h)];
      ok := true;
    }

    /**
     * Leaves an existing stream untouched; otherwise registers it with the given
     * options completed by the defaults.  `addFails` is the broker rejecting the
     * new stream.
     */
    method EnsureStream(options: StreamOptions, addFails: bool) returns (ok: bool)
      modifies this`streams
      ensures Jsm().Failure? ==> !ok && streams == old(streams)
      ensures Jsm().Success? && options.name in old(streams) ==> ok && streams == old(streams)
      ensures Jsm().Success? && options.name !in old(streams) ==>
        ok == !addFails &&
        streams == (if ok then old(streams)[options.name := StreamConfigOf(options)] else old(streams))
    {
      if jsm.None? {
        return false;
      }
      if options.name in streams {
        return true;
      }
      if addFails {
        return false;
      }
      streams := streams[options.name := StreamConfigOf(options)];
      ok := true;
    }

    /**
     * The consumer lookup shared by `subscribe` and `pullSubscribeBatch`: a durable
     * consumer is added, with explicit acknowledgement and the given filter
     * subject, only when the lookup misses.  Adding fails when the stream does not
     * exist or the broker rejects it (`addFails`).
     */
    method EnsureConsumer(stream: string, durable: string, subject: string, addFails: bool)
      returns (ok: bool)
      modifies this`consumers
      ensures Jsm().Failure? ==> !ok && consumers == old(consumers)
      ensures Jsm().Success? && (stream, durable) in old(consumers) ==>
        ok && consumers == old(consumers)
      ensures Jsm().Success? && (stream, durable) !in old(consumers) ==>
        ok == (!addFails && stream in streams) &&
        consumers == (if ok
                      then old(consumers)[(stream, durable) := ConsumerConfig(durable, AckExplicit, subject)]
                      else old(consumers))
      ensures ok ==> (stream, durable) in consumers
    {
      if jsm.None? {
        return false;
      }
      if (stream, durable) in consumers {
        return true;
      }
      if addFails || stream !in streams {
        return false;
      }
      consumers := consumers[(stream, durable) := ConsumerConfig(durable, AckExplicit, subject)];
      ok := true;
    }

    /**
     * The setup of the push subscription: ensure the durable consumer, then look it
     * up through the JetStream client.  Either step failing makes the call throw
     * (`ok` false).  The delivery loop that follows decodes each message in
     * arrival order, skips those that do not decode (`DecodedBatch`) and hands the
     * rest to the handler, swallowing whatever the handler throws; it is modelled
     * by the subscribers' `Consume` methods.
     */
    method Subscribe(stream: string, subject: string, durable: string, addFails: bool)
      returns (ok: bool)
      modifies this`consumers
      ensures ok <==> (Jsm().Success? && Js().Success? &&
        ((stream, durable) in old(consumers) || (!addFails && stream in streams)))
      ensures consumers == (if Jsm().Success? && (stream, durable) !in old(consumers) &&
                               !addFails && stream in streams
                            then old(consumers)[(stream, durable) := ConsumerConfig(durable, AckExplicit, subject)]
                            else old(consumers))
      ensures ok ==> (stream, durable) in consumers
    {
      ok := EnsureConsumer(stream, durable, subject, addFails);
      if js.None? {
        ok := false;
      }
    }

    /** The body of one pull round: decode each fetched message, dropping those that fail. */
    static method AssembleBatch(fetched: seq<Delivery>) returns (batch: seq<BatchItem>)
      ensures batch == DecodedBatch(fetched)
    {
      batch := [];
      var i := 0;
      while i < |fetched|
        invariant 0 <= i <= |fetched|
        invariant batch == DecodedBatch(fetched[..i])
      {
        assert fetched[..i + 1][..i] == fetched[..i];
        var d := fetched[i];
        match Decode(d.message.data) {
          case Some(v) =>
            batch := batch + [BatchItem(v, d, CorrelationIdOf(d.message))];
          case None =>
        }
        i := i + 1;
      }
      assert fetched[..|fetched|] == fetched;
    }

    /**
     * The pull loop.  `fetches` are the broker's answers to successive fetches
     * (never more than `batchSize` messages each); `destroyAfter` is the round
     * after which `onModuleDestroy` runs concurrently.  The loop runs while the
     * shutdown flag is down, hands each non-empty decoded batch to the handler
     * (`batches`), and ignores the handler's outcome.  It does not start when the
     * consumer cannot be ensured or the JetStream client is unset (`ok` false);
     * the consumer is added all the same in the second case.
     */
    method PullSubscribeBatch(stream: string, subject: string, durable: string, batchSize: nat,
                              expires: Option<nat>, addFails: bool,
                              fetches: seq<seq<Delivery>>, destroyAfter: Option<nat>)
      returns (ok: bool, requests: seq<FetchRequest>, batches: seq<seq<BatchItem>>)
      requires forall k :: 0 <= k < |fetches| ==> |fetches[k]| <= batchSize
      modifies this`consumers, this`isShuttingDown
      ensures ok <==> (Jsm().Success? && Js().Success? &&
        ((stream, durable) in old(consumers) || (!addFails && stream in streams)))
      ensures consumers == (if Jsm().Success? && (stream, durable) !in old(consumers) &&
                               !addFails && stream in streams
                            then old(consumers)[(stream, durable) := ConsumerConfig(durable, AckExplicit, subject)]
                            else old(consumers))
      ensures ok ==> (stream, durable) in consumers && js.Some?
      ensures !ok ==> requests == [] && batches == [] && isShuttingDown == old(isShuttingDown)
      ensures ok ==> (isShuttingDown <==>
        (old(isShuttingDown) || (destroyAfter.Some? && client.Some? && destroyAfter.value < |fetches|)))
      ensures ok ==>
        var rounds := if old(isShuttingDown) then 0
                      else if destroyAfter.Some? && client.Some? && destroyAfter.value < |fetches|
                      then destroyAfter.value + 1
                      else |fetches|;
        requests == Repeat(FetchRequest(batchSize, FetchExpires(expires)), rounds) &&
        batches == HandledBatches(fetches[..rounds])
      ensures forall j :: 0 <= j < |batches| ==> 0 < |batches[j]| <= batchSize
    {
      requests, batches := [], [];
      ok := EnsureConsumer(stream, durable, subject, addFails);
      if !ok || js.None? {
        ok := false;
        return;
      }
      var request := FetchRequest(batchSize, FetchExpires(expires));
      ghost var consumers0 := consumers;
      ghost var stopAt := if old(isShuttingDown) then 0
                          else if destroyAfter.Some? && client.Some? && destroyAfter.value < |fetches|
                          then destroyAfter.value + 1
                          else |fetches|;
      var round := 0;
      while !isShuttingDown && round < |fetches|
        invariant 0 <= round <= stopAt <= |fetches|
        invariant old(isShuttingDown) ==> round == 0
        invariant isShuttingDown <==>
          old(isShuttingDown) || (destroyAfter.Some? && client.Some? && destroyAfter.value < round)
        invariant requests == Repeat(request, round)
        invariant batches == HandledBatches(fetches[..round])
        invariant consumers == consumers0
        invariant (stream, durable) in consumers
      {
        var fetched := fetches[round];
        var batch := AssembleBatch(fetched);
        if |batch| > 0 {
          batches := batches + [batch];
        }
        requests := requests + [request];
        assert fetches[..round + 1][..round] == fetches[..round];
        round := round + 1;
        if destroyAfter == Some(round - 1) {
          OnModuleDestroy();
        }
      }
      assert round == stopAt;
      HandledBatchesBounded(fetches[..round], batchSize);
    }
  }
}
