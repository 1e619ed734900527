# Event ingestion and reporting, modelled in Dafny

This project models the event pipeline of the junior-test-task monorepo.

- **Gateway.** An HTTP gateway validates webhook bodies against the events schema. It routes each event by its `source` to the `events.facebook` or `events.tiktok` subject of the JetStream stream `EVENTS`. It keeps accepted / processed / failed tallies.
- **Collectors.** Two collectors, facebook and tiktok, consume their subject through a durable consumer. Each turns every event into store writes: a location upsert (facebook only), a user upsert, an optional engagement row and an event row. A message is acknowledged only when all of this succeeded.
- **Reporter.** A reporting service builds store filters from a query and aggregates what the store returns: event counts, revenue, gender groups, the five biggest cities, follower buckets and average followers.

Modules:

| module | file | models |
|---|---|---|
| `Wrappers` | wrappers.dfy | `Option` / `Result` |
| `JsonValues` | json_values.dfy | decoded JSON values, member presence (`in`), JavaScript truthiness, `\|\| null` |
| `EventsSchema` | events_schema.dfy | the zod schemas as datatypes, parsers (`safeParse`), serialisers and round trips |
| `Nats` | nats_service.dfy | `NatsService`: nullable handles, `publish`, stream and consumer ensure, the push and pull loops |
| `Gateway` | gateway_service.dfy | `GatewayService.publishEvents` and `onModuleInit` |
| `GatewayController` | gateway_controller.dfy | the validation gate of `handleWebhook` |
| `Collectors` | collector_common.dfy | what both collectors' handlers share: faults, the failure log, the counters |
| `FbCollector` | fb_collector.dfy | `toPrismaGender`, `handleEvent`, the subscription handler |
| `TtkCollector` | ttk_collector.dfy | `handleEvent`, the subscription handler |
| `Reporter` | reporter_service.dfy | the three reports' filters and aggregations |

**How the model is built.**

- **Store.** The relational store is a value: one map per table keyed by generated id, the unique indexes on (country, city) and on `userId` as maps, and an id counter.
- **Message log.** The broker's message log is a sequence of (subject, payload, headers) records held by the `NatsService` object.
- **Failures.** A store call, a publish or a stream/consumer creation that fails is named by a parameter (`fault`, `faults`, `addFails`).
- **Imperative code.** Code that updates state step by step is written as classes with `modifies` clauses. Each such method is proved equal to a specification function: `RunRange` for the gateway, `Apply` and `ConsumedAll` for the collectors, `HandledBatches` for the pull loop. The properties are proved about those functions.

**What the collectors do, as written.**

- They consume one event at a time through `subscribe`. They issue plain upserts and `create` calls with no transaction.
- So a failure midway keeps the earlier writes (`EventFaultLeavesEarlierWrites`). A redelivered event gets a second event row with the same `eventId` (`RedeliveryDuplicatesEvent`).
- No uniqueness constraint on `eventId` is enforced.
- `handleEvent` picks the engagement row by the members the decoded engagement object has (`'actionTime' in`, `'watchTime' in`) and reads its fields untyped. So the handler's input (`Incoming`) keeps the engagement as the decoded object, and separate lemmas relate the rows to the parsed shapes.

## Model

| member | source | states |
|---|---|---|
| EventsSchema.ParseFunnelStage | packages/shared/src/shemas/events.schema.ts:3-6 | accepts exactly the strings "top" and "bottom", returning the stage whose literal is the input |
| EventsSchema.FunnelStageRoundTrip | packages/shared/src/shemas/events.schema.ts:3-6 | every stage's literal parses back to that stage |
| EventsSchema.ParseFacebookEventType | packages/shared/src/shemas/events.schema.ts:8-22 | accepts exactly the seven facebook literals (top set ∪ bottom set); the parsed type is a top type iff its literal is in the top set |
| EventsSchema.FacebookEventTypeRoundTrip | packages/shared/src/shemas/events.schema.ts:8-22 | every facebook event type's literal parses back to it |
| EventsSchema.ParseTiktokEventType | packages/shared/src/shemas/events.schema.ts:86-100 | accepts exactly the seven tiktok literals; top type iff the literal is in the top set |
| EventsSchema.TiktokEventTypeRoundTrip | packages/shared/src/shemas/events.schema.ts:86-100 | every tiktok event type's literal parses back to it |
| EventsSchema.ParseGender | packages/shared/src/shemas/events.schema.ts:33-37 | accepts exactly "male", "female", "non-binary" |
| EventsSchema.ParseReferrer | packages/shared/src/shemas/events.schema.ts:43-47 | accepts exactly the three referrer literals |
| EventsSchema.ParseClickPosition | packages/shared/src/shemas/events.schema.ts:54-58 | accepts exactly the three click positions |
| EventsSchema.ParseFacebookDevice | packages/shared/src/shemas/events.schema.ts:59 | accepts exactly "mobile" and "desktop" |
| EventsSchema.ParseBrowser | packages/shared/src/shemas/events.schema.ts:60-64 | accepts exactly "Chrome", "Firefox", "Safari" |
| EventsSchema.ParseTiktokDevice | packages/shared/src/shemas/events.schema.ts:111-115 | accepts exactly "Android", "iOS", "Desktop" |
| EventsSchema.ParseString | packages/shared/src/shemas/events.schema.ts:25-26 | succeeds iff the field is present and a string, returning that string |
| EventsSchema.ParseNullableString | packages/shared/src/shemas/events.schema.ts:48 | succeeds iff the field is a string or null (the `.nullable()` fields: facebook `videoId`, both `purchaseAmount`s, `profileId`, `purchasedItem`) |
| EventsSchema.ParseNumber | packages/shared/src/shemas/events.schema.ts:32 | succeeds iff the field is a number |
| EventsSchema.ParseLocation | packages/shared/src/shemas/events.schema.ts:24-27 | succeeds iff the value is an object whose `country` and `city` are strings; the location holds exactly those two strings |
| EventsSchema.ParseFacebookUser | packages/shared/src/shemas/events.schema.ts:29-39 | succeeds iff the value is an object with string `userId` and `name`, numeric `age`, a gender literal and a valid location; each field of the result is the member it was read from |
| EventsSchema.FacebookUserRoundTrip | packages/shared/src/shemas/events.schema.ts:29-39 | every facebook user (with its location) serialises to a value that parses back to it |
| EventsSchema.ParseFacebookTop | packages/shared/src/shemas/events.schema.ts:41-49 | succeeds iff the object has a string `actionTime`, a referrer literal and a string-or-null `videoId`; the result is the top shape holding exactly those members |
| EventsSchema.ParseFacebookBottom | packages/shared/src/shemas/events.schema.ts:51-66 | succeeds iff the object has string `adId` and `campaignId`, the three enumeration literals and a string-or-null `purchaseAmount`; the bottom shape holds exactly those members |
| EventsSchema.ParseFacebookEngagement | packages/shared/src/shemas/events.schema.ts:68-71 | the union succeeds iff either shape does, the top shape tried first |
| EventsSchema.FacebookEngagementRoundTrip | packages/shared/src/shemas/events.schema.ts:41-71 | both engagement shapes, with null or string `videoId` / `purchaseAmount`, parse back from their serialisation |
| EventsSchema.ParseFacebookEvent | packages/shared/src/shemas/events.schema.ts:73-83 | succeeds iff the value is an object with string `eventId` and `timestamp`, `source` "facebook", a stage and a facebook event type, and a `data` object whose `user` and `engagement` parse; every field of the result comes from the input |
| EventsSchema.FacebookEventRoundTrip | packages/shared/src/shemas/events.schema.ts:73-83 | every facebook event parses back from its serialisation |
| EventsSchema.ParseTiktokUser | packages/shared/src/shemas/events.schema.ts:102-106 | succeeds iff the object has string `userId` and `username` and numeric `followers`; the user holds exactly those members |
| EventsSchema.TiktokUserRoundTrip | packages/shared/src/shemas/events.schema.ts:102-106 | every tiktok user serialises to a value that parses back to it |
| EventsSchema.ParseTiktokTop | packages/shared/src/shemas/events.schema.ts:108-118 | succeeds iff the object has numeric `watchTime` and `percentageWatched`, a device literal, and string `country` and `videoId` (`videoId` required); the top shape holds exactly those members |
| EventsSchema.ParseTiktokBottom | packages/shared/src/shemas/events.schema.ts:120-125 | succeeds iff the object has a string `actionTime` and string-or-null `profileId`, `purchasedItem`, `purchaseAmount`; the bottom shape holds exactly those members |
| EventsSchema.ParseTiktokEngagement | packages/shared/src/shemas/events.schema.ts:127-130 | succeeds iff either shape does, the top shape tried first |
| EventsSchema.TiktokEngagementRoundTrip | packages/shared/src/shemas/events.schema.ts:108-130 | both tiktok engagement shapes parse back from their serialisation |
| EventsSchema.ParseTiktokEvent | packages/shared/src/shemas/events.schema.ts:132-142 | succeeds iff the value is an object with string `eventId` and `timestamp`, `source` "tiktok", a stage and a tiktok event type, and a `data` object whose `user` and `engagement` parse; every field of the result comes from the input |
| EventsSchema.TiktokEventRoundTrip | packages/shared/src/shemas/events.schema.ts:132-142 | every tiktok event parses back from its serialisation |
| EventsSchema.ParseEvent | packages/shared/src/shemas/events.schema.ts:144 | `eventSchema` succeeds iff the facebook or the tiktok variant does, and the variant chosen agrees with `source` |
| EventsSchema.EventRoundTrip | packages/shared/src/shemas/events.schema.ts:144 | every event of either source is a valid event that parses back to itself |
| EventsSchema.ValidEventBySource | packages/shared/src/shemas/events.schema.ts:73-144 | a value is a valid event iff it is a facebook event with source "facebook" or a tiktok event with source "tiktok" |
| EventsSchema.ValidEvent | packages/shared/src/shemas/events.schema.ts:144 | `eventSchema.safeParse(v).success` (no contract of its own); characterised in `ValidEventBySource`, `EventRoundTrip` |
| EventsSchema.EngagementIndependentOfStage | packages/shared/src/shemas/events.schema.ts:68-141 | any engagement shape with any funnel stage still makes a valid event: the schema does not tie them |
| GatewayController.CheckedIndices | apps/gateway/src/gateway/gateway.controller.ts:28-43 | the positions validated: 0 and n-1 above 100 events, every position 0..n-1 otherwise |
| GatewayController.FirstInvalid | apps/gateway/src/gateway/gateway.controller.ts:30-35 | the first checked position the verdict (the event schema, for the controller) rejects; none iff every checked position is accepted; every position before it is accepted |
| GatewayController.FirstOfTwo | apps/gateway/src/gateway/gateway.controller.ts:28-35 | checking two positions finds no failure iff both elements are accepted |
| GatewayController.Validate | apps/gateway/src/gateway/gateway.controller.ts:22-43 | a non-array body is refused; an accepted body's events are the body's own elements; a refusal names an invalid element |
| GatewayController.SmallBodyFullyValidated | apps/gateway/src/gateway/gateway.controller.ts:36-43 | with at most 100 events, accepted iff every element is a valid event (so `[]` is accepted) |
| GatewayController.LargeBodyEndsValidated | apps/gateway/src/gateway/gateway.controller.ts:28-35 | above 100 events, accepted iff the first and last elements are valid |
| GatewayController.LargeBodyMiddleUnchecked | apps/gateway/src/gateway/gateway.controller.ts:28-35 | above 100 events, two bodies that agree on their ends get the same verdict, whatever their middles |
| GatewayController.RejectionIsFirstFailure | apps/gateway/src/gateway/gateway.controller.ts:30-43 | a refusal names a checked, invalid element, and every element checked before it is valid |
| GatewayController.LargeBodyInvalidLastRejected | apps/gateway/src/gateway/gateway.controller.ts:28-35 | a 150-event body with an invalid last element is refused |
| GatewayController.SmallAcceptedBodyAccounted | apps/gateway/src/gateway/gateway.controller.ts:36-45 | an accepted body of at most 100 events routes every element to a subject, and every event ends processed or failed |
| GatewayController.GatewayController.HandleWebhook | apps/gateway/src/gateway/gateway.controller.ts:22-47 | a refused body publishes nothing and changes no counter; an accepted one hands its own elements and the header correlation id to `publishEvents`, answers `received: events.length`, and the service's processed, failed and error counters grow by exactly that run's |
| Gateway.EventsStreamOptions | apps/gateway/src/gateway/gateway.service.ts:20-23 | stream `EVENTS` over `events.*`, with every other option left to its default |
| Gateway.EffectiveCorrelationId | apps/gateway/src/gateway/gateway.service.ts:33-35 | a truthy given id is kept; an absent or empty one is replaced by the fresh id; the result is never empty |
| Gateway.RouteOf | apps/gateway/src/gateway/gateway.service.ts:47-56 | `source` "facebook" goes to `events.facebook`, "tiktok" to `events.tiktok`, a `null` element throws, anything else is an unknown source |
| Gateway.RunRange | apps/gateway/src/gateway/gateway.service.ts:42-71 | the run over a prefix has thrown iff a `null` element is in it |
| Gateway.StepTally | apps/gateway/src/gateway/gateway.service.ts:46-69 | one callback as a specification step (no contract of its own): `null` throws, an unknown source counts a failure, a publish appends one message or logs its failure; proved properties in `RunRangeAccounts`, `RunRangeMessages`, `PublishFailureIsolated` |
| Gateway.Attempted | apps/gateway/src/gateway/gateway.service.ts:42-45 | the slices walked cover between the start and the end of the events |
| Gateway.AttemptedAll | apps/gateway/src/gateway/gateway.service.ts:42-45 | without a `null` element, every event is attempted |
| Gateway.AttemptedUpToNullSlice | apps/gateway/src/gateway/gateway.service.ts:10-45 | with the first `null` at k, exactly the slices of 1000 up to and including k's slice are attempted |
| Gateway.RunRangeAccounts | apps/gateway/src/gateway/gateway.service.ts:39-71 | without a `null`, processed + failed = number of events, and one message is published per processed event |
| Gateway.RunRangeMessages | apps/gateway/src/gateway/gateway.service.ts:47-60 | every published message holds one of the events, on the subject its `source` selects, with the call's single correlation id as its only header |
| Gateway.PublishFailureIsolated | apps/gateway/src/gateway/gateway.service.ts:46-68 | over any prefix of the events: every routable event whose publish succeeds is in the log, whatever failed before it; every routable event whose publish fails has its eventId and the correlation id logged; the error log holds one entry per failed publish |
| Gateway.FailedPublishes | apps/gateway/src/gateway/gateway.service.ts:57-68 | the number of routable events in a prefix whose publish fails (no contract of its own; counts the error log in `PublishFailureIsolated`) |
| Gateway.GatewayService.OnModuleInit | apps/gateway/src/gateway/gateway.service.ts:18-27 | an existing `EVENTS` stream is left as is, and so are the other streams when its creation fails; otherwise it is created with the defaults; a failure is logged, not rethrown |
| Gateway.GatewayService.RouteAndPublish | apps/gateway/src/gateway/gateway.service.ts:46-69 | one callback: the counters and the log change exactly as the spec step `StepTally` says |
| Gateway.GatewayService.PublishSlice | apps/gateway/src/gateway/gateway.service.ts:43-70 | a slice runs every callback, even after one threw, and ends in the state `RunRange` gives for its end |
| Gateway.GatewayService.PublishEvents | apps/gateway/src/gateway/gateway.service.ts:29-72 | accepted grows by `events.length` once; log, processed, failed and the error log grow exactly by the run over the attempted slices; the call throws iff a `null` is among them |
| Nats.Decode | packages/nats-wrapper/src/nats.service.ts:97 | decoding succeeds on exactly the encoded payloads and inverts `Encode` |
| Nats.PublishHeaders | packages/nats-wrapper/src/nats.service.ts:61-62 | the `x-correlation-id` header is set iff the correlation id is truthy, to that id, and no other header is set |
| Nats.CorrelationIdOf | packages/nats-wrapper/src/nats.service.ts:98 | a message has a correlation id iff it carries the header |
| Nats.StreamConfigOf | packages/nats-wrapper/src/nats.service.ts:153-169 | the stream config takes the given options, defaulting to Limits / 1000000 messages / 1000000000 bytes / File / discard Old |
| Nats.FetchExpires | packages/nats-wrapper/src/nats.service.ts:128 | the fetch deadline is the given `expires`, 5000 by default |
| Nats.DecodedBatch | packages/nats-wrapper/src/nats.service.ts:133-142 | the batch built from one fetch (no contract of its own): the messages that decode, in fetch order, with their correlation header; proved properties in `DecodedBatchAppend`, `DecodedBatchItems`, `DecodedBatchEmpty` |
| Nats.ItemOf | packages/nats-wrapper/src/nats.service.ts:134-138 | one fetched message as a batch item (no contract of its own): its decoded data and its `x-correlation-id` header, or nothing when decoding throws; proved properties in `DecodedBatchItems`, `DecodedBatchSnoc` |
| Nats.DecodedBatchSnoc | packages/nats-wrapper/src/nats.service.ts:133-142 | one more fetched message extends the batch by its item exactly when it decodes |
| Nats.DecodedBatchAppend | packages/nats-wrapper/src/nats.service.ts:133-142 | the batch of concatenated fetches is the concatenation of their batches: fetch order is kept |
| Nats.DecodedBatchItems | packages/nats-wrapper/src/nats.service.ts:133-142 | every batch item comes from a fetched message, holds its decoded data and its header correlation id |
| Nats.DecodedBatchEmpty | packages/nats-wrapper/src/nats.service.ts:133-143 | a batch is empty iff no fetched message decodes |
| Nats.HandledBatches | packages/nats-wrapper/src/nats.service.ts:130-149 | the handler calls of the pull loop (no contract of its own): one per fetch whose batch is non-empty, in order; bounded in `HandledBatchesBounded` |
| Nats.HandledBatchesBounded | packages/nats-wrapper/src/nats.service.ts:130-149 | at most one handler call per fetch, each on a non-empty batch of at most the batch size |
| Nats.Repeat | packages/nats-wrapper/src/nats.service.ts:130-131 | n copies of the same fetch request |
| Nats.NatsService.Client | packages/nats-wrapper/src/nats.service.ts:26-29 | the connection when set, else the error "NATS not connected" |
| Nats.NatsService.Js | packages/nats-wrapper/src/nats.service.ts:30-33 | the JetStream client when set, else "JetStream not initialized" |
| Nats.NatsService.Jsm | packages/nats-wrapper/src/nats.service.ts:34-37 | the manager when set, else "JetStreamManager not initialized" |
| Nats.NatsService.IsReady | packages/nats-wrapper/src/nats.service.ts:185-187 | ready iff all three getters succeed |
| Nats.NatsService.Connect | packages/nats-wrapper/src/nats.service.ts:39-45 | a connection named `default-nats-client` unless named; with no failure all three handles are set and the service is ready; a failure keeps the handles set before it |
| Nats.NatsService.OnModuleDestroy | packages/nats-wrapper/src/nats.service.ts:47-53 | the shutdown flag is raised only when a client exists |
| Nats.NatsService.Publish | packages/nats-wrapper/src/nats.service.ts:55-68 | fails while the JetStream client is unset; otherwise appends the encoded data on the subject with the correlation header, unless the broker fails it |
| Nats.NatsService.EnsureStream | packages/nats-wrapper/src/nats.service.ts:153-183 | an existing stream is untouched; a missing one is added with its defaulted config unless the add fails; without a manager nothing changes |
| Nats.NatsService.EnsureConsumer | packages/nats-wrapper/src/nats.service.ts:117-125 | a durable consumer is added, with explicit ack and the filter subject, only when the lookup misses |
| Nats.NatsService.Subscribe | packages/nats-wrapper/src/nats.service.ts:71-105 | the same consumer ensure; subscribing succeeds iff the handles are set and the consumer exists or could be added |
| Nats.NatsService.PullSubscribeBatch | packages/nats-wrapper/src/nats.service.ts:107-151 | one fetch of (batch size, deadline) per round until shutdown; the handler gets exactly the non-empty decoded batches in order, each no larger than the batch size; it starts iff the handles are set and the consumer exists or can be added, the consumers map changes exactly as `subscribe`'s does, and when it starts it ends shut down iff shutdown was already requested or the destroy hook, with a client connected, runs before the given fetches run out |
| Nats.NatsService.AssembleBatch | packages/nats-wrapper/src/nats.service.ts:133-142 | the decoding loop over one fetch builds exactly `DecodedBatch` of the fetched messages |
| Collectors.FaultOf | apps/fb-collector/src/fb-collector/fb-collector.service.ts:29-33 | the store call that fails for a message, if any |
| Collectors.FailureEntries | apps/fb-collector/src/fb-collector/fb-collector.service.ts:34-38 | a failure is logged with the message's correlation id and eventId, except for a `null` payload, whose `eventId` read throws inside the catch |
| Collectors.Settle | apps/fb-collector/src/fb-collector/fb-collector.service.ts:27-40 | accepted +1; on success processed +1 and the message is acked; on failure failed +1, no ack, and the failure logged |
| Collectors.Kept | apps/fb-collector/src/fb-collector/fb-collector.service.ts:27-40 | the acked keys of a run (no contract beyond a length bound); membership in `KeptMembers`, origin in `KeptFrom` |
| Collectors.KeptMembers | apps/fb-collector/src/fb-collector/fb-collector.service.ts:27-40 | with distinct keys, a key is kept iff its flag is set |
| Collectors.KeptFrom | apps/fb-collector/src/fb-collector/fb-collector.service.ts:27-40 | every kept key is one of the keys considered and its flag is set |
| JsonValues.OrNullJson | apps/fb-collector/src/fb-collector/fb-collector.service.ts:85-86 | `x \|\| null` on a value read untyped: the value itself iff it is truthy, null otherwise |
| JsonValues.StoredString | apps/fb-collector/src/fb-collector/fb-collector.service.ts:95-103 | what `x \|\| null` stores for a string-or-null field: the string iff it is non-empty |
| FbCollector.ToPrismaGender | apps/fb-collector/src/fb-collector/fb-collector.service.ts:8-10 | "non-binary" becomes "non_binary"; the other literals pass through |
| FbCollector.IncomingOf | apps/fb-collector/src/fb-collector/fb-collector.service.ts:27-30 | the payload is handled iff it parses as a facebook event; the handler sees the parsed identifying fields and user, and the decoded engagement object, which parses to the event's engagement |
| FbCollector.TopRowOf | apps/fb-collector/src/fb-collector/fb-collector.service.ts:81-88 | a top row exists iff the engagement object has an `actionTime` member, whatever shape it parsed as; it holds that member, and `referrer` and `videoId` when truthy, null otherwise |
| FbCollector.BottomRowOf | apps/fb-collector/src/fb-collector/fb-collector.service.ts:89-104 | each of the six members read untyped from the engagement object, stored when truthy and null otherwise |
| FbCollector.TopRowOfParsedTop | apps/fb-collector/src/fb-collector/fb-collector.service.ts:81-88 | on a top-shaped engagement the top row holds the parsed `actionTime`, the referrer literal, and `videoId` unless null or empty |
| FbCollector.BottomRowOfParsedBottom | apps/fb-collector/src/fb-collector/fb-collector.service.ts:89-104 | on a bottom-shaped engagement the bottom row holds the parsed ids and literals, null for an empty id or a null or empty amount |
| FbCollector.BottomShapeWithActionTimeHasTopRow | apps/fb-collector/src/fb-collector/fb-collector.service.ts:80-88 | an engagement that parses as the bottom shape but also has `actionTime` gets a top row, with null `referrer` and `videoId` |
| FbCollector.UpsertLocation | apps/fb-collector/src/fb-collector/fb-collector.service.ts:46-58 | the (country, city) key is indexed afterwards; an existing key leaves the store unchanged; a new key gets a fresh row; no other table changes |
| FbCollector.UpsertLocationValid | apps/fb-collector/src/fb-collector/fb-collector.service.ts:46-58 | the upsert keeps the store valid, returns a row holding the key, and changes no existing location |
| FbCollector.UpsertUser | apps/fb-collector/src/fb-collector/fb-collector.service.ts:60-75 | the row indexed by `userId` gets the event's name, age, store gender and location id, under its old id when the user exists |
| FbCollector.UpsertUserValid | apps/fb-collector/src/fb-collector/fb-collector.service.ts:60-75 | the upsert keeps the store valid and its id belongs to no other user |
| FbCollector.CreateTop | apps/fb-collector/src/fb-collector/fb-collector.service.ts:82-88 | adds exactly one top row under a fresh id |
| FbCollector.CreateBottom | apps/fb-collector/src/fb-collector/fb-collector.service.ts:92-104 | adds exactly one bottom row under a fresh id |
| FbCollector.CreateEvent | apps/fb-collector/src/fb-collector/fb-collector.service.ts:108-118 | adds exactly one event row under a fresh id, with no uniqueness check on `eventId` |
| FbCollector.CreateEventValid | apps/fb-collector/src/fb-collector/fb-collector.service.ts:108-118 | an event row whose user and engagement exist keeps the store valid |
| FbCollector.Engage | apps/fb-collector/src/fb-collector/fb-collector.service.ts:77-106 | top stage: a top row iff the engagement object has `actionTime`; bottom stage: exactly one bottom row and no top row; the failing create leaves no row |
| FbCollector.EngageValid | apps/fb-collector/src/fb-collector/fb-collector.service.ts:77-106 | the engagement rows linked exist and the store stays valid |
| FbCollector.Apply | apps/fb-collector/src/fb-collector/fb-collector.service.ts:45-119 | `handleEvent` as a specification function (no contract of its own): the store after the calls up to the failing one, and whether it returned; proved properties in the `Apply*` lemmas below |
| FbCollector.ApplyPreservesValid | apps/fb-collector/src/fb-collector/fb-collector.service.ts:45-119 | every foreign key resolves after `handleEvent`, whichever call failed |
| FbCollector.ApplyOk | apps/fb-collector/src/fb-collector/fb-collector.service.ts:45-119 | `handleEvent` returns normally iff none of the store calls it makes fails (the engagement create is made only at the bottom stage or when `actionTime` is present) |
| FbCollector.ApplyEvents | apps/fb-collector/src/fb-collector/fb-collector.service.ts:108-118 | a failed call adds no event row; success adds exactly one, under a fresh id, linked to the upserted user and at most one engagement row chosen by stage and shape |
| FbCollector.CreatedRowRecords | apps/fb-collector/src/fb-collector/fb-collector.service.ts:108-118 | the created event row carries the event's id, time, stage and type, the upserted user's id and the engagement row built from the event, under a fresh id |
| FbCollector.ApplyKeepsLocations | apps/fb-collector/src/fb-collector/fb-collector.service.ts:46-58 | existing locations and index entries never change; the event's (country, city) is indexed unless the location upsert failed |
| FbCollector.ApplyLocationTables | apps/fb-collector/src/fb-collector/fb-collector.service.ts:45-119 | only the location upsert writes the location tables: after `handleEvent` they are as the upsert left them, or unchanged when it failed |
| FbCollector.ApplyUpsertsUser | apps/fb-collector/src/fb-collector/fb-collector.service.ts:60-75 | once the user upsert ran, the user's row holds the event's latest attributes and its location's id, under its old id; an earlier failure leaves the users |
| FbCollector.ApplyKeepsOtherUsers | apps/fb-collector/src/fb-collector/fb-collector.service.ts:60-75 | no other user's row or index entry changes |
| FbCollector.ApplyUserTables | apps/fb-collector/src/fb-collector/fb-collector.service.ts:45-119 | only the user upsert writes the user tables: after `handleEvent` they are as the upsert left them, or unchanged when it or the location upsert failed |
| FbCollector.EventFaultLeavesEarlierWrites | apps/fb-collector/src/fb-collector/fb-collector.service.ts:45-119 | a failing event create keeps the location, the user and the engagement row written before it |
| FbCollector.RedeliveryDuplicatesEvent | apps/fb-collector/src/fb-collector/fb-collector.service.ts:108-118 | a second delivery leaves locations and users as after the first, and creates a second event row with the same `eventId` |
| FbCollector.ReapplyKeepsPeople | apps/fb-collector/src/fb-collector/fb-collector.service.ts:46-75 | when the location and user rows already hold what the event says, handling it again leaves the location and user tables as they are |
| FbCollector.SharedLocationOneRow | apps/fb-collector/src/fb-collector/fb-collector.service.ts:46-75 | two events from the same (country, city) add no second location row, and both users point at the same location |
| FbCollector.Receive | apps/fb-collector/src/fb-collector/fb-collector.service.ts:27-30 | a decoded message carries an event for the handler iff its payload parses as a facebook event |
| FbCollector.Handle | apps/fb-collector/src/fb-collector/fb-collector.service.ts:27-30 | `handleEvent` on a decoded payload (no contract of its own): `Apply` on a facebook event, a throw with no write otherwise; `HandlePayload` is proved equal to it |
| FbCollector.ConsumedAll | apps/fb-collector/src/fb-collector/fb-collector.service.ts:23-41 | the subscription feeding the decoded messages, in order, to the handler (no contract of its own); proved properties in `ConsumeAccounting`, `ConsumeAllAcked` |
| FbCollector.Handled | apps/fb-collector/src/fb-collector/fb-collector.service.ts:27-40 | the subscribe callback on one decoded message (no contract of its own): `handleEvent`, then the bookkeeping of `Collectors.Settle`; proved properties in `HandledAcks`, `LastAck` |
| FbCollector.ProcessedAt | apps/fb-collector/src/fb-collector/fb-collector.service.ts:27-40 | whether the j-th message's `handleEvent` returns normally, run on the store the messages before it left (no contract of its own) |
| FbCollector.ProcessedFlags | apps/fb-collector/src/fb-collector/fb-collector.service.ts:27-40 | for each message of a run, whether its `handleEvent` returns normally on the store the earlier messages left |
| FbCollector.ProcessedSeqs | apps/fb-collector/src/fb-collector/fb-collector.service.ts:27-40 | the sequence numbers of the processed messages, in delivery order (no contract of its own); the acks in `ConsumeAccounting`, membership in `ProcessedSeqsMembers` |
| FbCollector.ProcessedSeqsMembers | apps/fb-collector/src/fb-collector/fb-collector.service.ts:27-40 | when no message is delivered twice in the run (distinct stream sequence numbers), a message's number is among the processed ones iff that message's `handleEvent` returns normally |
| FbCollector.ConsumeAccounting | apps/fb-collector/src/fb-collector/fb-collector.service.ts:27-40 | every message: accepted +1 and exactly one of processed / failed; the new acks are exactly the processed messages' sequence numbers, in delivery order, after the earlier acks; at most one log entry per failure; the store stays valid |
| FbCollector.ConsumeAcks | apps/fb-collector/src/fb-collector/fb-collector.service.ts:27-40 | the first n messages add exactly the processed ones' sequence numbers to the acks, in order |
| FbCollector.LastAck | apps/fb-collector/src/fb-collector/fb-collector.service.ts:27-40 | the n-th message is acked iff it is processed (`msg.ack()` runs only after `handleEvent` returns) |
| FbCollector.ConsumeAllAcked | apps/fb-collector/src/fb-collector/fb-collector.service.ts:27-33 | with well-formed events and no store failure, every message is processed and acked in delivery order, none failed |
| FbCollector.HandledAcks | apps/fb-collector/src/fb-collector/fb-collector.service.ts:27-33 | one well-formed event with no store failure is processed and acked |
| FbCollector.ConsumedAllSnoc | apps/fb-collector/src/fb-collector/fb-collector.service.ts:23-41 | handling one more message extends the run by one handler step |
| FbCollector.FbCollectorService.OnModuleInit | apps/fb-collector/src/fb-collector/fb-collector.service.ts:21-43 | subscribes through consumer `fb-collector` on `EVENTS`, filtering `events.facebook`, with explicit ack; succeeds iff the manager and JetStream client are set and the consumer exists or can be added; the consumers map gains exactly that consumer when it was missing and its add succeeds (even if the JetStream client is unset), and is otherwise unchanged |
| FbCollector.FbCollectorService.HandleEvent | apps/fb-collector/src/fb-collector/fb-collector.service.ts:45-119 | the store after the calls, and whether it returned, are those of `Apply` |
| FbCollector.FbCollectorService.HandlePayload | apps/fb-collector/src/fb-collector/fb-collector.service.ts:27-30 | a payload that is not a facebook event fails with no write; an event is handled as `Apply` says |
| FbCollector.FbCollectorService.OnMessage | apps/fb-collector/src/fb-collector/fb-collector.service.ts:27-40 | the handler's counters, acks, log and store are those of `Handled` |
| FbCollector.FbCollectorService.Consume | packages/nats-wrapper/src/nats.service.ts:94-104 | the delivery loop leaves the state `ConsumedAll` gives over the decoded messages, in order |
| TtkCollector.TopRowOf | apps/ttk-collector/src/ttk-collector/ttk-collector.service.ts:59-68 | a top row exists iff the engagement object has a `watchTime` member, whatever shape it parsed as; it holds the five members as read, absent ones as undefined |
| TtkCollector.BottomRowOf | apps/ttk-collector/src/ttk-collector/ttk-collector.service.ts:71-81 | a bottom row exists iff the engagement object has an `actionTime` member (otherwise the date is invalid); it holds that member, and `profileId`, `purchasedItem` and `purchaseAmount` when truthy, null otherwise |
| TtkCollector.IncomingOf | apps/ttk-collector/src/ttk-collector/ttk-collector.service.ts:23-26 | the payload is handled iff it parses as a tiktok event; the handler sees the parsed identifying fields and user, and the decoded engagement object, which parses to the event's engagement |
| TtkCollector.TopRowOfParsedTop | apps/ttk-collector/src/ttk-collector/ttk-collector.service.ts:59-68 | on a top-shaped engagement the top row holds the parsed numbers, the device literal, `country` and `videoId` |
| TtkCollector.BottomRowOfParsedBottom | apps/ttk-collector/src/ttk-collector/ttk-collector.service.ts:71-81 | on a bottom-shaped engagement the bottom row holds the parsed `actionTime`, null for a null or empty optional field |
| TtkCollector.TopShapeWithActionTimeHasBottomRow | apps/ttk-collector/src/ttk-collector/ttk-collector.service.ts:71-81 | an engagement that parses as the top shape but also has `actionTime` gives a bottom-stage event a valid bottom row |
| TtkCollector.UpsertUser | apps/ttk-collector/src/ttk-collector/ttk-collector.service.ts:42-53 | the user's row gets the latest `username` and `followers`, under its old id when it exists |
| TtkCollector.UpsertUserValid | apps/ttk-collector/src/ttk-collector/ttk-collector.service.ts:42-53 | the upsert keeps the store valid and its id belongs to no other user |
| TtkCollector.CreateTop | apps/ttk-collector/src/ttk-collector/ttk-collector.service.ts:60-68 | adds exactly one top row under a fresh id |
| TtkCollector.CreateBottom | apps/ttk-collector/src/ttk-collector/ttk-collector.service.ts:72-81 | adds exactly one bottom row under a fresh id |
| TtkCollector.CreateEvent | apps/ttk-collector/src/ttk-collector/ttk-collector.service.ts:85-95 | adds exactly one event row under a fresh id, no uniqueness on `eventId` |
| TtkCollector.CreateEventValid | apps/ttk-collector/src/ttk-collector/ttk-collector.service.ts:85-95 | an event row whose references exist keeps the store valid |
| TtkCollector.Engage | apps/ttk-collector/src/ttk-collector/ttk-collector.service.ts:55-83 | top stage: a top row iff `watchTime` is present; bottom stage: one bottom row, whose create fails when the engagement object has no `actionTime` (an invalid date) |
| TtkCollector.InvalidDate | apps/ttk-collector/src/ttk-collector/ttk-collector.service.ts:71-74 | a bottom-stage event whose engagement object has no `actionTime` member, so `new Date(undefined)` is invalid (no contract of its own); its effect in `ApplyOk`, `InvalidDateKeepsUserOnly` |
| TtkCollector.EngageValid | apps/ttk-collector/src/ttk-collector/ttk-collector.service.ts:55-83 | the rows linked exist and the store stays valid |
| TtkCollector.Apply | apps/ttk-collector/src/ttk-collector/ttk-collector.service.ts:41-96 | `handleEvent` as a specification function (no contract of its own); proved properties in the `Apply*` lemmas below |
| TtkCollector.ApplyPreservesValid | apps/ttk-collector/src/ttk-collector/ttk-collector.service.ts:41-96 | every foreign key resolves after `handleEvent`, whichever call failed |
| TtkCollector.ApplyOk | apps/ttk-collector/src/ttk-collector/ttk-collector.service.ts:41-96 | returns normally iff no store call it makes fails and it is not a bottom event whose engagement object lacks `actionTime` |
| TtkCollector.ApplyEvents | apps/ttk-collector/src/ttk-collector/ttk-collector.service.ts:85-95 | a failure adds no event row; success adds exactly one, under a fresh id, linked to the user and at most one engagement row |
| TtkCollector.ApplyUpsertsUser | apps/ttk-collector/src/ttk-collector/ttk-collector.service.ts:42-53 | once the upsert ran, the user's row holds the latest values under its old id; a failing upsert leaves the users |
| TtkCollector.ApplyKeepsOtherUsers | apps/ttk-collector/src/ttk-collector/ttk-collector.service.ts:42-53 | no other user's row or index entry changes |
| TtkCollector.ApplyUserTables | apps/ttk-collector/src/ttk-collector/ttk-collector.service.ts:41-96 | only the user upsert writes the user tables; there is no location table |
| TtkCollector.InvalidDateKeepsUserOnly | apps/ttk-collector/src/ttk-collector/ttk-collector.service.ts:71-83 | a bottom event whose engagement object has no `actionTime` fails after the user upsert and adds no engagement or event row |
| TtkCollector.EventFaultLeavesEarlierWrites | apps/ttk-collector/src/ttk-collector/ttk-collector.service.ts:41-96 | a failing event create keeps the user and the engagement row written before it |
| TtkCollector.RedeliveryDuplicatesEvent | apps/ttk-collector/src/ttk-collector/ttk-collector.service.ts:85-95 | a second delivery leaves the users as after the first, and adds a second event row with the same `eventId` |
| TtkCollector.ReapplyKeepsUser | apps/ttk-collector/src/ttk-collector/ttk-collector.service.ts:42-53 | when the user row already holds what the event says, handling it again leaves the user table as it is |
| TtkCollector.Receive | apps/ttk-collector/src/ttk-collector/ttk-collector.service.ts:23-26 | a decoded message carries an event for the handler iff its payload parses as a tiktok event |
| TtkCollector.Handle | apps/ttk-collector/src/ttk-collector/ttk-collector.service.ts:23-26 | `handleEvent` on a decoded payload (no contract of its own): `Apply` on a tiktok event, a throw with no write otherwise; `HandlePayload` is proved equal to it |
| TtkCollector.ConsumedAll | apps/ttk-collector/src/ttk-collector/ttk-collector.service.ts:19-37 | the subscription feeding the decoded messages, in order, to the handler (no contract of its own); proved properties in `ConsumeAccounting`, `ConsumeAllAcked` |
| TtkCollector.Handled | apps/ttk-collector/src/ttk-collector/ttk-collector.service.ts:23-36 | the subscribe callback on one decoded message (no contract of its own): `handleEvent`, then the bookkeeping of `Collectors.Settle`; proved properties in `HandledAcks`, `LastAck` |
| TtkCollector.ProcessedAt | apps/ttk-collector/src/ttk-collector/ttk-collector.service.ts:23-36 | whether the j-th message's `handleEvent` returns normally, run on the store the messages before it left (no contract of its own) |
| TtkCollector.ProcessedFlags | apps/ttk-collector/src/ttk-collector/ttk-collector.service.ts:23-36 | for each message of a run, whether its `handleEvent` returns normally on the store the earlier messages left |
| TtkCollector.ProcessedSeqs | apps/ttk-collector/src/ttk-collector/ttk-collector.service.ts:23-36 | the sequence numbers of the processed messages, in delivery order (no contract of its own); the acks in `ConsumeAccounting`, membership in `ProcessedSeqsMembers` |
| TtkCollector.ProcessedSeqsMembers | apps/ttk-collector/src/ttk-collector/ttk-collector.service.ts:23-36 | when no message is delivered twice in the run (distinct stream sequence numbers), a message's number is among the processed ones iff that message's `handleEvent` returns normally |
| TtkCollector.ConsumeAccounting | apps/ttk-collector/src/ttk-collector/ttk-collector.service.ts:23-36 | every message: accepted +1 and exactly one of processed / failed; the new acks are exactly the processed messages' sequence numbers, in delivery order, after the earlier acks; at most one log entry per failure; the store stays valid |
| TtkCollector.ConsumeAcks | apps/ttk-collector/src/ttk-collector/ttk-collector.service.ts:23-36 | the first n messages add exactly the processed ones' sequence numbers to the acks, in order |
| TtkCollector.LastAck | apps/ttk-collector/src/ttk-collector/ttk-collector.service.ts:23-36 | the n-th message is acked iff it is processed (`msg.ack()` runs only after `handleEvent` returns) |
| TtkCollector.HandledAcks | apps/ttk-collector/src/ttk-collector/ttk-collector.service.ts:23-29 | a well-formed event with a valid date and no store failure is processed and acked |
| TtkCollector.ConsumeAllAcked | apps/ttk-collector/src/ttk-collector/ttk-collector.service.ts:23-29 | with well-formed events and no failure, every message is processed and acked in delivery order |
| TtkCollector.ConsumedAllSnoc | apps/ttk-collector/src/ttk-collector/ttk-collector.service.ts:19-37 | handling one more message extends the run by one handler step |
| TtkCollector.TtkCollectorService.OnModuleInit | apps/ttk-collector/src/ttk-collector/ttk-collector.service.ts:17-39 | subscribes through consumer `ttk-collector` on `EVENTS`, filtering `events.tiktok`, with explicit ack; succeeds iff the manager and JetStream client are set and the consumer exists or can be added; the consumers map gains exactly that consumer when it was missing and its add succeeds (even if the JetStream client is unset), and is otherwise unchanged |
| TtkCollector.TtkCollectorService.HandleEvent | apps/ttk-collector/src/ttk-collector/ttk-collector.service.ts:41-96 | the store after the calls, and whether it returned, are those of `Apply` |
| TtkCollector.TtkCollectorService.HandlePayload | apps/ttk-collector/src/ttk-collector/ttk-collector.service.ts:23-26 | a payload that is not a tiktok event fails with no write; an event is handled as `Apply` says |
| TtkCollector.TtkCollectorService.OnMessage | apps/ttk-collector/src/ttk-collector/ttk-collector.service.ts:23-36 | the handler's counters, acks, log and store are those of `Handled` |
| TtkCollector.TtkCollectorService.Consume | packages/nats-wrapper/src/nats.service.ts:94-104 | the delivery loop leaves the state `ConsumedAll` gives over the decoded messages |
| Reporter.TimestampFilter | apps/reporter/src/reporter/reporter.service.ts:31-33 | the `timestamp` key is present iff a bound is given, `gte` / `lte` only for the bounds given, and it admits exactly the instants between them |
| Reporter.BuildEventsWhere | apps/reporter/src/reporter/reporter.service.ts:29-35 | `funnelStage` / `eventType` appear only when given (non-empty); the filter selects exactly what the query asks for |
| Reporter.GetEventsReport | apps/reporter/src/reporter/reporter.service.ts:23-71 | a section per source iff the source is absent or that one, holding the store's groups under the query's filter |
| Reporter.SourceSelection | apps/reporter/src/reporter/reporter.service.ts:39-53 | no source: both sections; one source: exactly that one |
| Reporter.BuildRevenueWheres | apps/reporter/src/reporter/reporter.service.ts:78-99 | `eventType` fixed to "checkout.complete" / "purchase"; both share the time bounds; `campaignId` narrows facebook only |
| Reporter.FindMany | apps/reporter/src/reporter/reporter.service.ts:105-108 | returns only rows of the input that match the filter |
| Reporter.FindManySelects | apps/reporter/src/reporter/reporter.service.ts:104-118 | the revenue filter returns exactly the rows the query asks for, in store order |
| Reporter.Revenue | apps/reporter/src/reporter/reporter.service.ts:109-112 | the sum of the rows' bottom `purchaseAmount`s, missing ones as 0 (no contract of its own); proved properties in `RevenueAppend`, `RevenueWithoutAmounts`, `RevenueBoundsAmounts` |
| Reporter.Amount | apps/reporter/src/reporter/reporter.service.ts:110 | a row's `engagementBottom?.purchaseAmount ?? 0` (no contract of its own); proved properties in `RevenueWithoutAmounts`, `RevenueBoundsAmounts` |
| Reporter.RevenueAppend | apps/reporter/src/reporter/reporter.service.ts:109-112 | the sum adds up over consecutive parts of the rows |
| Reporter.RevenueWithoutAmounts | apps/reporter/src/reporter/reporter.service.ts:109-112 | rows without a bottom engagement or amount contribute 0 |
| Reporter.RevenueBoundsAmounts | apps/reporter/src/reporter/reporter.service.ts:109-122 | with non-negative amounts, the revenue is non-negative and at least every row's amount |
| Reporter.GetRevenueReport | apps/reporter/src/reporter/reporter.service.ts:73-133 | each covered source's revenue over exactly the rows asked for, 0 for an excluded source, total = facebook + tiktok |
| Reporter.ByGender | apps/reporter/src/reporter/reporter.service.ts:178-182 | one entry per group, in order, with its count; a missing average age becomes 0 |
| Reporter.InsertPermutes | apps/reporter/src/reporter/reporter.service.ts:174 | insertion adds the one location and loses none |
| Reporter.InsertSorted | apps/reporter/src/reporter/reporter.service.ts:174 | insertion into a list sorted by descending users keeps it sorted |
| Reporter.SortByUsers | apps/reporter/src/reporter/reporter.service.ts:174 | the sort by descending user count keeps the length; sortedness and permutation in `SortByUsersSorted` |
| Reporter.SortByUsersSorted | apps/reporter/src/reporter/reporter.service.ts:174 | the sort orders by non-increasing user count and is a permutation |
| Reporter.TopCities | apps/reporter/src/reporter/reporter.service.ts:168-175 | the five biggest cities (no contract of its own); proved properties in `TopCitiesAreTop` |
| Reporter.TopCitiesAreTop | apps/reporter/src/reporter/reporter.service.ts:168-175 | min(5, n) locations, all from the input, non-increasing in users, and no location left out has more users than one kept |
| Reporter.SortedCut | apps/reporter/src/reporter/reporter.service.ts:174-175 | the first n of a sorted arrangement stay sorted, come from the input, and no location past the cut has more users than one kept |
| Reporter.FollowersByRange | apps/reporter/src/reporter/reporter.service.ts:201-212 | four entries, one per bucket in the fixed order, each counting the users within its bounds |
| Reporter.FollowerRangeLabels | apps/reporter/src/reporter/reporter.service.ts:201-206 | the labels are `<100`, `100-999`, `1000-9999`, `10k+`, in that order |
| Reporter.OneBucket | apps/reporter/src/reporter/reporter.service.ts:201-211 | a follower count between 0 and `MAX_SAFE_INTEGER` falls in exactly one bucket |
| Reporter.CountIn | apps/reporter/src/reporter/reporter.service.ts:207-212 | the users whose follower count falls in the bucket, never more than the users |
| Reporter.BucketCountsSum | apps/reporter/src/reporter/reporter.service.ts:207-212 | the bucket counts add up to the number of users when all counts are in range |
| Reporter.AvgFollowers | apps/reporter/src/reporter/reporter.service.ts:214-216 | 0 when there are no users |
| Reporter.SumFollowersBounds | apps/reporter/src/reporter/reporter.service.ts:215 | the sum of follower counts lies between n·lo and n·hi |
| Reporter.SumFollowers | apps/reporter/src/reporter/reporter.service.ts:215 | the `reduce` summing follower counts (no contract of its own); bounded in `SumFollowersBounds` |
| Reporter.AvgFollowersBetween | apps/reporter/src/reporter/reporter.service.ts:214-216 | the average lies between the smallest and largest bound of the follower counts |
| Reporter.FollowerExample | apps/reporter/src/reporter/reporter.service.ts:201-216 | 10, 200, 1500 and 11000 followers: one per bucket, averaging 3177.5 |
| Reporter.GetDemographicsReport | apps/reporter/src/reporter/reporter.service.ts:135-228 | the event filter admits exactly the instants asked for; a section per covered source: gender groups and top cities for facebook, average and buckets for tiktok |

## Left out

- Floating point: amounts are integers and averages exact reals. `Number(...)` conversion of `purchaseAmount`, the float sums and the float division of `avgFollowers` / `avgAge` are not modelled.
- Dates: event timestamps are opaque strings in the collectors and integers in the reporter. `new Date(...)` parsing is not modelled, except for the one case it decides: a tiktok bottom event whose engagement object has no `actionTime` gets an invalid date, so its bottom create fails. A present `actionTime` that `new Date` cannot read is not modelled as a failure.
- Prisma column validation: the rows store the engagement members as read, whatever their JSON type. A create that Prisma would refuse for a wrongly typed or missing column (a tiktok top row without `videoId`, say) is not modelled as a failure; the store schema is not part of this model.
- Concurrency: the `Promise.all` fan-out of a gateway slice, and the background `for await` task of `subscribe`, run sequentially in the model.
- `randomUUID` is a parameter (`freshId`); the store's generated ids are the counter `nextId`.
- Prisma and NATS client internals: `groupBy` answers, the located users and the tiktok users of the demographics report are inputs.
- Network: connection, `drain`, `close`, fetch timing and redelivery timers are not modelled. Store call failures, publish failures and stream and consumer creation failures are parameters.
- Nats.NatsService.PullSubscribeBatch: a rejected `consumer.fetch` or `js.consumers.get`, which ends the pull loop by throwing, is not modelled; every fetch returns its given messages.
- Nats.NatsService.Subscribe: a rejected `js.consumers.get` or `consume()` is not modelled; with the handles set and the consumer ensured, the subscription starts.
- Collectors.FaultOf: store faults are per message, keyed by stream sequence number, not per delivery: a message delivered twice in one run fails at the same step both times.
- Logging text, metric names and histograms are not modelled; the counters are fields and the error log holds only the logged ids.
- Collectors.FailureEntries: the logged error object itself is not modelled, only the eventId and correlation id.
- FbCollector.IncomingOf: the handler parses the decoded payload first. On a parsed event, the original's untyped reads of the identifying fields and the user give the parsed values, and the engagement is read from the decoded object as in the original. A payload that is not a facebook event is not handed on; the original's untyped reads of such a payload, which may write before throwing, are not modelled.
- FbCollector.Receive: a decoded message whose payload is not a facebook event carries no event, as `IncomingOf` says.
- FbCollector.FbCollectorService.HandlePayload: a payload that is not a facebook event fails like a throwing `handleEvent`, with no write, where the original may have written the location or user first.
- TtkCollector.IncomingOf: as the facebook `IncomingOf`, for tiktok events.
- TtkCollector.Receive: as the facebook `Receive`, for tiktok events.
- TtkCollector.TtkCollectorService.HandlePayload: as the facebook `HandlePayload`; the original may have upserted the user first.
- Nats.NatsService.Publish: the `opts` argument of `publish` is not modelled. No caller passes it. Spread after `headers`, an `opts.headers` would replace the correlation header.
- Reporter.TopCitiesAreTop: the order among cities with equal user counts, which the stable `sort` keeps from the input, is not stated as a lemma.
- Reporter.GetEventsReport: the store's grouping and `orderBy` are inputs; only the filter and the section selection are proved.
- The metrics timers of the reporter (`startReportTimer`) are not modelled.
