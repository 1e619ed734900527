/**
 * The facebook collector.  It consumes `events.facebook` through the durable
 * consumer `fb-collector` and turns each event into store writes, one call
 * after another and without a transaction:
 *   1. upsert the (country, city) location, never changing an existing one;
 *   2. upsert the user by `userId`, overwriting its attributes;
 *   3. for a top-stage event whose engagement has `actionTime`, create a top
 *      engagement row; for a bottom-stage event, create a bottom row;
 *   4. create the event row, linked to the user and to at most one engagement row.
 * The message handler counts every message, acknowledges it only when all of
 * this succeeded, and otherwise counts a failure and logs it.
 *
 * The store is a value: a table per entity keyed by generated id, the unique
 * indexes on (country, city) and on `userId`, and the id counter.
 */
module FbCollector {
  import opened Wrappers
  import opened JsonValues
  import opened EventsSchema
  import opened Nats
  import opened Collectors

  // ---------------------------------------------------------------------------
  // Rows

  /** The store's gender enumeration, whose identifiers cannot contain '-'. */
  datatype PrismaGender = PrismaMale | PrismaFemale | PrismaNonBinary

  function PrismaGenderLiteral(g: PrismaGender): string {
    match g
    case PrismaMale => "male"
    case PrismaFemale => "female"
    case PrismaNonBinary => "non_binary"
  }

  /** `toPrismaGender`: "non-binary" is spelled "non_binary"; other literals pass through. */
  function ToPrismaGender(g: Gender): (r: PrismaGender)
    ensures PrismaGenderLiteral(r) ==
      (if GenderLiteral(g) == "non-binary" then "non_binary" else GenderLiteral(g))
  {
    match g
    case Male => PrismaMale
    case Female => PrismaFemale
    case NonBinary => PrismaNonBinary
  }

  datatype UserRow = UserRow(
    userId: string, name: string, age: int, gender: PrismaGender, locationId: nat)

  /** The top row: `actionTime` and the other members as read from the raw engagement. */
  datatype TopRow = TopRow(actionTime: Json, referrer: Option<Json>, videoId: Option<Json>)

  /** `purchaseAmount` holds the raw value that is converted with `Number`. */
  datatype BottomRow = BottomRow(
    adId: Option<Json>, campaignId: Option<Json>, clickPosition: Option<Json>,
    device: Option<Json>, browser: Option<Json>, purchaseAmount: Option<Json>)

  datatype EventRow = EventRow(
    eventId: string, timestamp: string, funnelStage: FunnelStage, eventType: FacebookEventType,
    userId: nat, engagementTopId: Option<nat>, engagementBottomId: Option<nat>)

  datatype Db = Db(
    locations: map<nat, Location>, locationIndex: map<Location, nat>,
    users: map<nat, UserRow>, userIndex: map<string, nat>,
    tops: map<nat, TopRow>, bottoms: map<nat, BottomRow>, events: map<nat, EventRow>,
    nextId: nat)

  /**
   * The event as `handleEvent` reads it: the identifying fields and the user
   * through the parsed type, the engagement as the decoded object itself, since
   * the handler tests its members with `in` and reads them untyped.
   */
  datatype Incoming = Incoming(
    eventId: string, timestamp: string, funnelStage: FunnelStage, eventType: FacebookEventType,
    user: FacebookUser, engagement: Option<Json>)

  /** The payload as the handler sees it, when it is a facebook event. */
  function IncomingOf(data: Json): (r: Option<Incoming>)
    ensures r.Some? <==> ParseFacebookEvent(data).Some?
    ensures r.Some? ==>
      var e := ParseFacebookEvent(data).value;
      && r.value.eventId == e.eventId && r.value.timestamp == e.timestamp
      && r.value.funnelStage == e.funnelStage && r.value.eventType == e.eventType
      && r.value.user == e.user
      && IsObject(r.value.engagement) && ParseFacebookEngagement(r.value.engagement) == Some(e.engagement)
  {
    match ParseFacebookEvent(data)
    case None => None
    case Some(e) =>
      Some(Incoming(e.eventId, e.timestamp, e.funnelStage, e.eventType, e.user,
                    Member(Field(data, "data"), "engagement")))
  }

  /**
   * The top row of an engagement: there is one exactly when the object has an
   * `actionTime` member, whatever shape it parsed as; `referrer` and `videoId`
   * are stored when truthy and as null otherwise.
   */
  function TopRowOf(g: Option<Json>): (r: Option<TopRow>)
    ensures r.Some? <==> HasKey(g, "actionTime")
    ensures r.Some? ==> Member(g, "actionTime") == Some(r.value.actionTime)
    ensures r.Some? ==> IsOrNull(r.value.referrer, Member(g, "referrer"))
    ensures r.Some? ==> IsOrNull(r.value.videoId, Member(g, "videoId"))
  {
    match Member(g, "actionTime")
    case Some(actionTime) =>
      Some(TopRow(actionTime, OrNullJson(Member(g, "referrer")), OrNullJson(Member(g, "videoId"))))
    case None => None
  }

  /** The bottom row of an engagement: each member, with falsy ones stored as null. */
  function BottomRowOf(g: Option<Json>): (r: BottomRow)
    ensures IsOrNull(r.adId, Member(g, "adId")) && IsOrNull(r.campaignId, Member(g, "campaignId"))
    ensures IsOrNull(r.clickPosition, Member(g, "clickPosition"))
    ensures IsOrNull(r.device, Member(g, "device")) && IsOrNull(r.browser, Member(g, "browser"))
    ensures IsOrNull(r.purchaseAmount, Member(g, "purchaseAmount"))
  {
    BottomRow(OrNullJson(Member(g, "adId")), OrNullJson(Member(g, "campaignId")),
              OrNullJson(Member(g, "clickPosition")), OrNullJson(Member(g, "device")),
              OrNullJson(Member(g, "browser")), OrNullJson(Member(g, "purchaseAmount")))
  }

  /**
   * On an engagement that parses as the top shape, the top row holds the parsed
   * fields: the `actionTime` string, the referrer literal, and the `videoId`
   * unless it is null or empty.
   */
  lemma TopRowOfParsedTop(g: Option<Json>)
    requires ParseFacebookTop(g).Some?
    ensures var t := ParseFacebookTop(g).value;
      TopRowOf(g) == Some(TopRow(Str(t.actionTime), Some(Str(ReferrerLiteral(t.referrer))),
                                 StoredString(t.videoId)))
  {
    var t := ParseFacebookTop(g).value;
    assert |ReferrerLiteral(t.referrer)| > 0;
  }

  /**
   * On an engagement that parses as the bottom shape, the bottom row holds the
   * parsed fields: the literals of the enumerations, and the ids and the amount
   * unless they are null or empty.
   */
  lemma BottomRowOfParsedBottom(g: Option<Json>)
    requires ParseFacebookBottom(g).Some?
    ensures var t := ParseFacebookBottom(g).value;
      BottomRowOf(g) == BottomRow(
        StoredString(Some(t.adId)), StoredString(Some(t.campaignId)),
        Some(Str(ClickPositionLiteral(t.clickPosition))), Some(Str(FacebookDeviceLiteral(t.device))),
        Some(Str(BrowserLiteral(t.browser))), StoredString(t.purchaseAmount))
  {
    var t := ParseFacebookBottom(g).value;
    assert |ClickPositionLiteral(t.clickPosition)| > 0;
    assert |FacebookDeviceLiteral(t.device)| > 0 && |BrowserLiteral(t.browser)| > 0;
  }

  /**
   * The row follows the members present, not the shape the engagement parsed
   * as: a bottom-shaped engagement that also carries `actionTime` yields a top
   * row with null `referrer` and `videoId`.
   */
  lemma BottomShapeWithActionTimeHasTopRow()
    ensures var g := Some(Obj(map["adId" := Str("a"), "campaignId" := Str("c"),
                                  "clickPosition" := Str("center"), "device" := Str("mobile"),
                                  "browser" := Str("Chrome"), "purchaseAmount" := Null,
                                  "actionTime" := Str("t")]));
      && ParseFacebookEngagement(g).Some? && ParseFacebookEngagement(g).value.FacebookBottom?
      && TopRowOf(g) == Some(TopRow(Str("t"), None, None))
  {
    var g := Some(Obj(map["adId" := Str("a"), "campaignId" := Str("c"),
                          "clickPosition" := Str("center"), "device" := Str("mobile"),
                          "browser" := Str("Chrome"), "purchaseAmount" := Null,
                          "actionTime" := Str("t")]));
    assert ParseFacebookTop(g).None? by {
      assert Member(g, "referrer").None?;
    }
    assert ParseFacebookBottom(g).Some?;
  }

  // ---------------------------------------------------------------------------
  // Store invariant

  ghost predicate EventIdsBelow(db: Db) {
    forall i :: i in db.events ==> i < db.nextId
  }

  /** Every generated id is below the counter, so the counter always yields a fresh one. */
  ghost predicate IdsBelow(db: Db) {
    && (forall i :: i in db.locations ==> i < db.nextId)
    && (forall i :: i in db.users ==> i < db.nextId)
    && (forall i :: i in db.tops ==> i < db.nextId)
    && (forall i :: i in db.bottoms ==> i < db.nextId)
    && EventIdsBelow(db)
  }

  /** Each unique index entry names a row that carries its key. */
  ghost predicate Indexed(db: Db) {
    && (forall l :: l in db.locationIndex ==>
          db.locationIndex[l] in db.locations && db.locations[db.locationIndex[l]] == l)
    && (forall k :: k in db.userIndex ==>
          db.userIndex[k] in db.users && db.users[db.userIndex[k]].userId == k)
  }

  /** An event row points at an existing user and at no more than one existing engagement row. */
  ghost predicate EventLinked(db: Db, r: EventRow) {
    && r.userId in db.users
    && (r.engagementTopId.Some? ==> r.engagementTopId.value in db.tops)
    && (r.engagementBottomId.Some? ==> r.engagementBottomId.value in db.bottoms)
    && !(r.engagementTopId.Some? && r.engagementBottomId.Some?)
  }

  /** Every foreign key resolves. */
  ghost predicate Linked(db: Db) {
    && (forall i :: i in db.users ==> db.users[i].locationId in db.locations)
    && (forall i :: i in db.events ==> EventLinked(db, db.events[i]))
  }

  ghost predicate Valid(db: Db) {
    IdsBelow(db) && Indexed(db) && Linked(db)
  }

  // ---------------------------------------------------------------------------
  // Store calls

  /** The location upsert on (country, city) with an empty update: the id of the key's row. */
  function UpsertLocation(db: Db, l: Location): (r: (Db, nat))
    ensures l in r.0.locationIndex && r.0.locationIndex[l] == r.1
    ensures l in db.locationIndex ==> r.0 == db
    ensures l !in db.locationIndex ==>
      r.0.locationIndex == db.locationIndex[l := r.1] && r.0.locations == db.locations[r.1 := l] &&
      db.nextId <= r.1 < r.0.nextId
    ensures r.0.users == db.users && r.0.userIndex == db.userIndex
    ensures r.0.tops == db.tops && r.0.bottoms == db.bottoms && r.0.events == db.events
    ensures db.nextId <= r.0.nextId
  {
    if l in db.locationIndex then (db, db.locationIndex[l])
    else
      var id := db.nextId;
      (db.(locations := db.locations[id := l], locationIndex := db.locationIndex[l := id],
           nextId := id + 1), id)
  }

  /** The location upsert keeps the store valid and never changes an existing location row. */
  lemma UpsertLocationValid(db: Db, l: Location)
    requires Valid(db)
    ensures var (db', id) := UpsertLocation(db, l);
      && Valid(db') && id in db'.locations && db'.locations[id] == l
      && (forall i :: i in db.locations ==> i in db'.locations && db'.locations[i] == db.locations[i])
  {
  }

  /** The user upsert on `userId`: the event's attributes, under the old id when the user exists. */
  function UpsertUser(db: Db, u: FacebookUser, locationId: nat): (r: (Db, nat))
    ensures u.userId in r.0.userIndex && r.0.userIndex[u.userId] == r.1
    ensures r.0.users == db.users[r.1 := UserRow(u.userId, u.name, u.age, ToPrismaGender(u.gender), locationId)]
    ensures u.userId in db.userIndex ==> r.1 == db.userIndex[u.userId] && r.0.userIndex == db.userIndex
    ensures u.userId !in db.userIndex ==>
      r.0.userIndex == db.userIndex[u.userId := r.1] && db.nextId <= r.1 < r.0.nextId
    ensures r.0.locations == db.locations && r.0.locationIndex == db.locationIndex
    ensures r.0.tops == db.tops && r.0.bottoms == db.bottoms && r.0.events == db.events
    ensures db.nextId <= r.0.nextId
  {
    var row := UserRow(u.userId, u.name, u.age, ToPrismaGender(u.gender), locationId);
    if u.userId in db.userIndex then
      var id := db.userIndex[u.userId];
      (db.(users := db.users[id := row]), id)
    else
      var id := db.nextId;
      (db.(users := db.users[id := row], userIndex := db.userIndex[u.userId := id], nextId := id + 1), id)
  }

  /** The user upsert keeps the store valid when the location exists, and touches no other user. */
  lemma UpsertUserValid(db: Db, u: FacebookUser, locationId: nat)
    requires Valid(db) && locationId in db.locations
    ensures var (db', id) := UpsertUser(db, u, locationId);
      && Valid(db')
      && (forall k :: k in db.userIndex && k != u.userId ==> db.userIndex[k] != id)
  {
    var (db', id) := UpsertUser(db, u, locationId);
    assert Linked(db') by {
      forall i | i in db'.events ensures EventLinked(db', db'.events[i]) {
        assert EventLinked(db, db.events[i]);
      }
    }
  }

  function CreateTop(db: Db, row: TopRow): (r: (Db, nat))
    ensures r.0 == db.(tops := db.tops[r.1 := row], nextId := r.0.nextId)
    ensures db.nextId <= r.1 < r.0.nextId
  {
    (db.(tops := db.tops[db.nextId := row], nextId := db.nextId + 1), db.nextId)
  }

  function CreateBottom(db: Db, row: BottomRow): (r: (Db, nat))
    ensures r.0 == db.(bottoms := db.bottoms[r.1 := row], nextId := r.0.nextId)
    ensures db.nextId <= r.1 < r.0.nextId
  {
    (db.(bottoms := db.bottoms[db.nextId := row], nextId := db.nextId + 1), db.nextId)
  }

  /** A plain create: no uniqueness on `eventId` is enforced. */
  function CreateEvent(db: Db, row: EventRow): (r: (Db, nat))
    ensures r.0 == db.(events := db.events[r.1 := row], nextId := r.0.nextId)
    ensures db.nextId <= r.1 < r.0.nextId
  {
    (db.(events := db.events[db.nextId := row], nextId := db.nextId + 1), db.nextId)
  }

  /** The event create keeps the store valid when the row's references resolve. */
  lemma CreateEventValid(db: Db, row: EventRow)
    requires Valid(db) && EventLinked(db, row)
    ensures Valid(CreateEvent(db, row).0)
  {
    var (db', id) := CreateEvent(db, row);
    assert Linked(db') by {
      forall i | i in db'.events ensures EventLinked(db', db'.events[i]) {
        if i != id { assert EventLinked(db, db.events[i]); }
      }
    }
  }

  // ---------------------------------------------------------------------------
  // `handleEvent` as a function of the store

  datatype Engaged = Engaged(db: Db, topId: Option<nat>, bottomId: Option<nat>)

  /**
   * Step 3: the engagement row the stage and the engagement's shape call for, or
   * None when that create is the failing call.
   */
  function Engage(db: Db, stage: FunnelStage, g: Option<Json>, fails: bool): (r: Option<Engaged>)
    ensures r.None? <==> fails && (stage == Bottom || HasKey(g, "actionTime"))
    ensures r.Some? ==> (r.value.topId.Some? <==> stage == Top && HasKey(g, "actionTime"))
    ensures r.Some? ==> (r.value.bottomId.Some? <==> stage == Bottom)
    ensures r.Some? && r.value.topId.Some? ==>
      r.value.db.tops == db.tops[r.value.topId.value := TopRowOf(g).value] &&
      db.nextId <= r.value.topId.value
    ensures r.Some? && r.value.topId.None? ==> r.value.db.tops == db.tops
    ensures r.Some? && r.value.bottomId.Some? ==>
      r.value.db.bottoms == db.bottoms[r.value.bottomId.value := BottomRowOf(g)] &&
      db.nextId <= r.value.bottomId.value
    ensures r.Some? && r.value.bottomId.None? ==> r.value.db.bottoms == db.bottoms
    ensures r.Some? ==>
      && r.value.db.locations == db.locations && r.value.db.locationIndex == db.locationIndex
      && r.value.db.users == db.users && r.value.db.userIndex == db.userIndex
      && r.value.db.events == db.events && db.nextId <= r.value.db.nextId
  {
    match stage
    case Top =>
      (match TopRowOf(g)
       case None => Some(Engaged(db, None, None))
       case Some(row) =>
         if fails then None
         else var (db', id) := CreateTop(db, row); Some(Engaged(db', Some(id), None)))
    case Bottom =>
      if fails then None
      else var (db', id) := CreateBottom(db, BottomRowOf(g)); Some(Engaged(db', None, Some(id)))
  }

  /** The engagement create keeps the store valid, and the rows it links exist. */
  lemma EngageValid(db: Db, stage: FunnelStage, g: Option<Json>, fails: bool)
    requires Valid(db)
    ensures var r := Engage(db, stage, g, fails);
      r.Some? ==>
        && Valid(r.value.db)
        && (r.value.topId.Some? ==> r.value.topId.value in r.value.db.tops)
        && (r.value.bottomId.Some? ==> r.value.bottomId.value in r.value.db.bottoms)
  {
    var r := Engage(db, stage, g, fails);
    if r.Some? {
      assert Linked(r.value.db) by {
        forall i | i in db.events ensures EventLinked(r.value.db, db.events[i]) {
          assert EventLinked(db, db.events[i]);
        }
      }
    }
  }

  datatype Outcome = Outcome(db: Db, ok: bool)

  /**
   * The store after `handleEvent`, and whether it returned normally.  `fault` is
   * the store call that throws, if any; the writes made before it stay.
   */
  function Apply(db: Db, e: Incoming, fault: Option<Step>): Outcome {
    if fault == Some(LocationStep) then Outcome(db, false)
    else
      var (db1, locationId) := UpsertLocation(db, e.user.location);
      if fault == Some(UserStep) then Outcome(db1, false)
      else
        var (db2, userId) := UpsertUser(db1, e.user, locationId);
        match Engage(db2, e.funnelStage, e.engagement, fault == Some(EngagementStep))
        case None => Outcome(db2, false)
        case Some(linked) =>
          if fault == Some(EventStep) then Outcome(linked.db, false)
          else
            var row := EventRow(e.eventId, e.timestamp, e.funnelStage, e.eventType,
                                userId, linked.topId, linked.bottomId);
            Outcome(CreateEvent(linked.db, row).0, true)
  }

  /** Whether a store call that `handleEvent` makes for `e` is the faulty one. */
  predicate FaultHits(e: Incoming, fault: Option<Step>) {
    fault.Some? && (fault.value != EngagementStep || e.funnelStage == Bottom || HasKey(e.engagement, "actionTime"))
  }

  /** The row an event should produce in the store `db`, independently of how it is built. */
  ghost predicate Records(db: Db, e: Incoming, r: EventRow) {
    && r.eventId == e.eventId && r.timestamp == e.timestamp
    && r.funnelStage == e.funnelStage && r.eventType == e.eventType
    && e.user.userId in db.userIndex && r.userId == db.userIndex[e.user.userId]
    && (r.engagementTopId.Some? <==> e.funnelStage == Top && HasKey(e.engagement, "actionTime"))
    && (r.engagementBottomId.Some? <==> e.funnelStage == Bottom)
    && (r.engagementTopId.Some? ==>
          r.engagementTopId.value in db.tops && Some(db.tops[r.engagementTopId.value]) == TopRowOf(e.engagement))
    && (r.engagementBottomId.Some? ==>
          r.engagementBottomId.value in db.bottoms && db.bottoms[r.engagementBottomId.value] == BottomRowOf(e.engagement))
  }

  // ---------------------------------------------------------------------------
  // Properties of `handleEvent`

  /** The store invariant survives every outcome, including a fault midway. */
  lemma ApplyPreservesValid(db: Db, e: Incoming, fault: Option<Step>)
    requires Valid(db)
    ensures Valid(Apply(db, e, fault).db)
  {
    if fault != Some(LocationStep) {
      UpsertLocationValid(db, e.user.location);
      var (db1, locationId) := UpsertLocation(db, e.user.location);
      if fault != Some(UserStep) {
        UpsertUserValid(db1, e.user, locationId);
        var (db2, userId) := UpsertUser(db1, e.user, locationId);
        EngageValid(db2, e.funnelStage, e.engagement, fault == Some(EngagementStep));
        var linked := Engage(db2, e.funnelStage, e.engagement, fault == Some(EngagementStep));
        if linked.Some? && fault != Some(EventStep) {
          var row := EventRow(e.eventId, e.timestamp, e.funnelStage, e.eventType,
                              userId, linked.value.topId, linked.value.bottomId);
          CreateEventValid(linked.value.db, row);
        }
      }
    }
  }

  /** `handleEvent` returns normally exactly when none of the store calls it makes fails. */
  lemma ApplyOk(db: Db, e: Incoming, fault: Option<Step>)
    ensures Apply(db, e, fault).ok <==> !FaultHits(e, fault)
  {
  }

  /**
   * When `handleEvent` throws, no event row is added; when it returns, exactly one
   * is, under a fresh id, and it is the row `Records` describes.
   */
  lemma ApplyEvents(db: Db, e: Incoming, fault: Option<Step>)
    requires EventIdsBelow(db)
    ensures var o := Apply(db, e, fault);
      && EventIdsBelow(o.db)
      && (!o.ok ==> o.db.events == db.events)
      && (o.ok ==> exists i :: i in o.db.events && i !in db.events &&
                     o.db.events == db.events[i := o.db.events[i]] && Records(o.db, e, o.db.events[i]))
  {
    if fault != Some(LocationStep) {
      var (db1, locationId) := UpsertLocation(db, e.user.location);
      if fault != Some(UserStep) {
        var (db2, userId) := UpsertUser(db1, e.user, locationId);
        var linked := Engage(db2, e.funnelStage, e.engagement, fault == Some(EngagementStep));
        if linked.Some? && fault != Some(EventStep) {
          var g := linked.value;
          var row := EventRow(e.eventId, e.timestamp, e.funnelStage, e.eventType,
                              userId, g.topId, g.bottomId);
          CreatedRowRecords(db2, e, userId, fault == Some(EngagementStep));
          var (db4, id) := CreateEvent(g.db, row);
          assert Apply(db, e, fault).db == db4;
          assert id !in db.events;
        }
      }
    }
  }

  /** The row the last step of `handleEvent` creates is the one `Records` describes. */
  lemma CreatedRowRecords(db2: Db, e: Incoming, userId: nat, fails: bool)
    requires e.user.userId in db2.userIndex && db2.userIndex[e.user.userId] == userId
    requires Engage(db2, e.funnelStage, e.engagement, fails).Some?
    ensures var g := Engage(db2, e.funnelStage, e.engagement, fails).value;
      var row := EventRow(e.eventId, e.timestamp, e.funnelStage, e.eventType, userId, g.topId, g.bottomId);
      var (db4, id) := CreateEvent(g.db, row);
      && db4.events == db2.events[id := row] && db2.nextId <= id < db4.nextId
      && Records(db4, e, db4.events[id])
  {
  }

  /**
   * Locations: an existing row and index entry are never changed, and the event's
   * (country, city) is indexed afterwards unless the location upsert itself failed.
   */
  lemma ApplyKeepsLocations(db: Db, e: Incoming, fault: Option<Step>)
    requires IdsBelow(db)
    ensures var o := Apply(db, e, fault);
      && (forall i :: i in db.locations ==> i in o.db.locations && o.db.locations[i] == db.locations[i])
      && (forall k :: k in db.locationIndex ==>
            k in o.db.locationIndex && o.db.locationIndex[k] == db.locationIndex[k])
      && o.db.locationIndex.Keys ==
           db.locationIndex.Keys + (if fault == Some(LocationStep) then {} else {e.user.location})
  {
    ApplyLocationTables(db, e, fault);
    if fault != Some(LocationStep) {
      var (db1, id) := UpsertLocation(db, e.user.location);
      if e.user.location !in db.locationIndex {
        assert id !in db.locations;
      }
      assert db1.locationIndex.Keys == db.locationIndex.Keys + {e.user.location};
    }
  }

  /** Only the location upsert writes the location tables. */
  lemma ApplyLocationTables(db: Db, e: Incoming, fault: Option<Step>)
    ensures var o := Apply(db, e, fault);
      var db1 := if fault == Some(LocationStep) then db else UpsertLocation(db, e.user.location).0;
      o.db.locations == db1.locations && o.db.locationIndex == db1.locationIndex
  {
    if fault !in {Some(LocationStep), Some(UserStep)} {
      var (db1, locationId) := UpsertLocation(db, e.user.location);
      var (db2, userId) := UpsertUser(db1, e.user, locationId);
      var linked := Engage(db2, e.funnelStage, e.engagement, fault == Some(EngagementStep));
    }
  }

  /**
   * Users: once the user upsert has run, the row indexed by `userId` holds the
   * event's latest attributes and its location's id, under its old id if it had
   * one; a fault before it leaves the users as they were.
   */
  lemma ApplyUpsertsUser(db: Db, e: Incoming, fault: Option<Step>)
    ensures var o := Apply(db, e, fault);
      && (fault !in {Some(LocationStep), Some(UserStep)} ==>
            && e.user.userId in o.db.userIndex && e.user.location in o.db.locationIndex
            && o.db.userIndex[e.user.userId] in o.db.users
            && o.db.users[o.db.userIndex[e.user.userId]] ==
                 UserRow(e.user.userId, e.user.name, e.user.age, ToPrismaGender(e.user.gender),
                         o.db.locationIndex[e.user.location])
            && (e.user.userId in db.userIndex ==>
                  o.db.userIndex[e.user.userId] == db.userIndex[e.user.userId]))
      && (fault in {Some(LocationStep), Some(UserStep)} ==>
            o.db.users == db.users && o.db.userIndex == db.userIndex)
  {
    if fault !in {Some(LocationStep), Some(UserStep)} {
      var (db1, locationId) := UpsertLocation(db, e.user.location);
      var (db2, userId) := UpsertUser(db1, e.user, locationId);
      var linked := Engage(db2, e.funnelStage, e.engagement, fault == Some(EngagementStep));
      var o := Apply(db, e, fault);
      assert o.db.users == db2.users && o.db.userIndex == db2.userIndex;
      assert o.db.locationIndex == db2.locationIndex;
    }
  }

  /** No user row but the event's own is changed. */
  lemma ApplyKeepsOtherUsers(db: Db, e: Incoming, fault: Option<Step>)
    requires IdsBelow(db) && Indexed(db)
    ensures var o := Apply(db, e, fault);
      forall k :: k in db.userIndex && k != e.user.userId ==>
        && k in o.db.userIndex && o.db.userIndex[k] == db.userIndex[k]
        && db.userIndex[k] in o.db.users && o.db.users[db.userIndex[k]] == db.users[db.userIndex[k]]
  {
    ApplyUserTables(db, e, fault);
    if fault !in {Some(LocationStep), Some(UserStep)} {
      var (db1, locationId) := UpsertLocation(db, e.user.location);
      var (db2, userId) := UpsertUser(db1, e.user, locationId);
      forall k | k in db.userIndex && k != e.user.userId
        ensures db.userIndex[k] != userId
      {
        if e.user.userId in db.userIndex {
          assert db.users[db.userIndex[e.user.userId]].userId == e.user.userId;
        }
      }
    }
  }

  /** Only the user upsert writes the user tables. */
  lemma ApplyUserTables(db: Db, e: Incoming, fault: Option<Step>)
    ensures var o := Apply(db, e, fault);
      var (db1, locationId) := UpsertLocation(db, e.user.location);
      var db2 := if fault in {Some(LocationStep), Some(UserStep)} then db
                 else UpsertUser(db1, e.user, locationId).0;
      o.db.users == db2.users && o.db.userIndex == db2.userIndex
  {
    if fault !in {Some(LocationStep), Some(UserStep)} {
      var (db1, locationId) := UpsertLocation(db, e.user.location);
      var (db2, userId) := UpsertUser(db1, e.user, locationId);
      var linked := Engage(db2, e.funnelStage, e.engagement, fault == Some(EngagementStep));
    }
  }

  /**
   * Not a transaction: when the event row's create fails, the location, the user
   * and the engagement row written before it stay.
   */
  lemma EventFaultLeavesEarlierWrites(db: Db, e: Incoming)
    requires IdsBelow(db)
    ensures var o := Apply(db, e, Some(EventStep));
      && !o.ok && o.db.events == db.events
      && e.user.location in o.db.locationIndex && e.user.userId in o.db.userIndex
      && (e.funnelStage == Bottom ==>
            exists i: nat :: i !in db.bottoms && o.db.bottoms == db.bottoms[i := BottomRowOf(e.engagement)])
      && (e.funnelStage == Top && HasKey(e.engagement, "actionTime") ==>
            exists i: nat :: i !in db.tops && o.db.tops == db.tops[i := TopRowOf(e.engagement).value])
  {
    var (db1, locationId) := UpsertLocation(db, e.user.location);
    var (db2, userId) := UpsertUser(db1, e.user, locationId);
    var g := Engage(db2, e.funnelStage, e.engagement, false).value;
    assert Apply(db, e, Some(EventStep)).db == g.db;
    if g.bottomId.Some? {
      assert g.bottomId.value !in db.bottoms;
    }
    if g.topId.Some? {
      assert g.topId.value !in db.tops;
    }
  }

  /**
   * Redelivery of an event already stored: locations and users end as after the
   * first delivery, but a second event row with the same `eventId` is created.
   */
  lemma RedeliveryDuplicatesEvent(db: Db, e: Incoming)
    requires EventIdsBelow(db)
    ensures var first := Apply(db, e, None);
      var second := Apply(first.db, e, None);
      && first.ok && second.ok
      && second.db.locations == first.db.locations && second.db.locationIndex == first.db.locationIndex
      && second.db.users == first.db.users && second.db.userIndex == first.db.userIndex
      && exists i, j :: i in second.db.events && j in second.db.events && i != j &&
           second.db.events[i].eventId == e.eventId && second.db.events[j].eventId == e.eventId
  {
    var first := Apply(db, e, None);
    ApplyOk(db, e, None);
    ApplyEvents(db, e, None);
    var i :| i in first.db.events && i !in db.events && Records(first.db, e, first.db.events[i]);
    var second := Apply(first.db, e, None);
    ApplyOk(first.db, e, None);
    ApplyEvents(first.db, e, None);
    var j :| j in second.db.events && j !in first.db.events &&
      second.db.events == first.db.events[j := second.db.events[j]] &&
      Records(second.db, e, second.db.events[j]);
    assert second.db.events[i] == first.db.events[i];
    ApplyUpsertsUser(db, e, None);
    ReapplyKeepsPeople(first.db, e);
  }

  /**
   * Once the event's location and user rows hold what the event says, handling it
   * again upserts both to what they already are.
   */
  lemma ReapplyKeepsPeople(db: Db, e: Incoming)
    requires e.user.userId in db.userIndex && e.user.location in db.locationIndex
    requires db.userIndex[e.user.userId] in db.users
    requires db.users[db.userIndex[e.user.userId]] ==
      UserRow(e.user.userId, e.user.name, e.user.age, ToPrismaGender(e.user.gender),
              db.locationIndex[e.user.location])
    ensures var o := Apply(db, e, None);
      && o.db.locations == db.locations && o.db.locationIndex == db.locationIndex
      && o.db.users == db.users && o.db.userIndex == db.userIndex
  {
    var (db1, locationId) := UpsertLocation(db, e.user.location);
    assert db1 == db;
    var (db2, userId) := UpsertUser(db1, e.user, locationId);
    assert db2.users == db.users;
    var linked := Engage(db2, e.funnelStage, e.engagement, false);
  }

  /** Two events from the same (country, city) resolve to one location row, whoever their users are. */
  lemma SharedLocationOneRow(db: Db, e1: Incoming, e2: Incoming)
    requires Valid(db)
    requires e1.user.location == e2.user.location && e1.user.userId != e2.user.userId
    ensures var first := Apply(db, e1, None);
      var second := Apply(first.db, e2, None);
      && second.db.locations == first.db.locations
      && e1.user.userId in second.db.userIndex && e2.user.userId in second.db.userIndex
      && second.db.userIndex[e1.user.userId] in second.db.users
      && second.db.userIndex[e2.user.userId] in second.db.users
      && second.db.users[second.db.userIndex[e1.user.userId]].locationId ==
         second.db.users[second.db.userIndex[e2.user.userId]].locationId
  {
    var first := Apply(db, e1, None);
    ApplyPreservesValid(db, e1, None);
    ApplyUpsertsUser(db, e1, None);
    ApplyUpsertsUser(first.db, e2, None);
    ApplyKeepsOtherUsers(first.db, e2, None);
    ApplyLocationTables(first.db, e2, None);
  }

  // ---------------------------------------------------------------------------
  // The message handler

  /** A decoded message together with the facebook event it holds, if it holds one. */
  datatype Received = Received(item: BatchItem, event: Option<Incoming>)

  function Receive(item: BatchItem): (r: Received)
    ensures r.item == item
    ensures r.event.Some? <==> ParseFacebookEvent(item.data).Some?
  {
    Received(item, IncomingOf(item.data))
  }

  /** Each decoded message of a batch, received in order. */
  function ReceivedAll(items: seq<BatchItem>): (r: seq<Received>)
    ensures |r| == |items|
  {
    if items == [] then [] else ReceivedAll(items[..|items| - 1]) + [Receive(items[|items| - 1])]
  }

  /**
   * `handleEvent` on a decoded payload: a payload that is not a facebook event
   * makes it throw.
   */
  function Handle(db: Db, event: Option<Incoming>, fault: Option<Step>): Outcome {
    match event
    case Some(e) => Apply(db, e, fault)
    case None => Outcome(db, false)
  }

  /** The handler passed to `subscribe`: count, handle, then ack or count a failure and log it. */
  function Handled(s: Snapshot<Db>, r: Received, fault: Option<Step>): Snapshot<Db> {
    var o := Handle(s.db, r.event, fault);
    Settle(s, o.db, o.ok, r.item)
  }

  /** The subscription feeding each decoded message, in order, to the handler. */
  function ConsumedAll(s: Snapshot<Db>, rs: seq<Received>, faults: map<nat, Step>): Snapshot<Db> {
    if rs == [] then s
    else
      var last := rs[|rs| - 1];
      Handled(ConsumedAll(s, rs[..|rs| - 1], faults), last, FaultOf(faults, last.item.msg))
  }

  /**
   * Whether the `j`-th message's `handleEvent` returns normally, run on the store
   * the messages before it have left.
   */
  predicate ProcessedAt(s: Snapshot<Db>, rs: seq<Received>, faults: map<nat, Step>, j: nat)
    requires j < |rs|
  {
    Handle(ConsumedAll(s, rs[..j], faults).db, rs[j].event, FaultOf(faults, rs[j].item.msg)).ok
  }

  /** For each message, whether it is processed. */
  function ProcessedFlags(s: Snapshot<Db>, rs: seq<Received>, faults: map<nat, Step>): (r: seq<bool>)
    ensures |r| == |rs|
    ensures forall j :: 0 <= j < |rs| ==> r[j] == ProcessedAt(s, rs, faults, j)
  {
    seq(|rs|, j requires 0 <= j < |rs| => ProcessedAt(s, rs, faults, j))
  }

  /** The stream sequence numbers of the processed messages, in delivery order. */
  function ProcessedSeqs(s: Snapshot<Db>, rs: seq<Received>, faults: map<nat, Step>): seq<nat> {
    Kept(StreamSeqs(rs), ProcessedFlags(s, rs, faults), |rs|)
  }

  /**
   * When no message is delivered twice in the run (its stream sequence numbers
   * are distinct), a message's number is among the processed ones exactly when
   * that message is processed.
   */
  lemma ProcessedSeqsMembers(s: Snapshot<Db>, rs: seq<Received>, faults: map<nat, Step>)
    requires forall i, j :: 0 <= i < j < |rs| ==> rs[i].item.msg.streamSeq != rs[j].item.msg.streamSeq
    ensures forall j :: 0 <= j < |rs| ==>
      (rs[j].item.msg.streamSeq in ProcessedSeqs(s, rs, faults) <==> ProcessedAt(s, rs, faults, j))
  {
    KeptMembers(StreamSeqs(rs), ProcessedFlags(s, rs, faults), |rs|);
  }

  /**
   * Every delivered message is counted accepted and then exactly one of processed
   * or failed; the new acks are exactly the sequence numbers of the processed
   * messages, in delivery order; the store stays valid.
   */
  lemma {:induction false} ConsumeAccounting(s: Snapshot<Db>, rs: seq<Received>, faults: map<nat, Step>)
    requires Valid(s.db)
    ensures var t := ConsumedAll(s, rs, faults);
      && t.accepted == s.accepted + |rs|
      && t.processed + t.failed == s.processed + s.failed + |rs|
      && t.processed >= s.processed && t.failed >= s.failed
      && |t.acked| == |s.acked| + (t.processed - s.processed)
      && t.acked == s.acked + ProcessedSeqs(s, rs, faults)
      && |t.errors| <= |s.errors| + (t.failed - s.failed)
      && Valid(t.db)
  {
    ConsumeAcks(s, rs, faults, |rs|);
    assert rs[..|rs|] == rs;
    if rs != [] {
      var init := rs[..|rs| - 1];
      var last := rs[|rs| - 1];
      ConsumeAccounting(s, init, faults);
      var mid := ConsumedAll(s, init, faults);
      if last.event.Some? {
        ApplyPreservesValid(mid.db, last.event.value, FaultOf(faults, last.item.msg));
      }
    }
  }

  /** The acks the first `n` messages add are the processed ones' sequence numbers, in order. */
  lemma {:induction false} ConsumeAcks(s: Snapshot<Db>, rs: seq<Received>, faults: map<nat, Step>, n: nat)
    requires n <= |rs|
    ensures ConsumedAll(s, rs[..n], faults).acked ==
      s.acked + Kept(StreamSeqs(rs), ProcessedFlags(s, rs, faults), n)
  {
    if n == 0 {
      assert rs[..0] == [];
    } else {
      ConsumeAcks(s, rs, faults, n - 1);
      assert ConsumedAll(s, rs[..n - 1], faults).acked ==
        s.acked + Kept(StreamSeqs(rs), ProcessedFlags(s, rs, faults), n - 1);
      LastAck(s, rs, faults, n);
    }
  }

  /** The `n`-th message is acked exactly when it is processed. */
  lemma LastAck(s: Snapshot<Db>, rs: seq<Received>, faults: map<nat, Step>, n: nat)
    requires 0 < n <= |rs|
    requires ConsumedAll(s, rs[..n - 1], faults).acked ==
      s.acked + Kept(StreamSeqs(rs), ProcessedFlags(s, rs, faults), n - 1)
    ensures ConsumedAll(s, rs[..n], faults).acked ==
      s.acked + Kept(StreamSeqs(rs), ProcessedFlags(s, rs, faults), n)
  {
    assert rs[..n][..n - 1] == rs[..n - 1];
  }

  /**
   * With no store fault and only well-formed facebook events, every message is
   * processed and acked, in delivery order, and nothing is counted failed.
   */
  lemma {:induction false} ConsumeAllAcked(s: Snapshot<Db>, rs: seq<Received>, faults: map<nat, Step>)
    requires forall j :: 0 <= j < |rs| ==> rs[j].event.Some? && rs[j].item.msg.streamSeq !in faults
    ensures var t := ConsumedAll(s, rs, faults);
      && t.processed == s.processed + |rs| && t.failed == s.failed && t.errors == s.errors
      && t.acked == s.acked + StreamSeqs(rs)
  {
    if rs != [] {
      var init := rs[..|rs| - 1];
      var last := rs[|rs| - 1];
      ConsumeAllAcked(s, init, faults);
      var mid := ConsumedAll(s, init, faults);
      assert FaultOf(faults, last.item.msg) == None;
      HandledAcks(mid, last);
    }
  }

  /** The stream sequence numbers of the messages, in delivery order. */
  function StreamSeqs(rs: seq<Received>): (r: seq<nat>)
    ensures |r| == |rs|
    ensures forall j :: 0 <= j < |rs| ==> r[j] == rs[j].item.msg.streamSeq
  {
    if rs == [] then [] else StreamSeqs(rs[..|rs| - 1]) + [rs[|rs| - 1].item.msg.streamSeq]
  }

  /** A well-formed event with no store fault is processed and acked. */
  lemma HandledAcks(s: Snapshot<Db>, r: Received)
    requires r.event.Some?
    ensures var t := Handled(s, r, None);
      && t.processed == s.processed + 1 && t.failed == s.failed && t.errors == s.errors
      && t.acked == s.acked + [r.item.msg.streamSeq]
  {
    ApplyOk(s.db, r.event.value, None);
  }

  /** Handling one more decoded message extends the run by one handler step. */
  lemma ConsumedAllSnoc(s: Snapshot<Db>, items: seq<BatchItem>, item: BatchItem, faults: map<nat, Step>)
    ensures ConsumedAll(s, ReceivedAll(items + [item]), faults) ==
      Handled(ConsumedAll(s, ReceivedAll(items), faults), Receive(item), FaultOf(faults, item.msg))
  {
    assert (items + [item])[..|items|] == items;
    var rs := ReceivedAll(items + [item]);
    assert rs[..|items|] == ReceivedAll(items);
  }

  class FbCollectorService {
    const nats: NatsService
    var db: Db
    var accepted: nat
    var processed: nat
    var failed: nat
    var acked: seq<nat>
    var errors: seq<FailureLog>

    constructor (nats: NatsService, db: Db)
      ensures this.nats == nats && this.db == db
      ensures accepted == 0 && processed == 0 && failed == 0 && acked == [] && errors == []
    {
      this.nats := nats;
      this.db := db;
      accepted, processed, failed := 0, 0, 0;
      acked, errors := [], [];
    }

    ghost function State(): Snapshot<Db>
      reads this
    {
      Snapshot(db, accepted, processed, failed, acked, errors)
    }

    /** Subscribes the handler to `events.facebook` through the durable consumer `fb-collector`. */
    method OnModuleInit(addFails: bool) returns (ok: bool)
      modifies nats`consumers
      ensures ok <==> (nats.Jsm().Success? && nats.Js().Success? &&
        (("EVENTS", "fb-collector") in old(nats.consumers) || (!addFails && "EVENTS" in nats.streams)))
      ensures nats.consumers ==
        (if nats.Jsm().Success? && ("EVENTS", "fb-collector") !in old(nats.consumers) &&
            !addFails && "EVENTS" in nats.streams
         then old(nats.consumers)[("EVENTS", "fb-collector") := ConsumerConfig("fb-collector", AckExplicit, "events.facebook")]
         else old(nats.consumers))
      ensures ok ==> ("EVENTS", "fb-collector") in nats.consumers
    {
      ok := nats.Subscribe("EVENTS", "events.facebook", "fb-collector", addFails);
    }

    /** `handleEvent`, one store call after another; `fault` names the call that throws. */
    method HandleEvent(e: Incoming, fault: Option<Step>) returns (ok: bool)
      modifies this`db
      ensures Outcome(db, ok) == Apply(old(db), e, fault)
    {
      if fault == Some(LocationStep) {
        return false;
      }
      var location := UpsertLocation(db, e.user.location);
      db := location.0;
      if fault == Some(UserStep) {
        return false;
      }
      var user := UpsertUser(db, e.user, location.1);
      db := user.0;
      var engagementTopId: Option<nat> := None;
      var engagementBottomId: Option<nat> := None;
      if e.funnelStage == Top {
        if HasKey(e.engagement, "actionTime") {
          if fault == Some(EngagementStep) {
            return false;
          }
          var top := CreateTop(db, TopRowOf(e.engagement).value);
          db := top.0;
          engagementTopId := Some(top.1);
        }
      } else {
        if fault == Some(EngagementStep) {
          return false;
        }
        var bottom := CreateBottom(db, BottomRowOf(e.engagement));
        db := bottom.0;
        engagementBottomId := Some(bottom.1);
      }
      if fault == Some(EventStep) {
        return false;
      }
      var created := CreateEvent(db, EventRow(e.eventId, e.timestamp, e.funnelStage, e.eventType,
                                              user.1, engagementTopId, engagementBottomId));
      db := created.0;
      ok := true;
    }

    /** `handleEvent` on the decoded payload: one that is not a facebook event throws. */
    method HandlePayload(event: Option<Incoming>, fault: Option<Step>) returns (ok: bool)
      modifies this`db
      ensures Outcome(db, ok) == Handle(old(db), event, fault)
    {
      ok := false;
      match event {
        case Some(e) =>
          ok := HandleEvent(e, fault);
        case None =>
      }
    }

    /** The handler, on one decoded message. */
    method OnMessage(data: Json, msg: Delivery, correlationId: Option<string>, fault: Option<Step>)
      modifies this`db, this`accepted, this`processed, this`failed, this`acked, this`errors
      ensures State() == Handled(old(State()), Receive(BatchItem(data, msg, correlationId)), fault)
    {
      accepted := accepted + 1;
      var received := Receive(BatchItem(data, msg, correlationId));
      var ok := HandlePayload(received.event, fault);
      if ok {
        processed := processed + 1;
        acked := acked + [msg.streamSeq];
      } else {
        failed := failed + 1;
        errors := errors + FailureEntries(data, correlationId);
      }
      assert State() == Settle(old(State()), db, ok, received.item);
    }

    /**
     * The subscription's delivery loop over the messages the consumer delivers:
     * each one that decodes goes to the handler, the others are skipped.
     */
    method Consume(deliveries: seq<Delivery>, faults: map<nat, Step>)
      modifies this`db, this`accepted, this`processed, this`failed, this`acked, this`errors
      ensures State() == ConsumedAll(old(State()), ReceivedAll(DecodedBatch(deliveries)), faults)
    {
      var i := 0;
      ghost var items: seq<BatchItem> := [];
      while i < |deliveries|
        invariant 0 <= i <= |deliveries|
        invariant items == DecodedBatch(deliveries[..i])
        invariant State() == ConsumedAll(old(State()), ReceivedAll(items), faults)
      {
        var d := deliveries[i];
        assert deliveries[..i + 1] == deliveries[..i] + [d];
        DecodedBatchSnoc(deliveries[..i], d);
        match ItemOf(d) {
          case Some(item) =>
            ConsumedAllSnoc(old(State()), items, item, faults);
            assert item == BatchItem(item.data, d, item.correlationId);
            OnMessage(item.data, item.msg, item.correlationId, FaultOf(faults, d));
            items := items + [item];
          case None =>
        }
        i := i + 1;
      }
      assert deliveries[..|deliveries|] == deliveries;
    }
  }
}
