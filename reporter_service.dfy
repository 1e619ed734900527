/**
 * The reporting service: it builds the store filters of the three reports from
 * a validated query, picks which sources a report covers, and aggregates what
 * the store returns (revenue sums, the five biggest cities, follower buckets
 * and averages).
 *
 * Timestamps and the query's `from` / `to` bounds are instants (`int`); amounts
 * are exact integers and averages exact reals.  The store's `groupBy` answers
 * and the user queries are inputs; `findMany` with a where clause is the filter
 * `FindMany`.
 */
module Reporter {
  import opened Wrappers
  import opened JsonValues
  import opened EventsSchema

  /** `Number.MAX_SAFE_INTEGER`, the upper bound of the last follower bucket. */
  const MaxSafeInteger: int := 9007199254740991

  /** How many cities `topCities` keeps. */
  const TopCityCount: nat := 5

  datatype Source = Facebook | Tiktok

  /** A report covers a source when no source is asked for, or that one is. */
  predicate Includes(source: Option<Source>, s: Source) {
    source.None? || source.value == s
  }

  datatype EventsQuery = EventsQuery(
    from: Option<int>, to: Option<int>, source: Option<Source>,
    funnelStage: Option<FunnelStage>, eventType: Option<string>)

  datatype RevenueQuery = RevenueQuery(
    from: Option<int>, to: Option<int>, source: Option<Source>, campaignId: Option<string>)

  datatype DemographicsQuery = DemographicsQuery(from: Option<int>, to: Option<int>, source: Option<Source>)

  // ---------------------------------------------------------------------------
  // Filters

  /** The `timestamp: { gte, lte }` part of a where clause. */
  datatype TimeRange = TimeRange(gte: Option<int>, lte: Option<int>)

  /** What a `timestamp` filter, present or not, lets through. */
  predicate InRange(ts: int, r: Option<TimeRange>) {
    r.None? ||
    ((r.value.gte.None? || r.value.gte.value <= ts) && (r.value.lte.None? || ts <= r.value.lte.value))
  }

  /** The instants a query's bounds ask for. */
  predicate Between(ts: int, from: Option<int>, to: Option<int>) {
    (from.None? || from.value <= ts) && (to.None? || ts <= to.value)
  }

  /**
   * The `timestamp` key every report builds: present iff a bound is given, with
   * `gte` and `lte` only for the bounds given.
   */
  method TimestampFilter(from: Option<int>, to: Option<int>) returns (r: Option<TimeRange>)
    ensures r.Some? <==> from.Some? || to.Some?
    ensures r.Some? ==> r.value.gte == from && r.value.lte == to
    ensures forall ts :: InRange(ts, r) <==> Between(ts, from, to)
  {
    r := None;
    if from.Some? || to.Some? {
      r := Some(TimeRange(None, None));
    }
    if from.Some? {
      r := Some(r.value.(gte := from));
    }
    if to.Some? {
      r := Some(r.value.(lte := to));
    }
  }

  /** An event row as the reports see it, with its bottom engagement's campaign and amount. */
  datatype EventView = EventView(
    timestamp: int, funnelStage: FunnelStage, eventType: string,
    campaignId: Option<string>, purchaseAmount: Option<int>)

  datatype EventsWhere = EventsWhere(
    timestamp: Option<TimeRange>, funnelStage: Option<FunnelStage>, eventType: Option<string>)

  predicate MatchesEvents(w: EventsWhere, v: EventView) {
    && InRange(v.timestamp, w.timestamp)
    && (w.funnelStage.None? || v.funnelStage == w.funnelStage.value)
    && (w.eventType.None? || v.eventType == w.eventType.value)
  }

  /** The rows an events query asks for: an empty `eventType` asks for any. */
  predicate EventsSelected(q: EventsQuery, v: EventView) {
    && Between(v.timestamp, q.from, q.to)
    && (q.funnelStage.None? || v.funnelStage == q.funnelStage.value)
    && (!Truthy(q.eventType) || v.eventType == q.eventType.value)
  }

  /** `baseWhere` of the events report. */
  method BuildEventsWhere(q: EventsQuery) returns (w: EventsWhere)
    ensures w.timestamp.Some? <==> q.from.Some? || q.to.Some?
    ensures w.funnelStage == q.funnelStage
    ensures w.eventType.Some? <==> Truthy(q.eventType)
    ensures forall v :: MatchesEvents(w, v) <==> EventsSelected(q, v)
  {
    var timestamp := TimestampFilter(q.from, q.to);
    w := EventsWhere(timestamp, None, None);
    if q.funnelStage.Some? {
      w := w.(funnelStage := q.funnelStage);
    }
    if Truthy(q.eventType) {
      w := w.(eventType := q.eventType);
    }
  }

  datatype RevenueWhere = RevenueWhere(
    eventType: string, timestamp: Option<TimeRange>, campaignId: Option<string>)

  /** A `campaignId` filter goes through the bottom engagement, so an event without one never matches. */
  predicate MatchesRevenue(w: RevenueWhere, v: EventView) {
    && v.eventType == w.eventType
    && InRange(v.timestamp, w.timestamp)
    && (w.campaignId.None? || v.campaignId == w.campaignId)
  }

  /** The event type that carries revenue for each source. */
  function PurchaseEventType(s: Source): string {
    match s
    case Facebook => FacebookEventTypeLiteral(CheckoutComplete)
    case Tiktok => TiktokEventTypeLiteral(Purchase)
  }

  /** The rows a revenue query asks for, for one source: the campaign only narrows facebook. */
  predicate RevenueSelected(q: RevenueQuery, s: Source, v: EventView) {
    && v.eventType == PurchaseEventType(s)
    && Between(v.timestamp, q.from, q.to)
    && (s == Facebook && Truthy(q.campaignId) ==> v.campaignId == q.campaignId)
  }

  /** `fbWhere` and `tkWhere` of the revenue report. */
  method BuildRevenueWheres(q: RevenueQuery) returns (fb: RevenueWhere, tk: RevenueWhere)
    ensures fb.eventType == "checkout.complete" && tk.eventType == "purchase"
    ensures fb.timestamp == tk.timestamp && (fb.timestamp.Some? <==> q.from.Some? || q.to.Some?)
    ensures fb.campaignId.Some? <==> Truthy(q.campaignId)
    ensures tk.campaignId.None?
    ensures forall v :: MatchesRevenue(fb, v) <==> RevenueSelected(q, Facebook, v)
    ensures forall v :: MatchesRevenue(tk, v) <==> RevenueSelected(q, Tiktok, v)
  {
    fb := RevenueWhere("checkout.complete", None, None);
    tk := RevenueWhere("purchase", None, None);
    var timestamp := TimestampFilter(q.from, q.to);
    fb := fb.(timestamp := timestamp);
    tk := tk.(timestamp := timestamp);
    if Truthy(q.campaignId) {
      fb := fb.(campaignId := q.campaignId);
    }
  }

  // ---------------------------------------------------------------------------
  // The events report

  datatype EventStat = EventStat(eventType: string, funnelStage: FunnelStage, count: nat)

  datatype EventsReport = EventsReport(facebook: Option<seq<EventStat>>, tiktok: Option<seq<EventStat>>)

  /**
   * `getEventsReport`: the where clause both sources are grouped under, and a
   * section per covered source holding the store's groups for it.
   */
  method GetEventsReport(q: EventsQuery, fbGroups: seq<EventStat>, tkGroups: seq<EventStat>)
    returns (w: EventsWhere, report: EventsReport)
    ensures forall v :: MatchesEvents(w, v) <==> EventsSelected(q, v)
    ensures report.facebook.Some? <==> Includes(q.source, Facebook)
    ensures report.tiktok.Some? <==> Includes(q.source, Tiktok)
    ensures report.facebook.Some? ==> report.facebook.value == fbGroups
    ensures report.tiktok.Some? ==> report.tiktok.value == tkGroups
  {
    w := BuildEventsWhere(q);
    report := EventsReport(None, None);
    if q.source.None? || q.source == Some(Facebook) {
      report := report.(facebook := Some(fbGroups));
    }
    if q.source.None? || q.source == Some(Tiktok) {
      report := report.(tiktok := Some(tkGroups));
    }
  }

  /** With no source asked for, both sections are present; with one, exactly that one. */
  lemma SourceSelection(source: Option<Source>)
    ensures source.None? ==> Includes(source, Facebook) && Includes(source, Tiktok)
    ensures source.Some? ==>
      (Includes(source, Facebook) != Includes(source, Tiktok)) && Includes(source, source.value)
  {
  }

  // ---------------------------------------------------------------------------
  // The revenue report

  /** `findMany` with a revenue where clause: the matching rows, in store order. */
  function FindMany(rows: seq<EventView>, w: RevenueWhere): (r: seq<EventView>)
    ensures |r| <= |rows|
    ensures forall v :: v in r ==> v in rows && MatchesRevenue(w, v)
  {
    if rows == [] then []
    else
      var init := FindMany(rows[..|rows| - 1], w);
      var last := rows[|rows| - 1];
      if MatchesRevenue(w, last) then init + [last] else init
  }

  /** The rows of one source a revenue query asks for, in store order. */
  ghost function RevenueRows(rows: seq<EventView>, q: RevenueQuery, s: Source): seq<EventView> {
    if rows == [] then []
    else
      var init := RevenueRows(rows[..|rows| - 1], q, s);
      var last := rows[|rows| - 1];
      if RevenueSelected(q, s, last) then init + [last] else init
  }

  /** The revenue filter selects exactly the rows the query asks for. */
  lemma {:induction false} FindManySelects(rows: seq<EventView>, w: RevenueWhere, q: RevenueQuery, s: Source)
    requires forall v :: MatchesRevenue(w, v) <==> RevenueSelected(q, s, v)
    ensures FindMany(rows, w) == RevenueRows(rows, q, s)
  {
    if rows != [] {
      FindManySelects(rows[..|rows| - 1], w, q, s);
    }
  }

  /** The amount a row adds: its bottom engagement's amount, or 0 without one. */
  function Amount(v: EventView): int {
    v.purchaseAmount.GetOr(0)
  }

  /** The `reduce` summing the amounts of the rows. */
  function Revenue(rows: seq<EventView>): int {
    if rows == [] then 0 else Revenue(rows[..|rows| - 1]) + Amount(rows[|rows| - 1])
  }

  /** Revenue adds up over consecutive parts of the rows. */
  lemma {:induction false} RevenueAppend(a: seq<EventView>, b: seq<EventView>)
    ensures Revenue(a + b) == Revenue(a) + Revenue(b)
  {
    if b == [] {
      assert a + b == a;
    } else {
      assert (a + b)[..|a + b| - 1] == a + b[..|b| - 1];
      assert (a + b)[|a + b| - 1] == b[|b| - 1];
      RevenueAppend(a, b[..|b| - 1]);
    }
  }

  /** Rows without a bottom engagement or without an amount contribute nothing. */
  lemma {:induction false} RevenueWithoutAmounts(rows: seq<EventView>)
    requires forall i :: 0 <= i < |rows| ==> rows[i].purchaseAmount.None?
    ensures Revenue(rows) == 0
  {
    if rows != [] {
      RevenueWithoutAmounts(rows[..|rows| - 1]);
    }
  }

  /** With non-negative amounts, the revenue is at least every single row's amount. */
  lemma {:induction false} RevenueBoundsAmounts(rows: seq<EventView>)
    requires forall i :: 0 <= i < |rows| ==> Amount(rows[i]) >= 0
    ensures Revenue(rows) >= 0
    ensures forall i :: 0 <= i < |rows| ==> Amount(rows[i]) <= Revenue(rows)
  {
    if rows != [] {
      RevenueBoundsAmounts(rows[..|rows| - 1]);
    }
  }

  datatype RevenueStat = RevenueStat(facebook: int, tiktok: int, total: int)

  /**
   * `getRevenueReport` over the two event tables: each covered source's revenue
   * over the rows its query asks for, 0 for a source not covered, and their total.
   */
  method GetRevenueReport(q: RevenueQuery, fbEvents: seq<EventView>, tkEvents: seq<EventView>)
    returns (stat: RevenueStat)
    ensures stat.total == stat.facebook + stat.tiktok
    ensures stat.facebook == (if Includes(q.source, Facebook) then Revenue(RevenueRows(fbEvents, q, Facebook)) else 0)
    ensures stat.tiktok == (if Includes(q.source, Tiktok) then Revenue(RevenueRows(tkEvents, q, Tiktok)) else 0)
  {
    var fbWhere, tkWhere := BuildRevenueWheres(q);
    var facebookRevenue := 0;
    var tiktokRevenue := 0;
    if q.source.None? || q.source == Some(Facebook) {
      FindManySelects(fbEvents, fbWhere, q, Facebook);
      facebookRevenue := Revenue(FindMany(fbEvents, fbWhere));
    }
    if q.source.None? || q.source == Some(Tiktok) {
      FindManySelects(tkEvents, tkWhere, q, Tiktok);
      tiktokRevenue := Revenue(FindMany(tkEvents, tkWhere));
    }
    stat := RevenueStat(facebookRevenue, tiktokRevenue, facebookRevenue + tiktokRevenue);
  }

  // ---------------------------------------------------------------------------
  // Facebook demographics

  /** One row of the store's `groupBy` on gender: its count and average age, which may be missing. */
  datatype GenderGroup = GenderGroup(gender: string, count: nat, avgAge: Option<real>)

  datatype GenderStat = GenderStat(gender: string, count: nat, avgAge: real)

  /** `byGender`: the groups in order, a missing average age reported as 0. */
  function ByGender(groups: seq<GenderGroup>): (r: seq<GenderStat>)
    ensures |r| == |groups|
    ensures forall i :: 0 <= i < |groups| ==>
      r[i].gender == groups[i].gender && r[i].count == groups[i].count &&
      (groups[i].avgAge.None? ==> r[i].avgAge == 0.0) &&
      (groups[i].avgAge.Some? ==> r[i].avgAge == groups[i].avgAge.value)
  {
    seq(|groups|, i requires 0 <= i < |groups| =>
      GenderStat(groups[i].gender, groups[i].count, groups[i].avgAge.GetOr(0.0)))
  }

  /** A location with the number of users living there. */
  datatype CityCount = CityCount(country: string, city: string, users: nat)

  predicate NonIncreasing(s: seq<CityCount>) {
    forall i, j :: 0 <= i < j < |s| ==> s[i].users >= s[j].users
  }

  /** Inserts a location before the first one with fewer users. */
  function Insert(c: CityCount, s: seq<CityCount>): (r: seq<CityCount>)
    ensures |r| == |s| + 1
  {
    if s == [] || c.users >= s[0].users then [c] + s
    else [s[0]] + Insert(c, s[1..])
  }

  /** The sort by descending user count, stable like `Array.prototype.sort`. */
  function SortByUsers(l: seq<CityCount>): (r: seq<CityCount>)
    ensures |r| == |l|
  {
    if l == [] then [] else Insert(l[0], SortByUsers(l[1..]))
  }

  /** Insertion adds the one location and loses none. */
  lemma {:induction false} InsertPermutes(c: CityCount, s: seq<CityCount>)
    ensures multiset(Insert(c, s)) == multiset(s) + multiset{c}
  {
    if s != [] && c.users < s[0].users {
      InsertPermutes(c, s[1..]);
      assert s == [s[0]] + s[1..];
    }
  }

  /** A location at least as large as every element of a sorted sequence can head it. */
  lemma ConsSorted(x: CityCount, s: seq<CityCount>)
    requires NonIncreasing(s)
    requires forall j :: 0 <= j < |s| ==> s[j].users <= x.users
    ensures NonIncreasing([x] + s)
  {
    forall i, j | 0 <= i < j < |[x] + s| ensures ([x] + s)[i].users >= ([x] + s)[j].users {
      if i > 0 {
        assert ([x] + s)[i] == s[i - 1];
      }
      assert ([x] + s)[j] == s[j - 1];
    }
  }

  /** Insertion into a sorted sequence keeps it sorted. */
  lemma {:induction false} InsertSorted(c: CityCount, s: seq<CityCount>)
    requires NonIncreasing(s)
    ensures NonIncreasing(Insert(c, s))
  {
    if s == [] || c.users >= s[0].users {
      ConsSorted(c, s);
    } else {
      var rest := Insert(c, s[1..]);
      InsertSorted(c, s[1..]);
      InsertPermutes(c, s[1..]);
      forall j | 0 <= j < |rest| ensures rest[j].users <= s[0].users {
        assert rest[j] in multiset(rest);
        if rest[j] != c {
          assert rest[j] in multiset(s[1..]);
          var k :| 0 <= k < |s[1..]| && s[1..][k] == rest[j];
          assert s[1 + k] == rest[j];
        }
      }
      ConsSorted(s[0], rest);
    }
  }

  /** The sort orders by non-increasing user count and is a permutation. */
  lemma {:induction false} SortByUsersSorted(l: seq<CityCount>)
    ensures NonIncreasing(SortByUsers(l))
    ensures multiset(SortByUsers(l)) == multiset(l)
  {
    if l != [] {
      SortByUsersSorted(l[1..]);
      InsertSorted(l[0], SortByUsers(l[1..]));
      InsertPermutes(l[0], SortByUsers(l[1..]));
      assert l == [l[0]] + l[1..];
    }
  }

  /** `topCities`: all locations sorted by user count, the first five kept. */
  function TopCities(locations: seq<CityCount>): seq<CityCount> {
    var sorted := SortByUsers(locations);
    if |sorted| <= TopCityCount then sorted else sorted[..TopCityCount]
  }

  /**
   * Cutting a sorted arrangement of `locations` at `n`: the head stays sorted, is
   * drawn from `locations`, and nothing left out outnumbers a location kept.
   */
  lemma SortedCut(locations: seq<CityCount>, sorted: seq<CityCount>, n: nat)
    requires NonIncreasing(sorted) && multiset(sorted) == multiset(locations) && n <= |sorted|
    ensures NonIncreasing(sorted[..n])
    ensures multiset(sorted[..n]) <= multiset(locations)
    ensures forall c :: c in multiset(locations) - multiset(sorted[..n]) ==>
      forall k :: 0 <= k < n ==> c.users <= sorted[k].users
  {
    assert sorted == sorted[..n] + sorted[n..];
    assert multiset(locations) - multiset(sorted[..n]) == multiset(sorted[n..]);
    forall c | c in multiset(sorted[n..]) ensures forall k :: 0 <= k < n ==> c.users <= sorted[k].users {
      var j :| 0 <= j < |sorted[n..]| && sorted[n..][j] == c;
      assert sorted[n + j] == c;
    }
  }

  /**
   * `topCities` holds min(5, n) locations, all from the input, in non-increasing
   * order of users, and no location left out has more users than one kept.
   */
  lemma TopCitiesAreTop(locations: seq<CityCount>)
    ensures |TopCities(locations)| == (if |locations| <= TopCityCount then |locations| else TopCityCount)
    ensures NonIncreasing(TopCities(locations))
    ensures multiset(TopCities(locations)) <= multiset(locations)
    ensures forall c :: c in multiset(locations) - multiset(TopCities(locations)) ==>
      forall k :: 0 <= k < |TopCities(locations)| ==> c.users <= TopCities(locations)[k].users
  {
    var sorted := SortByUsers(locations);
    SortByUsersSorted(locations);
    var n := if |sorted| <= TopCityCount then |sorted| else TopCityCount;
    SortedCut(locations, sorted, n);
    assert TopCities(locations) == sorted[..n];
  }

  // ---------------------------------------------------------------------------
  // Tiktok demographics

  datatype Bucket = Bucket(name: string, min: int, max: int)

  /** The follower ranges, in report order. */
  const Buckets: seq<Bucket> := [
    Bucket("<100", 0, 99), Bucket("100-999", 100, 999),
    Bucket("1000-9999", 1000, 9999), Bucket("10k+", 10000, MaxSafeInteger)]

  predicate InBucket(followers: int, b: Bucket) {
    b.min <= followers <= b.max
  }

  /** The `filter(...).length` of one bucket over the users' follower counts. */
  function CountIn(followers: seq<int>, b: Bucket): (r: nat)
    ensures r <= |followers|
  {
    if followers == [] then 0
    else CountIn(followers[..|followers| - 1], b) + (if InBucket(followers[|followers| - 1], b) then 1 else 0)
  }

  datatype FollowerRange = FollowerRange(range: string, count: nat)

  /** `byFollowersRange`: one entry per bucket, in the fixed order, with its count. */
  function FollowersByRange(followers: seq<int>): (r: seq<FollowerRange>)
    ensures |r| == |Buckets|
    ensures forall i :: 0 <= i < |Buckets| ==> r[i] == FollowerRange(Buckets[i].name, CountIn(followers, Buckets[i]))
  {
    seq(|Buckets|, i requires 0 <= i < |Buckets| =>
      FollowerRange(Buckets[i].name, CountIn(followers, Buckets[i])))
  }

  /** The labels come out in the order `<100`, `100-999`, `1000-9999`, `10k+`. */
  lemma FollowerRangeLabels(followers: seq<int>)
    ensures var r := FollowersByRange(followers);
      r[0].range == "<100" && r[1].range == "100-999" && r[2].range == "1000-9999" && r[3].range == "10k+"
  {
  }

  /** A follower count between 0 and `MAX_SAFE_INTEGER` lies in exactly one bucket. */
  lemma OneBucket(f: int)
    requires 0 <= f <= MaxSafeInteger
    ensures exists i :: 0 <= i < |Buckets| && InBucket(f, Buckets[i])
    ensures forall i, j :: (0 <= i < |Buckets| && 0 <= j < |Buckets| &&
      InBucket(f, Buckets[i]) && InBucket(f, Buckets[j])) ==> i == j
  {
    if f <= 99 {
      assert InBucket(f, Buckets[0]);
    } else if f <= 999 {
      assert InBucket(f, Buckets[1]);
    } else if f <= 9999 {
      assert InBucket(f, Buckets[2]);
    } else {
      assert InBucket(f, Buckets[3]);
    }
  }

  /** The bucket counts add up to the number of users when every count is in range. */
  lemma {:induction false} BucketCountsSum(followers: seq<int>)
    requires forall k :: 0 <= k < |followers| ==> 0 <= followers[k] <= MaxSafeInteger
    ensures CountIn(followers, Buckets[0]) + CountIn(followers, Buckets[1]) +
            CountIn(followers, Buckets[2]) + CountIn(followers, Buckets[3]) == |followers|
  {
    if followers != [] {
      BucketCountsSum(followers[..|followers| - 1]);
    }
  }

  function SumFollowers(followers: seq<int>): int {
    if followers == [] then 0 else SumFollowers(followers[..|followers| - 1]) + followers[|followers| - 1]
  }

  /** `avgFollowers`: the mean follower count, 0 when there are no users. */
  function AvgFollowers(followers: seq<int>): (r: real)
    ensures followers == [] ==> r == 0.0
  {
    if |followers| == 0 then 0.0 else SumFollowers(followers) as real / |followers| as real
  }

  lemma {:induction false} SumFollowersBounds(followers: seq<int>, lo: int, hi: int)
    requires forall k :: 0 <= k < |followers| ==> lo <= followers[k] <= hi
    ensures |followers| * lo <= SumFollowers(followers) <= |followers| * hi
  {
    if followers != [] {
      SumFollowersBounds(followers[..|followers| - 1], lo, hi);
    }
  }

  /** The mean lies between the smallest and the largest bound of the follower counts. */
  lemma AvgFollowersBetween(followers: seq<int>, lo: int, hi: int)
    requires |followers| > 0
    requires forall k :: 0 <= k < |followers| ==> lo <= followers[k] <= hi
    ensures lo as real <= AvgFollowers(followers) <= hi as real
  {
    SumFollowersBounds(followers, lo, hi);
    var n := |followers| as real;
    var s := SumFollowers(followers) as real;
    assert n * (lo as real) <= s <= n * (hi as real);
    assert AvgFollowers(followers) == s / n;
    assert s / n * n == s;
  }

  /** Four users with 10, 200, 1500 and 11000 followers: one in each bucket, averaging 3177.5. */
  lemma FollowerExample()
    ensures var r := FollowersByRange([10, 200, 1500, 11000]);
      r[0].count == 1 && r[1].count == 1 && r[2].count == 1 && r[3].count == 1
    ensures AvgFollowers([10, 200, 1500, 11000]) == 3177.5
  {
    var f := [10, 200, 1500, 11000];
    assert f[..3] == [10, 200, 1500] && f[..3][..2] == [10, 200] && f[..3][..2][..1] == [10];
    forall b: Bucket
      ensures CountIn(f, b) == (if InBucket(10, b) then 1 else 0) + (if InBucket(200, b) then 1 else 0)
        + (if InBucket(1500, b) then 1 else 0) + (if InBucket(11000, b) then 1 else 0)
    {
      assert CountIn([10], b) == (if InBucket(10, b) then 1 else 0);
      assert CountIn([10, 200], b) == CountIn([10], b) + (if InBucket(200, b) then 1 else 0);
      assert CountIn([10, 200, 1500], b) == CountIn([10, 200], b) + (if InBucket(1500, b) then 1 else 0);
    }
    assert SumFollowers(f) == 12710 by {
      assert SumFollowers([10]) == 10;
      assert SumFollowers([10, 200]) == 210;
      assert SumFollowers([10, 200, 1500]) == 1710;
    }
  }

  datatype FacebookDemographics = FacebookDemographics(byGender: seq<GenderStat>, topCities: seq<CityCount>)

  datatype TiktokDemographics = TiktokDemographics(avgFollowers: real, byFollowersRange: seq<FollowerRange>)

  datatype DemographicsReport = DemographicsReport(
    facebook: Option<FacebookDemographics>, tiktok: Option<TiktokDemographics>)

  /**
   * `getDemographicsReport`: the event filter the user queries apply, and a section
   * per covered source.  The cities come from all locations, whatever the bounds.
   */
  method GetDemographicsReport(q: DemographicsQuery, genderGroups: seq<GenderGroup>,
                               locations: seq<CityCount>, tkFollowers: seq<int>)
    returns (eventWhere: Option<TimeRange>, report: DemographicsReport)
    ensures forall ts :: InRange(ts, eventWhere) <==> Between(ts, q.from, q.to)
    ensures report.facebook.Some? <==> Includes(q.source, Facebook)
    ensures report.tiktok.Some? <==> Includes(q.source, Tiktok)
    ensures report.facebook.Some? ==>
      report.facebook.value == FacebookDemographics(ByGender(genderGroups), TopCities(locations))
    ensures report.tiktok.Some? ==>
      report.tiktok.value == TiktokDemographics(AvgFollowers(tkFollowers), FollowersByRange(tkFollowers))
  {
    eventWhere := TimestampFilter(q.from, q.to);
    report := DemographicsReport(None, None);
    if q.source.None? || q.source == Some(Facebook) {
      report := report.(facebook := Some(FacebookDemographics(ByGender(genderGroups), TopCities(locations))));
    }
    if q.source.None? || q.source == Some(Tiktok) {
      var avgFollowers := AvgFollowers(tkFollowers);
      report := report.(tiktok := Some(TiktokDemographics(avgFollowers, FollowersByRange(tkFollowers))));
    }
  }
}
