/**
 * The event schema shared by the gateway and the collectors: a union of a
 * facebook and a tiktok event, discriminated by `source`, each with closed
 * literal sets for its enumerated fields.  The typed datatypes are what a
 * successful parse yields; the Parse functions decide acceptance of a raw
 * JSON value the way the schema does (unknown keys are ignored, every declared
 * key must be present, `nullable` admits `null` but not a missing key, a union
 * takes its first matching member).
 */
module EventsSchema {
  import opened Wrappers
  import opened JsonValues

  // ---------------------------------------------------------------------------
  // Primitive field schemas

  /** `z.string()` on an object member. */
  function ParseString(v: Option<Json>): (r: Option<string>)
    ensures r.Some? <==> v.Some? && v.value.Str?
    ensures r.Some? ==> v == Some(Str(r.value))
  {
    match v
    case Some(Str(s)) => Some(s)
    case _ => None
  }

  /** `z.string().nullable()`: a string or `null`, but not a missing member. */
  function ParseNullableString(v: Option<Json>): (r: Option<Option<string>>)
    ensures r.Some? <==> v.Some? && (v.value.Str? || v.value.Null?)
    ensures r.Some? ==> v == Some(NullableJson(r.value))
  {
    match v
    case Some(Str(s)) => Some(Some(s))
    case Some(Null) => Some(None)
    case _ => None
  }

  function NullableJson(s: Option<string>): Json {
    match s
    case Some(x) => Str(x)
    case None => Null
  }

  /** `z.number()` (integers only in this model). */
  function ParseNumber(v: Option<Json>): (r: Option<int>)
    ensures r.Some? <==> v.Some? && v.value.Num?
    ensures r.Some? ==> v == Some(Num(r.value))
  {
    match v
    case Some(Num(n)) => Some(n)
    case _ => None
  }

  /** `z.object(...)` first demands a plain object (not null, not an array). */
  predicate IsObject(v: Option<Json>) {
    v.Some? && v.value.Obj?
  }

  /** True when `v` is one of the string literals of `literals`. */
  predicate IsLiteralOf(v: Option<Json>, literals: set<string>) {
    v.Some? && v.value.Str? && v.value.s in literals
  }

  // ---------------------------------------------------------------------------
  // Literal unions

  datatype FunnelStage = Top | Bottom

  function FunnelStageLiteral(f: FunnelStage): string {
    match f
    case Top => "top"
    case Bottom => "bottom"
  }

  const FunnelStages: set<string> := {"top", "bottom"}

  function ParseFunnelStage(v: Option<Json>): (r: Option<FunnelStage>)
    ensures r.Some? <==> IsLiteralOf(v, FunnelStages)
    ensures r.Some? ==> v == Some(Str(FunnelStageLiteral(r.value)))
  {
    match v
    case Some(Str(s)) =>
      if s == "top" then Some(Top)
      else if s == "bottom" then Some(Bottom)
      else None
    case _ => None
  }

  datatype FacebookEventType =
    | AdView | PageLike | FacebookComment | FacebookVideoView
    | AdClick | FormSubmission | CheckoutComplete
  {
    predicate IsTop() { AdView? || PageLike? || FacebookComment? || FacebookVideoView? }
  }

  const FacebookTopEventTypes: set<string> := {"ad.view", "page.like", "comment", "video.view"}
  const FacebookBottomEventTypes: set<string> := {"ad.click", "form.submission", "checkout.complete"}

  function FacebookEventTypeLiteral(t: FacebookEventType): string {
    match t
    case AdView => "ad.view"
    case PageLike => "page.like"
    case FacebookComment => "comment"
    case FacebookVideoView => "video.view"
    case AdClick => "ad.click"
    case FormSubmission => "form.submission"
    case CheckoutComplete => "checkout.complete"
  }

  /** The facebook event type accepts exactly the top literals and the bottom literals. */
  function ParseFacebookEventType(v: Option<Json>): (r: Option<FacebookEventType>)
    ensures r.Some? <==> IsLiteralOf(v, FacebookTopEventTypes + FacebookBottomEventTypes)
    ensures r.Some? ==> v == Some(Str(FacebookEventTypeLiteral(r.value)))
    ensures r.Some? ==> (r.value.IsTop() <==> v.value.s in FacebookTopEventTypes)
  {
    match v
    case Some(Str(s)) =>
      if s == "ad.view" then Some(AdView)
      else if s == "page.like" then Some(PageLike)
      else if s == "comment" then Some(FacebookComment)
      else if s == "video.view" then Some(FacebookVideoView)
      else if s == "ad.click" then Some(AdClick)
      else if s == "form.submission" then Some(FormSubmission)
      else if s == "checkout.complete" then Some(CheckoutComplete)
      else None
    case _ => None
  }

  datatype TiktokEventType =
    | TiktokVideoView | Like | Share | TiktokComment
    | ProfileVisit | Purchase | Follow
  {
    predicate IsTop() { TiktokVideoView? || Like? || Share? || TiktokComment? }
  }

  const TiktokTopEventTypes: set<string> := {"video.view", "like", "share", "comment"}
  const TiktokBottomEventTypes: set<string> := {"profile.visit", "purchase", "follow"}

  function TiktokEventTypeLiteral(t: TiktokEventType): string {
    match t
    case TiktokVideoView => "video.view"
    case Like => "like"
    case Share => "share"
    case TiktokComment => "comment"
    case ProfileVisit => "profile.visit"
    case Purchase => "purchase"
    case Follow => "follow"
  }

  /** The tiktok event type accepts exactly the top literals and the bottom literals. */
  function ParseTiktokEventType(v: Option<Json>): (r: Option<TiktokEventType>)
    ensures r.Some? <==> IsLiteralOf(v, TiktokTopEventTypes + TiktokBottomEventTypes)
    ensures r.Some? ==> v == Some(Str(TiktokEventTypeLiteral(r.value)))
    ensures r.Some? ==> (r.value.IsTop() <==> v.value.s in TiktokTopEventTypes)
  {
    match v
    case Some(Str(s)) =>
      if s == "video.view" then Some(TiktokVideoView)
      else if s == "like" then Some(Like)
      else if s == "share" then Some(Share)
      else if s == "comment" then Some(TiktokComment)
      else if s == "profile.visit" then Some(ProfileVisit)
      else if s == "purchase" then Some(Purchase)
      else if s == "follow" then Some(Follow)
      else None
    case _ => None
  }

  datatype Gender = Male | Female | NonBinary

  const Genders: set<string> := {"male", "female", "non-binary"}

  function GenderLiteral(g: Gender): string {
    match g
    case Male => "male"
    case Female => "female"
    case NonBinary => "non-binary"
  }

  function ParseGender(v: Option<Json>): (r: Option<Gender>)
    ensures r.Some? <==> IsLiteralOf(v, Genders)
    ensures r.Some? ==> v == Some(Str(GenderLiteral(r.value)))
  {
    match v
    case Some(Str(s)) =>
      if s == "male" then Some(Male)
      else if s == "female" then Some(Female)
      else if s == "non-binary" then Some(NonBinary)
      else None
    case _ => None
  }

  datatype Referrer = Newsfeed | Marketplace | Groups

  const Referrers: set<string> := {"newsfeed", "marketplace", "groups"}

  function ReferrerLiteral(x: Referrer): string {
    match x
    case Newsfeed => "newsfeed"
    case Marketplace => "marketplace"
    case Groups => "groups"
  }

  function ParseReferrer(v: Option<Json>): (r: Option<Referrer>)
    ensures r.Some? <==> IsLiteralOf(v, Referrers)
    ensures r.Some? ==> v == Some(Str(ReferrerLiteral(r.value)))
  {
    match v
    case Some(Str(s)) =>
      if s == "newsfeed" then Some(Newsfeed)
      else if s == "marketplace" then Some(Marketplace)
      else if s == "groups" then Some(Groups)
      else None
    case _ => None
  }

  datatype ClickPosition = TopLeft | BottomRight | Center

  const ClickPositions: set<string> := {"top_left", "bottom_right", "center"}

  function ClickPositionLiteral(x: ClickPosition): string {
    match x
    case TopLeft => "top_left"
    case BottomRight => "bottom_right"
    case Center => "center"
  }

  function ParseClickPosition(v: Option<Json>): (r: Option<ClickPosition>)
    ensures r.Some? <==> IsLiteralOf(v, ClickPositions)
    ensures r.Some? ==> v == Some(Str(ClickPositionLiteral(r.value)))
  {
    match v
    case Some(Str(s)) =>
      if s == "top_left" then Some(TopLeft)
      else if s == "bottom_right" then Some(BottomRight)
      else if s == "center" then Some(Center)
      else None
    case _ => None
  }

  datatype FacebookDevice = Mobile | Desktop

  const FacebookDevices: set<string> := {"mobile", "desktop"}

  function FacebookDeviceLiteral(x: FacebookDevice): string {
    match x
    case Mobile => "mobile"
    case Desktop => "desktop"
  }

  function ParseFacebookDevice(v: Option<Json>): (r: Option<FacebookDevice>)
    ensures r.Some? <==> IsLiteralOf(v, FacebookDevices)
    ensures r.Some? ==> v == Some(Str(FacebookDeviceLiteral(r.value)))
  {
    match v
    case Some(Str(s)) =>
      if s == "mobile" then Some(Mobile)
      else if s == "desktop" then Some(Desktop)
      else None
    case _ => None
  }

  datatype Browser = Chrome | Firefox | Safari

  const Browsers: set<string> := {"Chrome", "Firefox", "Safari"}

  function BrowserLiteral(x: Browser): string {
    match x
    case Chrome => "Chrome"
    case Firefox => "Firefox"
    case Safari => "Safari"
  }

  function ParseBrowser(v: Option<Json>): (r: Option<Browser>)
    ensures r.Some? <==> IsLiteralOf(v, Browsers)
    ensures r.Some? ==> v == Some(Str(BrowserLiteral(r.value)))
  {
    match v
    case Some(Str(s)) =>
      if s == "Chrome" then Some(Chrome)
      else if s == "Firefox" then Some(Firefox)
      else if s == "Safari" then Some(Safari)
      else None
    case _ => None
  }

  datatype TiktokDevice = Android | IOS | DesktopApp

  const TiktokDevices: set<string> := {"Android", "iOS", "Desktop"}

  function TiktokDeviceLiteral(x: TiktokDevice): string {
    match x
    case Android => "Android"
    case IOS => "iOS"
    case DesktopApp => "Desktop"
  }

  function ParseTiktokDevice(v: Option<Json>): (r: Option<TiktokDevice>)
    ensures r.Some? <==> IsLiteralOf(v, TiktokDevices)
    ensures r.Some? ==> v == Some(Str(TiktokDeviceLiteral(r.value)))
  {
    match v
    case Some(Str(s)) =>
      if s == "Android" then Some(Android)
      else if s == "iOS" then Some(IOS)
      else if s == "Desktop" then Some(DesktopApp)
      else None
    case _ => None
  }

  // ---------------------------------------------------------------------------
  // Facebook objects

  datatype Location = Location(country: string, city: string)

  datatype FacebookUser = FacebookUser(
    userId: string, name: string, age: int, gender: Gender, location: Location)

  /** The two engagement shapes; which one an event carries is not tied to its stage. */
  datatype FacebookEngagement =
    | FacebookTop(actionTime: string, referrer: Referrer, videoId: Option<string>)
    | FacebookBottom(adId: string, campaignId: string, clickPosition: ClickPosition,
                     device: FacebookDevice, browser: Browser, purchaseAmount: Option<string>)

  datatype FacebookEvent = FacebookEvent(
    eventId: string, timestamp: string, funnelStage: FunnelStage,
    eventType: FacebookEventType, user: FacebookUser, engagement: FacebookEngagement)

  function ParseLocation(v: Option<Json>): (r: Option<Location>)
    ensures r.Some? <==> IsObject(v) && ParseString(Member(v, "country")).Some? &&
                         ParseString(Member(v, "city")).Some?
    ensures r.Some? ==>
      Member(v, "country") == Some(Str(r.value.country)) && Member(v, "city") == Some(Str(r.value.city))
  {
    if !IsObject(v) then None
    else
      var country :- ParseString(Member(v, "country"));
      var city :- ParseString(Member(v, "city"));
      Some(Location(country, city))
  }

  function ParseFacebookUser(v: Option<Json>): (r: Option<FacebookUser>)
    ensures r.Some? <==>
      && IsObject(v) && ParseString(Member(v, "userId")).Some? && ParseString(Member(v, "name")).Some?
      && ParseNumber(Member(v, "age")).Some? && ParseGender(Member(v, "gender")).Some?
      && ParseLocation(Member(v, "location")).Some?
    ensures r.Some? ==>
      && Member(v, "userId") == Some(Str(r.value.userId)) && Member(v, "name") == Some(Str(r.value.name))
      && Member(v, "age") == Some(Num(r.value.age))
      && Member(v, "gender") == Some(Str(GenderLiteral(r.value.gender)))
      && ParseLocation(Member(v, "location")) == Some(r.value.location)
  {
    if !IsObject(v) then None
    else
      var userId :- ParseString(Member(v, "userId"));
      var name :- ParseString(Member(v, "name"));
      var age :- ParseNumber(Member(v, "age"));
      var gender :- ParseGender(Member(v, "gender"));
      var location :- ParseLocation(Member(v, "location"));
      Some(FacebookUser(userId, name, age, gender, location))
  }

  function ParseFacebookTop(v: Option<Json>): (r: Option<FacebookEngagement>)
    ensures r.Some? <==>
      && IsObject(v) && ParseString(Member(v, "actionTime")).Some?
      && ParseReferrer(Member(v, "referrer")).Some? && ParseNullableString(Member(v, "videoId")).Some?
    ensures r.Some? ==>
      && r.value.FacebookTop?
      && Member(v, "actionTime") == Some(Str(r.value.actionTime))
      && Member(v, "referrer") == Some(Str(ReferrerLiteral(r.value.referrer)))
      && Member(v, "videoId") == Some(NullableJson(r.value.videoId))
  {
    if !IsObject(v) then None
    else
      var actionTime :- ParseString(Member(v, "actionTime"));
      var referrer :- ParseReferrer(Member(v, "referrer"));
      var videoId :- ParseNullableString(Member(v, "videoId"));
      Some(FacebookTop(actionTime, referrer, videoId))
  }

  function ParseFacebookBottom(v: Option<Json>): (r: Option<FacebookEngagement>)
    ensures r.Some? <==>
      && IsObject(v) && ParseString(Member(v, "adId")).Some? && ParseString(Member(v, "campaignId")).Some?
      && ParseClickPosition(Member(v, "clickPosition")).Some?
      && ParseFacebookDevice(Member(v, "device")).Some? && ParseBrowser(Member(v, "browser")).Some?
      && ParseNullableString(Member(v, "purchaseAmount")).Some?
    ensures r.Some? ==>
      && r.value.FacebookBottom?
      && Member(v, "adId") == Some(Str(r.value.adId))
      && Member(v, "campaignId") == Some(Str(r.value.campaignId))
      && Member(v, "clickPosition") == Some(Str(ClickPositionLiteral(r.value.clickPosition)))
      && Member(v, "device") == Some(Str(FacebookDeviceLiteral(r.value.device)))
      && Member(v, "browser") == Some(Str(BrowserLiteral(r.value.browser)))
      && Member(v, "purchaseAmount") == Some(NullableJson(r.value.purchaseAmount))
  {
    if !IsObject(v) then None
    else
      var adId :- ParseString(Member(v, "adId"));
      var campaignId :- ParseString(Member(v, "campaignId"));
      var clickPosition :- ParseClickPosition(Member(v, "clickPosition"));
      var device :- ParseFacebookDevice(Member(v, "device"));
      var browser :- ParseBrowser(Member(v, "browser"));
      var purchaseAmount :- ParseNullableString(Member(v, "purchaseAmount"));
      Some(FacebookBottom(adId, campaignId, clickPosition, device, browser, purchaseAmount))
  }

  /** Union of the two shapes: the top shape is tried first. */
  function ParseFacebookEngagement(v: Option<Json>): (r: Option<FacebookEngagement>)
    ensures r.Some? <==> ParseFacebookTop(v).Some? || ParseFacebookBottom(v).Some?
    ensures ParseFacebookTop(v).Some? ==> r == ParseFacebookTop(v)
  {
    var top := ParseFacebookTop(v);
    if top.Some? then top else ParseFacebookBottom(v)
  }

  function ParseFacebookEvent(v: Json): (r: Option<FacebookEvent>)
    ensures r.Some? <==>
      && v.Obj? && ParseString(Field(v, "eventId")).Some? && ParseString(Field(v, "timestamp")).Some?
      && Field(v, "source") == Some(Str("facebook"))
      && ParseFunnelStage(Field(v, "funnelStage")).Some?
      && ParseFacebookEventType(Field(v, "eventType")).Some?
      && IsObject(Field(v, "data"))
      && ParseFacebookUser(Member(Field(v, "data"), "user")).Some?
      && ParseFacebookEngagement(Member(Field(v, "data"), "engagement")).Some?
    ensures r.Some? ==>
      && Field(v, "eventId") == Some(Str(r.value.eventId))
      && Field(v, "timestamp") == Some(Str(r.value.timestamp))
      && Field(v, "funnelStage") == Some(Str(FunnelStageLiteral(r.value.funnelStage)))
      && Field(v, "eventType") == Some(Str(FacebookEventTypeLiteral(r.value.eventType)))
      && ParseFacebookUser(Member(Field(v, "data"), "user")) == Some(r.value.user)
      && ParseFacebookEngagement(Member(Field(v, "data"), "engagement")) == Some(r.value.engagement)
  {
    if !v.Obj? then None
    else
      var eventId :- ParseString(Field(v, "eventId"));
      var timestamp :- ParseString(Field(v, "timestamp"));
      if Field(v, "source") != Some(Str("facebook")) then None
      else
        var funnelStage :- ParseFunnelStage(Field(v, "funnelStage"));
        var eventType :- ParseFacebookEventType(Field(v, "eventType"));
        var data := Field(v, "data");
        if !IsObject(data) then None
        else
          var user :- ParseFacebookUser(Member(data, "user"));
          var engagement :- ParseFacebookEngagement(Member(data, "engagement"));
          Some(FacebookEvent(eventId, timestamp, funnelStage, eventType, user, engagement))
  }

  // ---------------------------------------------------------------------------
  // Tiktok objects

  datatype TiktokUser = TiktokUser(userId: string, username: string, followers: int)

  datatype TiktokEngagement =
    | TiktokTop(watchTime: int, percentageWatched: int, device: TiktokDevice,
                country: string, videoId: string)
    | TiktokBottom(actionTime: string, profileId: Option<string>,
                   purchasedItem: Option<string>, purchaseAmount: Option<string>)

  datatype TiktokEvent = TiktokEvent(
    eventId: string, timestamp: string, funnelStage: FunnelStage,
    eventType: TiktokEventType, user: TiktokUser, engagement: TiktokEngagement)

  function ParseTiktokUser(v: Option<Json>): (r: Option<TiktokUser>)
    ensures r.Some? <==>
      && IsObject(v) && ParseString(Member(v, "userId")).Some?
      && ParseString(Member(v, "username")).Some? && ParseNumber(Member(v, "followers")).Some?
    ensures r.Some? ==>
      && Member(v, "userId") == Some(Str(r.value.userId))
      && Member(v, "username") == Some(Str(r.value.username))
      && Member(v, "followers") == Some(Num(r.value.followers))
  {
    if !IsObject(v) then None
    else
      var userId :- ParseString(Member(v, "userId"));
      var username :- ParseString(Member(v, "username"));
      var followers :- ParseNumber(Member(v, "followers"));
      Some(TiktokUser(userId, username, followers))
  }

  function ParseTiktokTop(v: Option<Json>): (r: Option<TiktokEngagement>)
    ensures r.Some? <==>
      && IsObject(v) && ParseNumber(Member(v, "watchTime")).Some?
      && ParseNumber(Member(v, "percentageWatched")).Some?
      && ParseTiktokDevice(Member(v, "device")).Some?
      && ParseString(Member(v, "country")).Some? && ParseString(Member(v, "videoId")).Some?
    ensures r.Some? ==>
      && r.value.TiktokTop?
      && Member(v, "watchTime") == Some(Num(r.value.watchTime))
      && Member(v, "percentageWatched") == Some(Num(r.value.percentageWatched))
      && Member(v, "device") == Some(Str(TiktokDeviceLiteral(r.value.device)))
      && Member(v, "country") == Some(Str(r.value.country))
      && Member(v, "videoId") == Some(Str(r.value.videoId))
  {
    if !IsObject(v) then None
    else
      var watchTime :- ParseNumber(Member(v, "watchTime"));
      var percentageWatched :- ParseNumber(Member(v, "percentageWatched"));
      var device :- ParseTiktokDevice(Member(v, "device"));
      var country :- ParseString(Member(v, "country"));
      var videoId :- ParseString(Member(v, "videoId"));
      Some(TiktokTop(watchTime, percentageWatched, device, country, videoId))
  }

  function ParseTiktokBottom(v: Option<Json>): (r: Option<TiktokEngagement>)
    ensures r.Some? <==>
      && IsObject(v) && ParseString(Member(v, "actionTime")).Some?
      && ParseNullableString(Member(v, "profileId")).Some?
      && ParseNullableString(Member(v, "purchasedItem")).Some?
      && ParseNullableString(Member(v, "purchaseAmount")).Some?
    ensures r.Some? ==>
      && r.value.TiktokBottom?
      && Member(v, "actionTime") == Some(Str(r.value.actionTime))
      && Member(v, "profileId") == Some(NullableJson(r.value.profileId))
      && Member(v, "purchasedItem") == Some(NullableJson(r.value.purchasedItem))
      && Member(v, "purchaseAmount") == Some(NullableJson(r.value.purchaseAmount))
  {
    if !IsObject(v) then None
    else
      var actionTime :- ParseString(Member(v, "actionTime"));
      var profileId :- ParseNullableString(Member(v, "profileId"));
      var purchasedItem :- ParseNullableString(Member(v, "purchasedItem"));
      var purchaseAmount :- ParseNullableString(Member(v, "purchaseAmount"));
      Some(TiktokBottom(actionTime, profileId, purchasedItem, purchaseAmount))
  }

  /** Union of the two shapes: the top shape is tried first. */
  function ParseTiktokEngagement(v: Option<Json>): (r: Option<TiktokEngagement>)
    ensures r.Some? <==> ParseTiktokTop(v).Some? || ParseTiktokBottom(v).Some?
    ensures ParseTiktokTop(v).Some? ==> r == ParseTiktokTop(v)
  {
    var top := ParseTiktokTop(v);
    if top.Some? then top else ParseTiktokBottom(v)
  }

  function ParseTiktokEvent(v: Json): (r: Option<TiktokEvent>)
    ensures r.Some? <==>
      && v.Obj? && ParseString(Field(v, "eventId")).Some? && ParseString(Field(v, "timestamp")).Some?
      && Field(v, "source") == Some(Str("tiktok"))
      && ParseFunnelStage(Field(v, "funnelStage")).Some?
      && ParseTiktokEventType(Field(v, "eventType")).Some?
      && IsObject(Field(v, "data"))
      && ParseTiktokUser(Member(Field(v, "data"), "user")).Some?
      && ParseTiktokEngagement(Member(Field(v, "data"), "engagement")).Some?
    ensures r.Some? ==>
      && Field(v, "eventId") == Some(Str(r.value.eventId))
      && Field(v, "timestamp") == Some(Str(r.value.timestamp))
      && Field(v, "funnelStage") == Some(Str(FunnelStageLiteral(r.value.funnelStage)))
      && Field(v, "eventType") == Some(Str(TiktokEventTypeLiteral(r.value.eventType)))
      && ParseTiktokUser(Member(Field(v, "data"), "user")) == Some(r.value.user)
      && ParseTiktokEngagement(Member(Field(v, "data"), "engagement")) == Some(r.value.engagement)
  {
    if !v.Obj? then None
    else
      var eventId :- ParseString(Field(v, "eventId"));
      var timestamp :- ParseString(Field(v, "timestamp"));
      if Field(v, "source") != Some(Str("tiktok")) then None
      else
        var funnelStage :- ParseFunnelStage(Field(v, "funnelStage"));
        var eventType :- ParseTiktokEventType(Field(v, "eventType"));
        var data := Field(v, "data");
        if !IsObject(data) then None
        else
          var user :- ParseTiktokUser(Member(data, "user"));
          var engagement :- ParseTiktokEngagement(Member(data, "engagement"));
          Some(TiktokEvent(eventId, timestamp, funnelStage, eventType, user, engagement))
  }

  // ---------------------------------------------------------------------------
  // The event union

  datatype Event = FromFacebook(facebook: FacebookEvent) | FromTiktok(tiktok: TiktokEvent)

  /** `eventSchema.safeParse`: the facebook member is tried first, then tiktok. */
  function ParseEvent(v: Json): (r: Option<Event>)
    ensures r.Some? <==> ParseFacebookEvent(v).Some? || ParseTiktokEvent(v).Some?
    ensures r.Some? && r.value.FromFacebook? ==> Field(v, "source") == Some(Str("facebook"))
    ensures r.Some? && r.value.FromTiktok? ==> Field(v, "source") == Some(Str("tiktok"))
  {
    match ParseFacebookEvent(v)
    case Some(e) => Some(FromFacebook(e))
    case None =>
      match ParseTiktokEvent(v)
      case Some(e) => Some(FromTiktok(e))
      case None => None
  }

  predicate ValidEvent(v: Json) {
    ParseEvent(v).Some?
  }

  // ---------------------------------------------------------------------------
  // The JSON shape of a typed event, and the schema's completeness for it

  function LocationJson(l: Location): Json {
    Obj(map["country" := Str(l.country), "city" := Str(l.city)])
  }

  function FacebookUserJson(u: FacebookUser): Json {
    Obj(map["userId" := Str(u.userId), "name" := Str(u.name), "age" := Num(u.age),
            "gender" := Str(GenderLiteral(u.gender)), "location" := LocationJson(u.location)])
  }

  function FacebookEngagementJson(g: FacebookEngagement): Json {
    match g
    case FacebookTop(actionTime, referrer, videoId) =>
      Obj(map["actionTime" := Str(actionTime), "referrer" := Str(ReferrerLiteral(referrer)),
              "videoId" := NullableJson(videoId)])
    case FacebookBottom(adId, campaignId, clickPosition, device, browser, purchaseAmount) =>
      Obj(map["adId" := Str(adId), "campaignId" := Str(campaignId),
              "clickPosition" := Str(ClickPositionLiteral(clickPosition)),
              "device" := Str(FacebookDeviceLiteral(device)),
              "browser" := Str(BrowserLiteral(browser)),
              "purchaseAmount" := NullableJson(purchaseAmount)])
  }

  function FacebookEventJson(e: FacebookEvent): Json {
    Obj(map["eventId" := Str(e.eventId), "timestamp" := Str(e.timestamp),
            "source" := Str("facebook"),
            "funnelStage" := Str(FunnelStageLiteral(e.funnelStage)),
            "eventType" := Str(FacebookEventTypeLiteral(e.eventType)),
            "data" := Obj(map["user" := FacebookUserJson(e.user),
                              "engagement" := FacebookEngagementJson(e.engagement)])])
  }

  function TiktokUserJson(u: TiktokUser): Json {
    Obj(map["userId" := Str(u.userId), "username" := Str(u.username),
            "followers" := Num(u.followers)])
  }

  function TiktokEngagementJson(g: TiktokEngagement): Json {
    match g
    case TiktokTop(watchTime, percentageWatched, device, country, videoId) =>
      Obj(map["watchTime" := Num(watchTime), "percentageWatched" := Num(percentageWatched),
              "device" := Str(TiktokDeviceLiteral(device)), "country" := Str(country),
              "videoId" := Str(videoId)])
    case TiktokBottom(actionTime, profileId, purchasedItem, purchaseAmount) =>
      Obj(map["actionTime" := Str(actionTime), "profileId" := NullableJson(profileId),
              "purchasedItem" := NullableJson(purchasedItem),
              "purchaseAmount" := NullableJson(purchaseAmount)])
  }

  function TiktokEventJson(e: TiktokEvent): Json {
    Obj(map["eventId" := Str(e.eventId), "timestamp" := Str(e.timestamp),
            "source" := Str("tiktok"),
            "funnelStage" := Str(FunnelStageLiteral(e.funnelStage)),
            "eventType" := Str(TiktokEventTypeLiteral(e.eventType)),
            "data" := Obj(map["user" := TiktokUserJson(e.user),
                              "engagement" := TiktokEngagementJson(e.engagement)])])
  }

  function EventJson(e: Event): Json {
    match e
    case FromFacebook(f) => FacebookEventJson(f)
    case FromTiktok(t) => TiktokEventJson(t)
  }

  lemma FacebookUserRoundTrip(u: FacebookUser)
    ensures ParseFacebookUser(Some(FacebookUserJson(u))) == Some(u)
  {
    var v := Some(FacebookUserJson(u));
    assert ParseLocation(Member(v, "location")) == Some(u.location);
    assert ParseGender(Member(v, "gender")) == Some(u.gender) by {
      match u.gender
      case Male =>
      case Female =>
      case NonBinary =>
    }
  }

  lemma FacebookEngagementRoundTrip(g: FacebookEngagement)
    ensures ParseFacebookEngagement(Some(FacebookEngagementJson(g))) == Some(g)
  {
    var v := Some(FacebookEngagementJson(g));
    match g
    case FacebookTop(actionTime, referrer, videoId) =>
      assert ParseReferrer(Member(v, "referrer")) == Some(referrer) by {
        match referrer
        case Newsfeed =>
        case Marketplace =>
        case Groups =>
      }
      assert ParseNullableString(Member(v, "videoId")) == Some(videoId);
    case FacebookBottom(adId, campaignId, clickPosition, device, browser, purchaseAmount) =>
      // the bottom shape has no `actionTime`, so the top member of the union rejects it
      assert Member(v, "actionTime") == None;
      assert ParseClickPosition(Member(v, "clickPosition")) == Some(clickPosition) by {
        match clickPosition
        case TopLeft =>
        case BottomRight =>
        case Center =>
      }
      assert ParseFacebookDevice(Member(v, "device")) == Some(device) by {
        match device
        case Mobile =>
        case Desktop =>
      }
      assert ParseBrowser(Member(v, "browser")) == Some(browser) by {
        match browser
        case Chrome =>
        case Firefox =>
        case Safari =>
      }
      assert ParseNullableString(Member(v, "purchaseAmount")) == Some(purchaseAmount);
  }

  lemma FunnelStageRoundTrip(f: FunnelStage)
    ensures ParseFunnelStage(Some(Str(FunnelStageLiteral(f)))) == Some(f)
  {
    match f
    case Top =>
    case Bottom =>
  }

  lemma FacebookEventTypeRoundTrip(t: FacebookEventType)
    ensures ParseFacebookEventType(Some(Str(FacebookEventTypeLiteral(t)))) == Some(t)
  {
    match t
    case AdView =>
    case PageLike =>
    case FacebookComment =>
    case FacebookVideoView =>
    case AdClick =>
    case FormSubmission =>
    case CheckoutComplete =>
  }

  lemma TiktokEventTypeRoundTrip(t: TiktokEventType)
    ensures ParseTiktokEventType(Some(Str(TiktokEventTypeLiteral(t)))) == Some(t)
  {
    match t
    case TiktokVideoView =>
    case Like =>
    case Share =>
    case TiktokComment =>
    case ProfileVisit =>
    case Purchase =>
    case Follow =>
  }

  /**
   * Every well-typed facebook event, whatever combination of stage, type and
   * engagement shape it has, is accepted by the facebook member of the schema.
   */
  lemma FacebookEventRoundTrip(e: FacebookEvent)
    ensures ParseFacebookEvent(FacebookEventJson(e)) == Some(e)
  {
    var v := FacebookEventJson(e);
    var data := Field(v, "data");
    assert ParseString(Field(v, "eventId")) == Some(e.eventId);
    assert ParseString(Field(v, "timestamp")) == Some(e.timestamp);
    assert Field(v, "source") == Some(Str("facebook"));
    FunnelStageRoundTrip(e.funnelStage);
    assert ParseFunnelStage(Field(v, "funnelStage")) == Some(e.funnelStage);
    FacebookEventTypeRoundTrip(e.eventType);
    assert ParseFacebookEventType(Field(v, "eventType")) == Some(e.eventType);
    assert Member(data, "user") == Some(FacebookUserJson(e.user));
    FacebookUserRoundTrip(e.user);
    assert Member(data, "engagement") == Some(FacebookEngagementJson(e.engagement));
    FacebookEngagementRoundTrip(e.engagement);
  }

  lemma TiktokEngagementRoundTrip(g: TiktokEngagement)
    ensures ParseTiktokEngagement(Some(TiktokEngagementJson(g))) == Some(g)
  {
    var v := Some(TiktokEngagementJson(g));
    match g
    case TiktokTop(watchTime, percentageWatched, device, country, videoId) =>
      assert ParseTiktokDevice(Member(v, "device")) == Some(device) by {
        match device
        case Android =>
        case IOS =>
        case DesktopApp =>
      }
    case TiktokBottom(actionTime, profileId, purchasedItem, purchaseAmount) =>
      // the bottom shape has no `watchTime`, so the top member of the union rejects it
      assert Member(v, "watchTime") == None;
      assert ParseNullableString(Member(v, "profileId")) == Some(profileId);
      assert ParseNullableString(Member(v, "purchasedItem")) == Some(purchasedItem);
      assert ParseNullableString(Member(v, "purchaseAmount")) == Some(purchaseAmount);
  }

  lemma TiktokUserRoundTrip(u: TiktokUser)
    ensures ParseTiktokUser(Some(TiktokUserJson(u))) == Some(u)
  {
  }

  /** Every well-typed tiktok event is accepted by the tiktok member of the schema. */
  lemma TiktokEventRoundTrip(e: TiktokEvent)
    ensures ParseTiktokEvent(TiktokEventJson(e)) == Some(e)
  {
    var v := TiktokEventJson(e);
    var data := Field(v, "data");
    assert ParseString(Field(v, "eventId")) == Some(e.eventId);
    assert ParseString(Field(v, "timestamp")) == Some(e.timestamp);
    assert Field(v, "source") == Some(Str("tiktok"));
    FunnelStageRoundTrip(e.funnelStage);
    assert ParseFunnelStage(Field(v, "funnelStage")) == Some(e.funnelStage);
    TiktokEventTypeRoundTrip(e.eventType);
    assert ParseTiktokEventType(Field(v, "eventType")) == Some(e.eventType);
    assert Member(data, "user") == Some(TiktokUserJson(e.user));
    TiktokUserRoundTrip(e.user);
    assert Member(data, "engagement") == Some(TiktokEngagementJson(e.engagement));
    TiktokEngagementRoundTrip(e.engagement);
  }

  /** The union accepts the JSON shape of every typed event and returns that event. */
  lemma EventRoundTrip(e: Event)
    ensures ParseEvent(EventJson(e)) == Some(e)
  {
    match e
    case FromFacebook(f) =>
      FacebookEventRoundTrip(f);
    case FromTiktok(t) =>
      TiktokEventRoundTrip(t);
      // a tiktok event carries source "tiktok", so the facebook member rejects it
      assert Field(EventJson(e), "source") == Some(Str("tiktok"));
  }

  /**
   * An event is valid iff it is an object whose `source` is "facebook" and which
   * the facebook member accepts, or whose `source` is "tiktok" and which the
   * tiktok member accepts.
   */
  lemma ValidEventBySource(v: Json)
    ensures ValidEvent(v) <==>
      (Field(v, "source") == Some(Str("facebook")) && ParseFacebookEvent(v).Some?) ||
      (Field(v, "source") == Some(Str("tiktok")) && ParseTiktokEvent(v).Some?)
  {
  }

  /**
   * The schema does not tie the engagement shape to the funnel stage: every
   * stage combined with either engagement shape is valid.
   */
  lemma EngagementIndependentOfStage(e: FacebookEvent, t: TiktokEvent, f: FunnelStage,
                                     g: FacebookEngagement, h: TiktokEngagement)
    ensures ValidEvent(FacebookEventJson(e.(funnelStage := f, engagement := g)))
    ensures ValidEvent(TiktokEventJson(t.(funnelStage := f, engagement := h)))
  {
    EventRoundTrip(FromFacebook(e.(funnelStage := f, engagement := g)));
    EventRoundTrip(FromTiktok(t.(funnelStage := f, engagement := h)));
  }
}
