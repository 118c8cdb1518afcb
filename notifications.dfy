/** The notification router (routes/notifications.js): every route runs behind the
    credential gate and its validators, maps its kind of notification onto a
    target, a title and body, and a metadata map, makes exactly one send, and
    turns the send result into a 200 or a 500 response. */
module Notifications {
  import opened JsValues
  import opened Auth
  import opened Delivery

  /** The fields of a request body the routes read. `data` defaults to `{}`. */
  datatype Body = Body(
    title: Value,
    message: Value,
    token: Value,
    imageUrl: Option<string>,
    promoCode: Option<string>,
    fortuneType: Option<string>,
    fortuneId: Option<string>,
    data: map<string, string>)

  datatype Request = Request(xApiKey: Option<string>, authorization: Option<string>, body: Body)

  /** The process-wide configuration: the expected API key, if one is set. */
  datatype Config = Config(apiKey: Option<string>)

  /** The two clock readings a request sees: `Date.now().toString()` when an
      envelope is built, `new Date().toISOString()` when a response is. */
  datatype Clock = Clock(millis: string, iso: string)

  datatype Endpoint = Admin | Promotion | Fortune | User | Test

  /** A value of the response's `data` object. */
  datatype Json = JStr(s: string) | JNull

  /** The route-specific keys of a success response's `data` object; `None`
      is a key the object does not have (an `undefined` value is dropped when
      the object is serialised). */
  datatype Echo = Echo(
    topic: Option<string>,
    title: Option<string>,
    promoCode: Option<Json>,
    fortuneType: Option<string>,
    fortuneId: Option<string>,
    target: Option<string>)

  const NoEcho: Echo := Echo(None, None, None, None, None, None)

  datatype Payload =
    | Done(message: string, messageId: string, echo: Echo, timestamp: string)
    | Refused(error: string, message: string)
    | Failed(error: string, details: string)

  datatype Response = Response(status: nat, payload: Payload)

  /** What one request does: the envelope it hands to the gateway, if any, and
      the response it sends back. */
  datatype Exchange = Exchange(sent: Option<Envelope>, response: Response)

  const ClickAction: string := "FLUTTER_NOTIFICATION_CLICK"
  const AdminTopic: string := "admin_announcements"
  const PromotionTopic: string := "promotions"
  const AllUsersTopic: string := "all_users"
  const FortuneMessage: string := "Falınız yorumlandı! Hemen görmek için tıklayın."
  const TestTitle: string := "🧪 Test Bildirimi"
  const TestMessage: string := "Node.js Backend + Firebase Admin SDK ile bildirim sistemi çalışıyor!"

  const GenericFortuneTitle: string := "🔮 Falınız Hazır!"
  const CoffeeTitle: string := "☕ Kahve Falınız Hazır!"
  const LoveTitle: string := "💕 Aşk Falınız Hazır!"
  const DailyTitle: string := "📅 Günlük Falınız Hazır!"
  const GeneralTitle: string := "🔮 Genel Falınız Hazır!"
  const TarotTitle: string := "🃏 Tarot Falınız Hazır!"
  const NumerologyTitle: string := "🔢 Numeroloji Falınız Hazır!"

  /** The fortune titles, keyed by lower-cased fortune type. */
  const FortuneTitles: map<string, string> := map[
    "kahve" := CoffeeTitle, "coffee" := CoffeeTitle,
    "ask" := LoveTitle, "love" := LoveTitle,
    "gunluk" := DailyTitle, "daily" := DailyTitle,
    "genel" := GeneralTitle, "general" := GeneralTitle,
    "tarot" := TarotTitle,
    "numerology" := NumerologyTitle]

  /** The `switch` of `getFortuneTitle` on an already lower-cased type. */
  function TitleFor(key: string): string {
    if key == "kahve" || key == "coffee" then CoffeeTitle
    else if key == "ask" || key == "love" then LoveTitle
    else if key == "gunluk" || key == "daily" then DailyTitle
    else if key == "genel" || key == "general" then GeneralTitle
    else if key == "tarot" then TarotTitle
    else if key == "numerology" then NumerologyTitle
    else GenericFortuneTitle
  }

  /** `getFortuneTitle`: the title for the lower-cased type; an absent type
      (`undefined?.toLowerCase()` is `undefined`) gets the generic title. */
  function FortuneTitle(fortuneType: Option<string>): string {
    if fortuneType.None? then GenericFortuneTitle else TitleFor(ToLower(fortuneType.value))
  }

  /** `getFortuneTitle` agrees with the title table: the entry for the
      lower-cased type, or the generic title for an absent or unknown type. */
  lemma {:induction false} FortuneTitleByTable(fortuneType: Option<string>)
    ensures fortuneType.Some? && ToLower(fortuneType.value) in FortuneTitles ==>
      FortuneTitle(fortuneType) == FortuneTitles[ToLower(fortuneType.value)]
    ensures fortuneType.None? || ToLower(fortuneType.value) !in FortuneTitles ==>
      FortuneTitle(fortuneType) == GenericFortuneTitle
  {
  }

  /** The title depends on the type only through its lower-cased form. */
  lemma {:induction false} FortuneTitleCaseInsensitive(a: string, b: string)
    requires ToLower(a) == ToLower(b)
    ensures FortuneTitle(Some(a)) == FortuneTitle(Some(b))
    ensures FortuneTitle(Some(a)) == FortuneTitle(Some(ToLower(a)))
  {
    ToLowerIdempotent(a);
  }

  /** Each Turkish/English alias pair shares a title. */
  lemma FortuneTitleAliases()
    ensures TitleFor("kahve") == TitleFor("coffee") == CoffeeTitle
    ensures TitleFor("ask") == TitleFor("love") == LoveTitle
    ensures TitleFor("gunluk") == TitleFor("daily") == DailyTitle
    ensures TitleFor("genel") == TitleFor("general") == GeneralTitle
  {
  }

  /** `tarot` and `numerology` have titles of their own, and none of the six
      titles of known types is the generic one. */
  lemma FortuneTitlesDistinct()
    ensures TitleFor("tarot") == TarotTitle && TitleFor("numerology") == NumerologyTitle
    ensures GenericFortuneTitle !in {CoffeeTitle, LoveTitle, DailyTitle, GeneralTitle, TarotTitle, NumerologyTitle}
  {
  }

  /** Upper case is folded: `COFFEE` gets the coffee title. */
  lemma {:induction false} FortuneTitleUpperCase()
    ensures FortuneTitle(Some("COFFEE")) == CoffeeTitle
  {
    assert ToLower("COFFEE") == "coffee";
  }

  /** `{...fixed, ...data}`: the caller's keys are laid over the fixed ones, so on
      a shared key the caller's value wins. */
  function Overlay(fixed: map<string, string>, data: map<string, string>): (m: map<string, string>)
    ensures m.Keys == fixed.Keys + data.Keys
    ensures forall k :: k in data ==> m[k] == data[k]
    ensures forall k :: k in fixed && k !in data ==> m[k] == fixed[k]
  {
    fixed + data
  }

  /** The `type` each route stamps into its metadata. */
  function Kind(e: Endpoint): string {
    match e
    case Admin => "admin_announcement"
    case Promotion => "promotion"
    case Fortune => "fortune_ready"
    case User => "user_notification"
    case Test => "test"
  }

  /** The object literal each route writes before the caller's `data`. */
  function FixedMetadata(e: Endpoint, body: Body): map<string, string> {
    match e
    case Admin => map["type" := Kind(e), "click_action" := ClickAction]
    case Promotion =>
      map["type" := Kind(e), "promoCode" := OrDefault(body.promoCode, ""),
          "click_action" := ClickAction, "route" := "/store"]
    case Fortune =>
      map["type" := Kind(e), "fortuneType" := OrDefault(body.fortuneType, "general"),
          "fortuneId" := OrDefault(body.fortuneId, "unknown"),
          "click_action" := ClickAction, "route" := "/fortune_detail"]
    case User => map["type" := Kind(e), "click_action" := ClickAction]
    case Test => map["type" := Kind(e), "click_action" := ClickAction]
  }

  /** The metadata map a route hands to the send function: the fixed keys
      overlaid by the caller's `data`, except that `/test` merges no caller data. */
  function Metadata(e: Endpoint, body: Body): (m: map<string, string>)
    ensures e == Test ==> m == FixedMetadata(e, body)
    ensures e != Test ==> m.Keys == FixedMetadata(e, body).Keys + body.data.Keys
    ensures e != Test ==> forall k :: k in body.data ==> m[k] == body.data[k]
    ensures e != Test ==>
      forall k :: k in FixedMetadata(e, body) && k !in body.data ==> m[k] == FixedMetadata(e, body)[k]
  {
    if e == Test then FixedMetadata(e, body) else Overlay(FixedMetadata(e, body), body.data)
  }

  /** Every route's metadata has `type` and `click_action`; the caller's `data`
      replaces either of them on every route but `/test`. */
  lemma {:induction false} FixedKeysUnlessOverridden(e: Endpoint, body: Body)
    ensures "type" in Metadata(e, body) && "click_action" in Metadata(e, body)
    ensures Metadata(e, body)["type"] ==
      if e != Test && "type" in body.data then body.data["type"] else Kind(e)
    ensures Metadata(e, body)["click_action"] ==
      if e != Test && "click_action" in body.data then body.data["click_action"] else ClickAction
  {
    var fixed := FixedMetadata(e, body);
    assert "type" in fixed && fixed["type"] == Kind(e);
    assert "click_action" in fixed && fixed["click_action"] == ClickAction;
  }

  /** `/promotion` and `/fortune` fill their own keys with defaults for falsy
      values; each key holds its default unless the caller's `data` has it. */
  lemma {:induction false} MetadataDefaults(body: Body)
    ensures "promoCode" in Metadata(Promotion, body) && "route" in Metadata(Promotion, body)
    ensures "fortuneType" in Metadata(Fortune, body) && "fortuneId" in Metadata(Fortune, body)
    ensures "route" in Metadata(Fortune, body)
    ensures "promoCode" !in body.data ==>
      Metadata(Promotion, body)["promoCode"] ==
        (if body.promoCode.Some? && body.promoCode.value != "" then body.promoCode.value else "")
    ensures "route" !in body.data ==> Metadata(Promotion, body)["route"] == "/store"
    ensures "fortuneType" !in body.data ==>
      Metadata(Fortune, body)["fortuneType"] ==
        (if body.fortuneType.Some? && body.fortuneType.value != "" then body.fortuneType.value else "general")
    ensures "fortuneId" !in body.data ==>
      Metadata(Fortune, body)["fortuneId"] ==
        (if body.fortuneId.Some? && body.fortuneId.value != "" then body.fortuneId.value else "unknown")
    ensures "route" !in body.data ==> Metadata(Fortune, body)["route"] == "/fortune_detail"
  {
    var promo := FixedMetadata(Promotion, body);
    var fortune := FixedMetadata(Fortune, body);
    assert "promoCode" in promo && "route" in promo && promo["route"] == "/store";
    assert "fortuneType" in fortune && "fortuneId" in fortune && "route" in fortune;
    assert fortune["route"] == "/fortune_detail";
  }

  /** An absent fortune type is written to the metadata as `general`, yet the
      title comes from the raw type and is the generic title, not the general one. */
  lemma {:induction false} AbsentFortuneTypeDefaultsDiffer(body: Body)
    requires body.fortuneType.None? && "fortuneType" !in body.data
    ensures Metadata(Fortune, body)["fortuneType"] == "general"
    ensures FortuneTitle(body.fortuneType) == GenericFortuneTitle
    ensures FortuneTitle(Some("general")) == GeneralTitle != GenericFortuneTitle
  {
    assert "fortuneType" in FixedMetadata(Fortune, body);
  }

  /** The `message` of each route's 200 response. */
  function SuccessText(e: Endpoint): string {
    match e
    case Admin => "Admin announcement sent successfully"
    case Promotion => "Promotion notification sent successfully"
    case Fortune => "Fortune ready notification sent successfully"
    case User => "User notification sent successfully"
    case Test => "Test notification sent successfully"
  }

  /** The `error` of each route's 500 response when its send fails. */
  function FailureText(e: Endpoint): string {
    match e
    case Admin => "Failed to send admin announcement"
    case Promotion => "Failed to send promotion notification"
    case Fortune => "Failed to send fortune ready notification"
    case User => "Failed to send user notification"
    case Test => "Failed to send test notification"
  }

  /** The shared tail of every send route: 200 with the message id, the route's
      own echoed fields and the response time when the send function reports
      success; otherwise 500 carrying the provider's error message as `details`. */
  function Respond(e: Endpoint, result: SendResult, echo: Echo, iso: string): (r: Response)
    requires result.TopicSent? || result.TokenSent? || result.SendFailed?
    ensures r.status == 200 <==> result.Success()
    ensures r.status == 200 || r.status == 500
    ensures result.Success() ==> r.payload == Done(SuccessText(e), result.messageId, echo, iso)
    ensures !result.Success() ==> r.payload == Failed(FailureText(e), result.error)
  {
    match result
    case SendFailed(err) => Response(500, Failed(FailureText(e), err))
    case _ => Response(200, Done(SuccessText(e), result.messageId, echo, iso))
  }

  /** `POST /admin`: a topic send to `admin_announcements` of the caller's title
      and message; the response echoes the topic and the title. */
  function AdminRoute(body: Body, outcome: SendOutcome, clock: Clock): (x: Exchange)
    requires HasText(body.title) && HasText(body.message)
    ensures x.sent.Some? && x.sent.value.target == Topic(AdminTopic)
    ensures x.sent.value.notification == NotificationBlock(body.title.s, body.message.s, body.imageUrl)
    ensures x.sent.value.data == StampedData(Metadata(Admin, body), clock.millis)
    ensures x.response.status == 200 <==> outcome.Sent?
    ensures outcome.Sent? ==>
      x.response.payload == Done(SuccessText(Admin), outcome.messageId,
                                 NoEcho.(topic := Some(AdminTopic), title := Some(body.title.s)), clock.iso)
    ensures outcome.Thrown? ==> x.response == Response(500, Failed(FailureText(Admin), outcome.error))
  {
    var d := SendToTopic(AdminTopic, body.title.s, body.message.s, Metadata(Admin, body), body.imageUrl,
                         clock.millis, outcome);
    Exchange(Some(d.envelope),
      Respond(Admin, d.result, NoEcho.(topic := Some(AdminTopic), title := Some(body.title.s)), clock.iso))
  }

  /** `POST /promotion`: a topic send to `promotions`; the payload carries
      `promoCode || ''`, the response reports `promoCode || null`. */
  function PromotionRoute(body: Body, outcome: SendOutcome, clock: Clock): (x: Exchange)
    requires HasText(body.title) && HasText(body.message)
    ensures x.sent.Some? && x.sent.value.target == Topic(PromotionTopic)
    ensures x.sent.value.notification == NotificationBlock(body.title.s, body.message.s, body.imageUrl)
    ensures x.sent.value.data == StampedData(Metadata(Promotion, body), clock.millis)
    ensures x.response.status == 200 <==> outcome.Sent?
    ensures outcome.Sent? ==>
      x.response.payload == Done(SuccessText(Promotion), outcome.messageId,
        NoEcho.(topic := Some(PromotionTopic),
                promoCode := Some(if body.promoCode.Some? && body.promoCode.value != ""
                                  then JStr(body.promoCode.value) else JNull)),
        clock.iso)
    ensures outcome.Thrown? ==> x.response == Response(500, Failed(FailureText(Promotion), outcome.error))
  {
    var d := SendToTopic(PromotionTopic, body.title.s, body.message.s, Metadata(Promotion, body), body.imageUrl,
                         clock.millis, outcome);
    var code := if body.promoCode.Some? && body.promoCode.value != "" then JStr(body.promoCode.value) else JNull;
    Exchange(Some(d.envelope),
      Respond(Promotion, d.result, NoEcho.(topic := Some(PromotionTopic), promoCode := Some(code)), clock.iso))
  }

  /** `POST /fortune`: a token send with the title looked up from the raw fortune
      type and a fixed body; the caller's title, message and image are not used,
      and the response echoes the raw, undefaulted type and id. */
  function FortuneRoute(body: Body, outcome: SendOutcome, clock: Clock): (x: Exchange)
    requires HasText(body.token)
    ensures x.sent.Some? && x.sent.value.target == Token(body.token)
    ensures x.sent.value.notification == Notification(FortuneTitle(body.fortuneType), FortuneMessage, None)
    ensures x.sent.value.data == StampedData(Metadata(Fortune, body), clock.millis)
    ensures x.response.status == 200 <==> outcome.Sent?
    ensures outcome.Sent? ==>
      x.response.payload == Done(SuccessText(Fortune), outcome.messageId,
                                 NoEcho.(fortuneType := body.fortuneType, fortuneId := body.fortuneId), clock.iso)
    ensures outcome.Thrown? ==> x.response == Response(500, Failed(FailureText(Fortune), outcome.error))
  {
    var d := SendToToken(body.token, FortuneTitle(body.fortuneType), FortuneMessage, Metadata(Fortune, body),
                         None, clock.millis, outcome);
    Exchange(Some(d.envelope),
      Respond(Fortune, d.result, NoEcho.(fortuneType := body.fortuneType, fortuneId := body.fortuneId), clock.iso))
  }

  /** `POST /user`: a token send of the caller's title and message; the response
      echoes the title but not the token. */
  function UserRoute(body: Body, outcome: SendOutcome, clock: Clock): (x: Exchange)
    requires HasText(body.title) && HasText(body.message) && HasText(body.token)
    ensures x.sent.Some? && x.sent.value.target == Token(body.token)
    ensures x.sent.value.notification == NotificationBlock(body.title.s, body.message.s, body.imageUrl)
    ensures x.sent.value.data == StampedData(Metadata(User, body), clock.millis)
    ensures x.response.status == 200 <==> outcome.Sent?
    ensures outcome.Sent? ==>
      x.response.payload == Done(SuccessText(User), outcome.messageId, NoEcho.(title := Some(body.title.s)), clock.iso)
    ensures outcome.Thrown? ==> x.response == Response(500, Failed(FailureText(User), outcome.error))
  {
    var d := SendToToken(body.token, body.title.s, body.message.s, Metadata(User, body), body.imageUrl,
                         clock.millis, outcome);
    Exchange(Some(d.envelope), Respond(User, d.result, NoEcho.(title := Some(body.title.s)), clock.iso))
  }

  /** A truthy `token` that is not a string: `if (token)` still sends to it. */
  predicate StrayToken(token: Value) {
    token.NonString? && token.truthy
  }

  /** `POST /test`: no validation and no caller data; a token send when the
      body's `token` is truthy, whatever its type, else a topic send to
      `all_users`, always with the fixed test text. A stray token fails in
      `sendToToken` and is answered with 500. */
  function TestRoute(body: Body, outcome: SendOutcome, clock: Clock): (x: Exchange)
    ensures x.sent.Some?
    ensures x.sent.value.target == if Truthy(body.token) then Token(body.token) else Topic(AllUsersTopic)
    ensures x.sent.value.notification == Notification(TestTitle, TestMessage, None)
    ensures x.sent.value.data == StampedData(FixedMetadata(Test, body), clock.millis)
    ensures x.response.status == 200 <==> outcome.Sent? && !StrayToken(body.token)
    ensures outcome.Sent? && !StrayToken(body.token) ==>
      x.response.payload == Done(SuccessText(Test), outcome.messageId,
        NoEcho.(target := Some(if Truthy(body.token) then "specific_token" else "all_users")), clock.iso)
    ensures outcome.Sent? && StrayToken(body.token) ==>
      x.response == Response(500, Failed(FailureText(Test), SubstringNotAFunction))
    ensures outcome.Thrown? ==> x.response == Response(500, Failed(FailureText(Test), outcome.error))
  {
    var d := if Truthy(body.token)
      then SendToToken(body.token, TestTitle, TestMessage, Metadata(Test, body), None, clock.millis, outcome)
      else SendToTopic(AllUsersTopic, TestTitle, TestMessage, Metadata(Test, body), None, clock.millis, outcome);
    var target := if Truthy(body.token) then "specific_token" else "all_users";
    Exchange(Some(d.envelope), Respond(Test, d.result, NoEcho.(target := Some(target)), clock.iso))
  }

  /** What each route's validators demand of the body. */
  predicate Admitted(e: Endpoint, body: Body) {
    match e
    case Admin | Promotion => HasText(body.title) && HasText(body.message)
    case Fortune | User => HasText(body.title) && HasText(body.message) && HasText(body.token)
    case Test => true
  }

  /** The handler behind each endpoint, reached once its middleware passed: it
      sends exactly once, and the send's outcome decides 200 or 500, except
      that a stray `/test` token fails whatever the gateway does. */
  function Route(e: Endpoint, body: Body, outcome: SendOutcome, clock: Clock): (x: Exchange)
    requires Admitted(e, body)
    ensures x.sent.Some?
    ensures x.response.status == 200 <==> outcome.Sent? && !(e == Test && StrayToken(body.token))
    ensures outcome.Sent? && !(e == Test && StrayToken(body.token)) ==>
      x.response.payload.Done? && x.response.payload.messageId == outcome.messageId
    ensures outcome.Sent? && e == Test && StrayToken(body.token) ==>
      x.response == Response(500, Failed(FailureText(e), SubstringNotAFunction))
    ensures outcome.Thrown? ==> x.response == Response(500, Failed(FailureText(e), outcome.error))
  {
    match e
    case Admin => AdminRoute(body, outcome, clock)
    case Promotion => PromotionRoute(body, outcome, clock)
    case Fortune => FortuneRoute(body, outcome, clock)
    case User => UserRoute(body, outcome, clock)
    case Test => TestRoute(body, outcome, clock)
  }

  /** The middleware in front of each endpoint, in the order Express runs it:
      the credential gate for every route, then the route's own validators. */
  function Gates(e: Endpoint, req: Request, cfg: Config): seq<Gate> {
    var auth := Authenticate(req.xApiKey, req.authorization, cfg.apiKey);
    match e
    case Admin | Promotion => [auth, ValidateNotification(req.body.title, req.body.message)]
    case Fortune | User => [auth, ValidateNotification(req.body.title, req.body.message), ValidateToken(req.body.token)]
    case Test => [auth]
  }

  /** The credential gate on its own: the authenticated requests. */
  predicate Authenticated(req: Request, cfg: Config) {
    Authenticate(req.xApiKey, req.authorization, cfg.apiKey).Pass?
  }

  /** The middleware chain lets exactly the authenticated requests with an
      admitted body through. */
  lemma {:induction false} GatesAdmit(e: Endpoint, req: Request, cfg: Config)
    ensures Chain(Gates(e, req, cfg)).Pass? <==> Authenticated(req, cfg) && Admitted(e, req.body)
  {
    var gates := Gates(e, req, cfg);
    assert gates[0] == Authenticate(req.xApiKey, req.authorization, cfg.apiKey);
    assert e != Test ==> gates[1] == ValidateNotification(req.body.title, req.body.message);
    assert e == Fortune || e == User ==> gates[2] == ValidateToken(req.body.token);
  }

  /** The JSON answer a middleware sends when it refuses a request. */
  function Answer(r: Refusal): Response {
    Response(Status(r), Refused(ErrorText(r), HelpText(r)))
  }

  /** The full pipeline for one request: the first gate that answers ends the
      request with its 4xx response and no send; a request that is authenticated
      and whose body the route's validators accept is handed to the route. */
  function Dispatch(e: Endpoint, req: Request, cfg: Config, outcome: SendOutcome, clock: Clock): (x: Exchange)
    ensures x.sent.Some? <==> Authenticated(req, cfg) && Admitted(e, req.body)
    ensures Authenticated(req, cfg) && Admitted(e, req.body) ==> x == Route(e, req.body, outcome, clock)
    ensures x.sent.None? ==>
      var g := Chain(Gates(e, req, cfg));
      g.Reject? && x.response == Answer(g.refusal)
  {
    GatesAdmit(e, req, cfg);
    var gate := Chain(Gates(e, req, cfg));
    if gate.Reject? then Exchange(None, Answer(gate.refusal))
    else Route(e, req.body, outcome, clock)
  }

  /** The credential gate runs first: its refusal is the answer. */
  lemma {:induction false} CredentialGateFirst(e: Endpoint, req: Request, cfg: Config)
    requires !Authenticated(req, cfg)
    ensures Chain(Gates(e, req, cfg)) == Authenticate(req.xApiKey, req.authorization, cfg.apiKey)
  {
    ChainFirstReject(Gates(e, req, cfg), 0);
  }

  /** Behind the credential gate, the title/message validator answers next. */
  lemma {:induction false} BodyGateSecond(e: Endpoint, req: Request, cfg: Config)
    requires Authenticated(req, cfg) && e != Test
    requires ValidateNotification(req.body.title, req.body.message).Reject?
    ensures Chain(Gates(e, req, cfg)) == ValidateNotification(req.body.title, req.body.message)
  {
    ChainFirstReject(Gates(e, req, cfg), 1);
  }

  /** On the token routes the token validator runs last. */
  lemma {:induction false} TokenGateThird(e: Endpoint, req: Request, cfg: Config)
    requires Authenticated(req, cfg) && (e == Fortune || e == User)
    requires ValidateNotification(req.body.title, req.body.message).Pass?
    requires ValidateToken(req.body.token).Reject?
    ensures Chain(Gates(e, req, cfg)) == ValidateToken(req.body.token)
  {
    ChainFirstReject(Gates(e, req, cfg), 2);
  }

  /** A refused request sends nothing and is answered by the refusing gate. */
  lemma RefusalEndsRequest(e: Endpoint, req: Request, cfg: Config, outcome: SendOutcome, clock: Clock, r: Refusal)
    requires Chain(Gates(e, req, cfg)) == Reject(r)
    ensures Dispatch(e, req, cfg, outcome, clock) == Exchange(None, Answer(r))
  {
  }

  /** Without a credential every endpoint answers 401 and sends nothing. */
  lemma {:induction false} MissingCredentialIs401(e: Endpoint, req: Request, cfg: Config, outcome: SendOutcome, clock: Clock)
    requires !Present(Credential(req.xApiKey, req.authorization))
    ensures Dispatch(e, req, cfg, outcome, clock) ==
      Exchange(None, Response(401, Refused("API key is required",
                                           "Provide API key in x-api-key header or Authorization header")))
  {
    CredentialGateFirst(e, req, cfg);
    RefusalEndsRequest(e, req, cfg, outcome, clock, MissingKey);
  }

  /** A credential other than the configured key gets 403 and sends nothing. */
  lemma {:induction false} WrongCredentialIs403(e: Endpoint, req: Request, cfg: Config, outcome: SendOutcome, clock: Clock)
    requires Present(Credential(req.xApiKey, req.authorization))
    requires Credential(req.xApiKey, req.authorization) != cfg.apiKey
    ensures Dispatch(e, req, cfg, outcome, clock) ==
      Exchange(None, Response(403, Refused("Invalid API key", "The provided API key is not valid")))
  {
    CredentialGateFirst(e, req, cfg);
    RefusalEndsRequest(e, req, cfg, outcome, clock, InvalidKey);
  }

  /** Behind the gate, a blank title is answered with 400 and nothing is sent. */
  lemma {:induction false} BlankTitleIs400(e: Endpoint, req: Request, cfg: Config, outcome: SendOutcome, clock: Clock)
    requires Authenticated(req, cfg) && e != Test && !HasText(req.body.title)
    ensures Dispatch(e, req, cfg, outcome, clock) ==
      Exchange(None, Response(400, Refused("Title is required", "Title must be a non-empty string")))
  {
    BodyGateSecond(e, req, cfg);
    RefusalEndsRequest(e, req, cfg, outcome, clock, TitleRequired);
  }

  /** Behind the gate, a title with a blank message is answered with 400. */
  lemma {:induction false} BlankMessageIs400(e: Endpoint, req: Request, cfg: Config, outcome: SendOutcome, clock: Clock)
    requires Authenticated(req, cfg) && e != Test && HasText(req.body.title) && !HasText(req.body.message)
    ensures Dispatch(e, req, cfg, outcome, clock) ==
      Exchange(None, Response(400, Refused("Message is required", "Message must be a non-empty string")))
  {
    BodyGateSecond(e, req, cfg);
    RefusalEndsRequest(e, req, cfg, outcome, clock, MessageRequired);
  }

  /** On the token routes, a valid title and message with a blank token is
      answered with 400. */
  lemma {:induction false} BlankTokenIs400(e: Endpoint, req: Request, cfg: Config, outcome: SendOutcome, clock: Clock)
    requires Authenticated(req, cfg) && (e == Fortune || e == User)
    requires HasText(req.body.title) && HasText(req.body.message) && !HasText(req.body.token)
    ensures Dispatch(e, req, cfg, outcome, clock) ==
      Exchange(None, Response(400, Refused("Token is required", "FCM token must be provided")))
  {
    TokenGateThird(e, req, cfg);
    RefusalEndsRequest(e, req, cfg, outcome, clock, TokenRequired);
  }

  /** `/fortune` runs the title/message validator although it ignores both: a
      body without a title is refused, and when admitted what is sent does not
      depend on the title or message given. */
  lemma {:induction false} FortuneDemandsUnusedText(req: Request, cfg: Config, outcome: SendOutcome, clock: Clock,
                                                    title: Value, message: Value)
    requires Authenticated(req, cfg) && HasText(req.body.token)
    requires HasText(title) && HasText(message)
    ensures !HasText(req.body.title) ==> Dispatch(Fortune, req, cfg, outcome, clock).sent.None?
    ensures HasText(req.body.title) && HasText(req.body.message) ==>
      Dispatch(Fortune, req, cfg, outcome, clock) ==
      Dispatch(Fortune, req.(body := req.body.(title := title, message := message)), cfg, outcome, clock)
  {
    var other := req.(body := req.body.(title := title, message := message));
    assert Metadata(Fortune, req.body) == Metadata(Fortune, other.body);
  }

  /** `/test` with no token: a topic send to `all_users` titled
      `🧪 Test Bildirimi`, answered with 200 and target `all_users` on success. */
  lemma {:induction false} TestWithoutToken(req: Request, cfg: Config, id: string, clock: Clock)
    requires Authenticated(req, cfg) && req.body.token == Absent
    ensures Dispatch(Test, req, cfg, Sent(id), clock).sent.value.target == Topic(AllUsersTopic)
    ensures Dispatch(Test, req, cfg, Sent(id), clock).sent.value.notification.title == TestTitle
    ensures Dispatch(Test, req, cfg, Sent(id), clock).response.status == 200
    ensures Dispatch(Test, req, cfg, Sent(id), clock).response.payload.echo.target == Some("all_users")
  {
  }

  /** `/test` with a truthy token that is not a string (`{token: 12345}`) still
      takes the token branch, and is answered with 500 whatever the gateway does. */
  lemma {:induction false} TestStrayTokenFails(req: Request, cfg: Config, outcome: SendOutcome, clock: Clock)
    requires Authenticated(req, cfg) && StrayToken(req.body.token)
    ensures Dispatch(Test, req, cfg, outcome, clock).sent.value.target == Token(req.body.token)
    ensures Dispatch(Test, req, cfg, outcome, clock).response.status == 500
    ensures Dispatch(Test, req, cfg, outcome, clock).response.payload.Failed?
    ensures Dispatch(Test, req, cfg, outcome, clock).response.payload.error == "Failed to send test notification"
  {
  }

  /** `/fortune` with `{token: "t1", fortuneType: "coffee"}` (and the title and
      message its validator demands): the coffee title, `fortuneType: coffee`
      and the default `fortuneId: unknown` in the payload. */
  lemma {:induction false} FortuneCoffeeScenario(req: Request, cfg: Config, outcome: SendOutcome, clock: Clock)
    requires Authenticated(req, cfg) && HasText(req.body.title) && HasText(req.body.message)
    requires HasText(req.body.token) && req.body.fortuneType == Some("coffee") && req.body.fortuneId.None?
    requires req.body.data == map[]
    ensures var x := Dispatch(Fortune, req, cfg, outcome, clock);
      && x.sent.Some?
      && x.sent.value.notification.title == CoffeeTitle
      && "fortuneType" in x.sent.value.data && x.sent.value.data["fortuneType"] == "coffee"
      && "fortuneId" in x.sent.value.data && x.sent.value.data["fortuneId"] == "unknown"
  {
    assert ToLower("coffee") == "coffee";
    MetadataDefaults(req.body);
  }
}
