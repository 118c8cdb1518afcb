/** The credential gate and the request-shape validators that run in front of
    every notification route (middleware/auth.js). Each middleware either answers
    the request with a 4xx response or hands it on with `next()`; a `Gate` value
    is exactly one of the two. */
module Auth {
  import opened JsValues

  /** Why a middleware answers a request itself. */
  datatype Refusal = MissingKey | InvalidKey | TitleRequired | MessageRequired | TokenRequired

  /** The outcome of one middleware: hand on (`next()`), or answer with an error. */
  datatype Gate = Pass | Reject(refusal: Refusal)

  const BearerPrefix: string := "Bearer "

  /** The HTTP status each refusal is answered with. */
  function Status(r: Refusal): nat {
    match r
    case MissingKey => 401
    case InvalidKey => 403
    case TitleRequired | MessageRequired | TokenRequired => 400
  }

  /** The `error` field of each refusal's JSON answer. */
  function ErrorText(r: Refusal): string {
    match r
    case MissingKey => "API key is required"
    case InvalidKey => "Invalid API key"
    case TitleRequired => "Title is required"
    case MessageRequired => "Message is required"
    case TokenRequired => "Token is required"
  }

  /** The `message` field of each refusal's JSON answer. */
  function HelpText(r: Refusal): string {
    match r
    case MissingKey => "Provide API key in x-api-key header or Authorization header"
    case InvalidKey => "The provided API key is not valid"
    case TitleRequired => "Title must be a non-empty string"
    case MessageRequired => "Message must be a non-empty string"
    case TokenRequired => "FCM token must be provided"
  }

  /** A credential is present when it is a non-empty string (`!apiKey` is false). */
  predicate Present(c: Option<string>) {
    c.Some? && c.value != ""
  }

  /** The presented credential: a truthy `x-api-key` header, or else the
      `authorization` header with its first `"Bearer "` removed. */
  function Credential(xApiKey: Option<string>, authorization: Option<string>): (c: Option<string>)
    ensures Present(xApiKey) ==> c == xApiKey
    ensures !Present(xApiKey) ==> (c.None? <==> authorization.None?)
    ensures !Present(xApiKey) && authorization.Some? ==>
      forall i: nat :: FirstOccurrence(authorization.value, BearerPrefix, i) ==>
        c.value == authorization.value[..i] + authorization.value[i + |BearerPrefix|..]
    ensures (!Present(xApiKey) && authorization.Some? &&
             forall j: nat :: !OccursAt(authorization.value, BearerPrefix, j)) ==> c == authorization
  {
    if Present(xApiKey) then xApiKey
    else match authorization
      case None => None
      case Some(h) => Some(ReplaceFirst(h, BearerPrefix, ""))
  }

  /** `authenticateAPIKey` against the configured key (`undefined` when none is
      configured): 401 without a credential, 403 with a wrong one, else pass. */
  function Authenticate(xApiKey: Option<string>, authorization: Option<string>, configured: Option<string>): (g: Gate)
    ensures g.Pass? <==> Present(Credential(xApiKey, authorization)) && Credential(xApiKey, authorization) == configured
    ensures g == Reject(MissingKey) <==> !Present(Credential(xApiKey, authorization))
    ensures g == Reject(InvalidKey) <==> Present(Credential(xApiKey, authorization)) && Credential(xApiKey, authorization) != configured
  {
    var apiKey := Credential(xApiKey, authorization);
    if !Present(apiKey) then Reject(MissingKey)
    else if apiKey != configured then Reject(InvalidKey)
    else Pass
  }

  /** With no key configured, no request gets through the gate: a presented
      credential is refused with 403, a missing one with 401. */
  lemma UnconfiguredKeyRejectsAll(xApiKey: Option<string>, authorization: Option<string>)
    ensures Present(Credential(xApiKey, authorization)) ==> Authenticate(xApiKey, authorization, None) == Reject(InvalidKey)
    ensures !Present(Credential(xApiKey, authorization)) ==> Authenticate(xApiKey, authorization, None) == Reject(MissingKey)
  {
  }

  /** A truthy `x-api-key` decides alone: the `authorization` header is ignored. */
  lemma ApiKeyHeaderTakesPrecedence(xApiKey: Option<string>, auth1: Option<string>, auth2: Option<string>, configured: Option<string>)
    requires Present(xApiKey)
    ensures Authenticate(xApiKey, auth1, configured) == Authenticate(xApiKey, auth2, configured)
  {
  }

  /** Without a truthy `x-api-key`, `authorization: Bearer <key>` presents `<key>`. */
  lemma {:induction false} BearerCredential(xApiKey: Option<string>, key: string)
    requires !Present(xApiKey)
    ensures Credential(xApiKey, Some(BearerPrefix + key)) == Some(key)
  {
    var h := BearerPrefix + key;
    assert h[0..|BearerPrefix|] == BearerPrefix;
    assert FirstOccurrence(h, BearerPrefix, 0);
    assert ReplaceFirst(h, BearerPrefix, "") == h[..0] + "" + h[|BearerPrefix|..] == key;
  }

  /** `Bearer <key>` with the configured key passes the gate, and a bare
      `Bearer ` with nothing after it is a missing credential (401). */
  lemma {:induction false} BearerHeaderAuthenticates(xApiKey: Option<string>, key: string)
    requires !Present(xApiKey)
    ensures key != "" ==> Authenticate(xApiKey, Some(BearerPrefix + key), Some(key)) == Pass
    ensures forall configured :: Authenticate(xApiKey, Some(BearerPrefix), configured) == Reject(MissingKey)
  {
    BearerCredential(xApiKey, key);
    BearerCredential(xApiKey, "");
    assert BearerPrefix + "" == BearerPrefix;
  }

  /** The prefix is removed wherever it first occurs, not only at the start:
      `authorization: xBearer k` presents the credential `xk`. */
  lemma {:induction false} BearerRemovedMidHeader()
    ensures Credential(None, Some("xBearer k")) == Some("xk")
  {
    var h := "xBearer k";
    assert h[1..1 + |BearerPrefix|] == BearerPrefix;
    assert !OccursAt(h, BearerPrefix, 0) by { assert h[0] != BearerPrefix[0]; }
    assert FirstOccurrence(h, BearerPrefix, 1);
    assert ReplaceFirst(h, BearerPrefix, "") == h[..1] + "" + h[1 + |BearerPrefix|..] == "xk";
  }

  /** The JavaScript guard `!v || typeof v !== 'string' || v.trim().length === 0`. */
  predicate Blank(v: Value) {
    !Truthy(v) || !v.Str? || |Trim(v.s)| == 0
  }

  /** A string field holding at least one non-whitespace character. */
  predicate HasText(v: Value) {
    v.Str? && exists i :: 0 <= i < |v.s| && !IsWhitespace(v.s[i])
  }

  /** The guard rejects exactly the fields without visible text. */
  lemma BlankIffNoText(v: Value)
    ensures Blank(v) <==> !HasText(v)
  {
  }

  /** `validateNotificationRequest`: title and message must both carry text;
      the title is checked first. */
  function ValidateNotification(title: Value, message: Value): (g: Gate)
    ensures g.Pass? <==> HasText(title) && HasText(message)
    ensures !HasText(title) ==> g == Reject(TitleRequired)
    ensures HasText(title) && !HasText(message) ==> g == Reject(MessageRequired)
  {
    BlankIffNoText(title);
    BlankIffNoText(message);
    if Blank(title) then Reject(TitleRequired)
    else if Blank(message) then Reject(MessageRequired)
    else Pass
  }

  /** `validateTokenRequest`: the token must carry text. */
  function ValidateToken(token: Value): (g: Gate)
    ensures g.Pass? <==> HasText(token)
    ensures !HasText(token) ==> g == Reject(TokenRequired)
  {
    BlankIffNoText(token);
    if Blank(token) then Reject(TokenRequired) else Pass
  }

  /** Express runs a route's middleware in order and stops at the first one that
      answers: the chain passes iff every gate passes, and otherwise answers with
      the first rejection. */
  function Chain(gates: seq<Gate>): (g: Gate)
    ensures g.Pass? <==> forall i :: 0 <= i < |gates| ==> gates[i].Pass?
    ensures g.Reject? ==>
      exists i :: (0 <= i < |gates| && gates[i] == g && forall j :: 0 <= j < i ==> gates[j].Pass?)
  {
    if gates == [] then Pass
    else if gates[0].Reject? then gates[0]
    else
      var rest := Chain(gates[1..]);
      assert rest.Reject? ==>
        exists i :: (1 <= i < |gates| && gates[i] == rest && forall j :: 0 <= j < i ==> gates[j].Pass?);
      rest
  }

  /** Conversely, a chain whose first rejection is at `i` answers with it. */
  lemma {:induction false} ChainFirstReject(gates: seq<Gate>, i: nat)
    requires i < |gates| && gates[i].Reject?
    requires forall j :: 0 <= j < i ==> gates[j].Pass?
    ensures Chain(gates) == gates[i]
  {
    if i > 0 {
      ChainFirstReject(gates[1..], i - 1);
    }
  }
}
