/** The delivery layer (utils/firebase.js): builds the push envelope for a topic,
    a single device token or a list of tokens, makes the one gateway call, and
    turns its reply or its exception into a uniform result. The gateway's reply
    is an input: the model does not decide whether delivery succeeds. */
module Delivery {
  import opened JsValues

  /** Exactly one addressing field per envelope: `topic`, `token` or `tokens`.
      A single device token is whatever body field the route passes on, which
      need not be a string. */
  datatype Target = Topic(topic: string) | Token(token: Value) | Tokens(tokens: seq<string>)

  datatype Notification = Notification(title: string, body: string, imageUrl: Option<string>)

  datatype AndroidNotification = AndroidNotification(sound: string, channelId: string, icon: Option<string>)
  datatype AndroidConfig = AndroidConfig(priority: string, notification: AndroidNotification)

  datatype Alert = Alert(title: string, body: string)
  /** The `apns.payload.aps` block. */
  datatype Aps = Aps(sound: string, badge: int, alert: Option<Alert>)

  datatype Envelope = Envelope(
    target: Target,
    notification: Notification,
    data: map<string, string>,
    android: AndroidConfig,
    apns: Option<Aps>)

  /** What `messaging.send` does: resolve with a message id, or throw. */
  datatype SendOutcome = Sent(messageId: string) | Thrown(error: string)

  /** What `messaging.sendMulticast` does: resolve with per-batch counts and the
      provider's per-recipient replies (passed through unread), or throw. */
  datatype BatchOutcome =
    | BatchSent(successCount: nat, failureCount: nat, responses: seq<SendOutcome>)
    | BatchThrown(error: string)

  /** The normalised result object each send function returns. */
  datatype SendResult =
    | TopicSent(messageId: string, topic: string)
    | TokenSent(messageId: string, token: string)
    | MulticastSent(successCount: nat, failureCount: nat, responses: seq<SendOutcome>)
    | SendFailed(error: string)
  {
    /** The `success` field. */
    predicate Success() { !SendFailed? }
  }

  /** One call of a send function: the envelope handed to the gateway, and the
      result returned to the caller. */
  datatype SendCall = SendCall(envelope: Envelope, result: SendResult)

  const TimestampKey: string := "timestamp"
  const HighPriority: string := "high"
  const DefaultSound: string := "default"
  const DefaultChannel: string := "default_channel"
  const LauncherIcon: string := "@mipmap/ic_launcher"
  const Ellipsis: string := "..."
  const RedactedLength: nat := 20
  /** The message of the TypeError that `token.substring(0, 20)` raises in the
      JavaScript engine when a truthy `token` is not a string. */
  const SubstringNotAFunction: string := "token.substring is not a function"

  /** The `notification` block: title and body unchanged, `imageUrl` only when truthy. */
  function NotificationBlock(title: string, body: string, imageUrl: Option<string>): (n: Notification)
    ensures n.title == title && n.body == body
    ensures n.imageUrl.Some? <==> imageUrl.Some? && imageUrl.value != ""
    ensures n.imageUrl.Some? ==> n.imageUrl == imageUrl
  {
    Notification(title, body, if imageUrl.Some? && imageUrl.value != "" then imageUrl else None)
  }

  /** `{...data, timestamp}`: every caller key is kept with its value, except that
      `timestamp` is always present and always the send-time stamp. */
  function StampedData(data: map<string, string>, timestamp: string): (d: map<string, string>)
    ensures d.Keys == data.Keys + {TimestampKey}
    ensures d[TimestampKey] == timestamp
    ensures forall k :: k in data && k != TimestampKey ==> d[k] == data[k]
  {
    data + map[TimestampKey := timestamp]
  }

  /** The envelope `sendToTopic` builds: addressed to the topic, with an Android
      icon and an iOS alert that repeats the notification text. */
  function TopicEnvelope(topic: string, title: string, body: string, data: map<string, string>,
                         imageUrl: Option<string>, timestamp: string): (m: Envelope)
    ensures m.target == Topic(topic)
    ensures m.notification == NotificationBlock(title, body, imageUrl)
    ensures m.data == StampedData(data, timestamp)
    ensures m.android.priority == HighPriority && m.android.notification.icon == Some(LauncherIcon)
    ensures m.apns.Some? && m.apns.value.alert == Some(Alert(m.notification.title, m.notification.body))
  {
    Envelope(
      Topic(topic),
      NotificationBlock(title, body, imageUrl),
      StampedData(data, timestamp),
      AndroidConfig(HighPriority, AndroidNotification(DefaultSound, DefaultChannel, Some(LauncherIcon))),
      Some(Aps(DefaultSound, 1, Some(Alert(title, body)))))
  }

  /** The envelope `sendToToken` builds: addressed to one device, no Android
      icon, and an iOS block without an alert. */
  function TokenEnvelope(token: Value, title: string, body: string, data: map<string, string>,
                         imageUrl: Option<string>, timestamp: string): (m: Envelope)
    ensures m.target == Token(token)
    ensures m.notification == NotificationBlock(title, body, imageUrl)
    ensures m.data == StampedData(data, timestamp)
    ensures m.android.priority == HighPriority && m.android.notification.icon == None
    ensures m.apns.Some? && m.apns.value.alert == None
  {
    Envelope(
      Token(token),
      NotificationBlock(title, body, imageUrl),
      StampedData(data, timestamp),
      AndroidConfig(HighPriority, AndroidNotification(DefaultSound, DefaultChannel, None)),
      Some(Aps(DefaultSound, 1, None)))
  }

  /** The envelope `sendToMultipleTokens` builds: addressed to a list of devices,
      no Android icon and no iOS block at all. */
  function MulticastEnvelope(tokens: seq<string>, title: string, body: string, data: map<string, string>,
                             imageUrl: Option<string>, timestamp: string): (m: Envelope)
    ensures m.target == Tokens(tokens)
    ensures m.notification == NotificationBlock(title, body, imageUrl)
    ensures m.data == StampedData(data, timestamp)
    ensures m.android.priority == HighPriority && m.android.notification.icon == None
    ensures m.apns == None
  {
    Envelope(
      Tokens(tokens),
      NotificationBlock(title, body, imageUrl),
      StampedData(data, timestamp),
      AndroidConfig(HighPriority, AndroidNotification(DefaultSound, DefaultChannel, None)),
      None)
  }

  /** `token.substring(0, 20) + '...'`: a prefix of the token, at most twenty
      characters of it, followed by an ellipsis. */
  function Redact(token: string): (r: string)
    ensures |r| == (if |token| < RedactedLength then |token| else RedactedLength) + |Ellipsis|
    ensures r[..|r| - |Ellipsis|] <= token
    ensures r[|r| - |Ellipsis|..] == Ellipsis
  {
    Prefix(token, RedactedLength) + Ellipsis
  }

  /** A token of at most twenty characters is not hidden at all: its redacted
      form is the whole token plus the ellipsis. */
  lemma {:induction false} ShortTokenFullyExposed(token: string)
    requires |token| <= RedactedLength
    ensures Redact(token) == token + Ellipsis
  {
    var r := Redact(token);
    assert r[..|r| - |Ellipsis|] == token;
    assert r == r[..|r| - |Ellipsis|] + r[|r| - |Ellipsis|..];
  }

  /** A longer token shows only its first twenty characters. */
  lemma LongTokenTruncated(token: string)
    requires |token| > RedactedLength
    ensures |Redact(token)| == RedactedLength + |Ellipsis|
    ensures Redact(token)[..RedactedLength] == token[..RedactedLength]
  {
  }

  /** `sendToTopic`: one gateway call with the topic envelope; never throws. On
      success the result echoes the topic; an exception becomes its message. */
  function SendToTopic(topic: string, title: string, body: string, data: map<string, string>,
                       imageUrl: Option<string>, timestamp: string, outcome: SendOutcome): (d: SendCall)
    ensures d.envelope.target == Topic(topic)
    ensures d.envelope == TopicEnvelope(topic, title, body, data, imageUrl, timestamp)
    ensures d.result.Success() <==> outcome.Sent?
    ensures outcome.Sent? ==> d.result == TopicSent(outcome.messageId, topic)
    ensures outcome.Thrown? ==> d.result == SendFailed(outcome.error)
  {
    var message := TopicEnvelope(topic, title, body, data, imageUrl, timestamp);
    match outcome
    case Sent(id) => SendCall(message, TopicSent(id, topic))
    case Thrown(e) => SendCall(message, SendFailed(e))
  }

  /** `sendToToken`: one gateway call with the token envelope; never throws. On
      success the result carries only the redacted token. The redaction runs
      inside the same `try`, so a token that is not a string turns even a
      delivered message into a failure. */
  function SendToToken(token: Value, title: string, body: string, data: map<string, string>,
                       imageUrl: Option<string>, timestamp: string, outcome: SendOutcome): (d: SendCall)
    requires token.Str? || Truthy(token)
    ensures d.envelope.target == Token(token)
    ensures d.envelope == TokenEnvelope(token, title, body, data, imageUrl, timestamp)
    ensures d.result.Success() <==> outcome.Sent? && token.Str?
    ensures outcome.Sent? && token.Str? ==> d.result.TokenSent? && d.result.messageId == outcome.messageId
    ensures outcome.Sent? && token.Str? ==> |d.result.token| <= RedactedLength + |Ellipsis|
    ensures outcome.Sent? && token.Str? ==> d.result.token == Redact(token.s)
    ensures outcome.Sent? && !token.Str? ==> d.result == SendFailed(SubstringNotAFunction)
    ensures outcome.Thrown? ==> d.result == SendFailed(outcome.error)
  {
    var message := TokenEnvelope(token, title, body, data, imageUrl, timestamp);
    match outcome
    case Sent(id) =>
      if token.Str? then SendCall(message, TokenSent(id, Redact(token.s)))
      else SendCall(message, SendFailed(SubstringNotAFunction))
    case Thrown(e) => SendCall(message, SendFailed(e))
  }

  /** `sendToMultipleTokens`: one batch gateway call; the counts and the
      per-recipient replies pass through unchanged, and an outright exception
      becomes its message. */
  function SendToMultipleTokens(tokens: seq<string>, title: string, body: string, data: map<string, string>,
                                imageUrl: Option<string>, timestamp: string, outcome: BatchOutcome): (d: SendCall)
    ensures d.envelope.target == Tokens(tokens)
    ensures d.envelope == MulticastEnvelope(tokens, title, body, data, imageUrl, timestamp)
    ensures d.result.Success() <==> outcome.BatchSent?
    ensures outcome.BatchSent? ==>
      d.result == MulticastSent(outcome.successCount, outcome.failureCount, outcome.responses)
    ensures outcome.BatchThrown? ==> d.result == SendFailed(outcome.error)
  {
    var message := MulticastEnvelope(tokens, title, body, data, imageUrl, timestamp);
    match outcome
    case BatchSent(ok, failed, replies) => SendCall(message, MulticastSent(ok, failed, replies))
    case BatchThrown(e) => SendCall(message, SendFailed(e))
  }

  /** Whatever the caller puts in `data`, the delivered data block holds every
      caller key but `timestamp` unchanged, and `timestamp` is the send time. */
  lemma {:induction false} CallerDataSurvivesStamp(topic: string, title: string, body: string,
                                                   data: map<string, string>, imageUrl: Option<string>,
                                                   timestamp: string, outcome: SendOutcome, k: string)
    requires k in data
    ensures k in SendToTopic(topic, title, body, data, imageUrl, timestamp, outcome).envelope.data
    ensures SendToTopic(topic, title, body, data, imageUrl, timestamp, outcome).envelope.data[k] ==
      if k == TimestampKey then timestamp else data[k]
  {
    var d := StampedData(data, timestamp);
    assert k in d;
  }

  /** The platform hints differ by builder: only the topic send carries an
      Android icon and an iOS alert; only the multicast has no iOS block. */
  lemma PlatformHintsByBuilder(topic: string, token: Value, tokens: seq<string>, title: string, body: string,
                               data: map<string, string>, imageUrl: Option<string>, timestamp: string)
    ensures TopicEnvelope(topic, title, body, data, imageUrl, timestamp).apns.value.alert == Some(Alert(title, body))
    ensures TokenEnvelope(token, title, body, data, imageUrl, timestamp).apns.value.alert == None
    ensures MulticastEnvelope(tokens, title, body, data, imageUrl, timestamp).apns == None
    ensures TopicEnvelope(topic, title, body, data, imageUrl, timestamp).android.notification.icon.Some?
    ensures TokenEnvelope(token, title, body, data, imageUrl, timestamp).android.notification.icon.None?
    ensures MulticastEnvelope(tokens, title, body, data, imageUrl, timestamp).android.notification.icon.None?
  {
  }
}
