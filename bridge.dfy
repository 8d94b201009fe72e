/**
 * The Bridge example of Bridge/Program.cs: message types (the abstraction)
 * compose a subject and a body and hand them to a notification platform
 * (the implementor), which a message can switch at run time.
 *
 * The platforms only write to the console, so each call to
 * SendNotification is recorded in a NotificationLog shared by all messages,
 * in the order the calls happen.
 */
module Bridge {
  import opened Wrappers

  /** The three concrete implementors of INotificationPlatform. */
  datatype Platform = EmailPlatform | SmsPlatform | PushNotificationPlatform

  /** The four refined abstractions of Message. */
  datatype MessageType = UrgentMessage | StandardMessage | MarketingMessage | ReminderMessage

  /** The `_recipient` every message sends to. */
  const Recipient: string := "user@example.com"

  /** One call of SendNotification: the platform it reached and its three arguments. */
  datatype Notification = Notification(platform: Platform, recipient: string, subject: string, body: string)

  /** The subject each message type sends. */
  function Subject(t: MessageType): string {
    match t
    case UrgentMessage => "URGENT ACTION REQUIRED"
    case StandardMessage => "Information"
    case MarketingMessage => "Special Offer"
    case ReminderMessage => "Reminder"
  }

  /** The text a message type puts before the content. */
  function Prefix(t: MessageType): string {
    match t
    case UrgentMessage => "\U{26A0}\U{FE0F} URGENT: "
    case StandardMessage => ""
    case MarketingMessage => "\U{1F4E2} "
    case ReminderMessage => "\U{23F0} Reminder: "
  }

  /** The text a message type puts after the content. */
  function Suffix(t: MessageType): string {
    match t
    case UrgentMessage => "\nPlease take immediate action!"
    case StandardMessage => ""
    case MarketingMessage => "\nClick here to learn more!"
    case ReminderMessage => ""
  }

  /** The body each message type sends: its template around the unchanged content. */
  function Body(t: MessageType, content: string): string {
    Prefix(t) + content + Suffix(t)
  }

  /** The text between `prefix` and `suffix`, when `body` starts with the one and ends with the other. */
  function Unframe(prefix: string, suffix: string, body: string): (r: Option<string>)
    ensures r.Some? ==> prefix + r.value + suffix == body
  {
    if |prefix| + |suffix| <= |body| && body[..|prefix|] == prefix && body[|body| - |suffix|..] == suffix then
      assert body == body[..|prefix|] + body[|prefix|..|body| - |suffix|] + body[|body| - |suffix|..];
      Some(body[|prefix|..|body| - |suffix|])
    else None
  }

  /** The content recovered from a body of the given type, if the body has that type's frame. */
  function ContentOf(t: MessageType, body: string): (r: Option<string>)
    ensures r.Some? ==> Body(t, r.value) == body
  {
    Unframe(Prefix(t), Suffix(t), body)
  }

  /** Sending loses nothing: the content can be read back from every body. */
  lemma ContentRoundTrip(t: MessageType, content: string)
    ensures ContentOf(t, Body(t, content)) == Some(content)
  {
    var p := Prefix(t);
    var s := Suffix(t);
    var b := p + content + s;
    assert b[..|p|] == p;
    assert b[|b| - |s|..] == s;
    assert b[|p|..|b| - |s|] == content;
  }

  /** The subject identifies the message type. */
  lemma SubjectIdentifiesType(t1: MessageType, t2: MessageType)
    ensures Subject(t1) == Subject(t2) <==> t1 == t2
  {
    if t1 != t2 {
      assert Subject(t1)[0] != Subject(t2)[0] || |Subject(t1)| != |Subject(t2)|;
    }
  }

  /** Everything the platforms have been asked to deliver, in order. */
  class NotificationLog {
    var calls: seq<Notification>

    constructor()
      ensures calls == []
    {
      calls := [];
    }
  }

  /** Message: a message type bound to a switchable platform. */
  class Message {
    const kind: MessageType
    /** The `_platform` field. */
    var platform: Platform
    /** Where the platform calls are recorded. */
    const log: NotificationLog

    constructor(kind: MessageType, platform: Platform, log: NotificationLog)
      ensures this.kind == kind && this.platform == platform && this.log == log
    {
      this.kind := kind;
      this.platform := platform;
      this.log := log;
    }

    /** SetPlatform: later sends go to the new platform. */
    method SetPlatform(platform: Platform)
      modifies this`platform
      ensures this.platform == platform
    {
      this.platform := platform;
    }

    /** Send: exactly one call, to the current platform, with the recipient, the subject and the body. */
    method Send(content: string)
      modifies log`calls
      ensures log.calls == old(log.calls) + [Notification(platform, Recipient, Subject(kind), Body(kind, content))]
    {
      var subject := Subject(kind);
      var body := Body(kind, content);
      log.calls := log.calls + [Notification(platform, Recipient, subject, body)];
    }
  }

  /** Switching the platform and sending reaches the new platform only, with the unchanged templates. */
  method SwitchAndSend(m: Message, p: Platform, content: string)
    modifies m`platform, m.log`calls
    ensures m.platform == p
    ensures m.log.calls == old(m.log.calls) + [Notification(p, Recipient, Subject(m.kind), Body(m.kind, content))]
  {
    m.SetPlatform(p);
    m.Send(content);
  }
}
