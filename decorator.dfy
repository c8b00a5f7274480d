/** The Decorator example: a plain notification that email and SMS decorators wrap, each adding
    its own line after everything the wrapped notification sends. Printing is modelled as the
    returned lines. */
module NotificationDecorator {

  /** A notification: the plain one, or a decorator around another notification. */
  datatype Notification =
    | Notification
    | EmailNotification(wrapped: Notification)
    | SMSNotification(wrapped: Notification)

  const BaseLine := "Sending notification..."
  const EmailLine := "Sending email notification..."
  const SmsLine := "Sending SMS notification..."

  /** A decorator kind, and the line it adds. */
  datatype Channel = Email | Sms

  function ChannelLine(c: Channel): string
  {
    match c
    case Email => EmailLine
    case Sms => SmsLine
  }

  /** The number of decorators around the plain notification. */
  function Depth(n: Notification): nat
  {
    match n
    case Notification => 0
    case EmailNotification(w) => Depth(w) + 1
    case SMSNotification(w) => Depth(w) + 1
  }

  /** `send`: a decorator first has the wrapped notification send, then adds its own line. So
      the plain line always comes first, and there is one line per layer. */
  function Send(n: Notification): (out: seq<string>)
    ensures |out| == Depth(n) + 1
    ensures out[0] == BaseLine
  {
    match n
    case Notification => [BaseLine]
    case EmailNotification(w) => Send(w) + [EmailLine]
    case SMSNotification(w) => Send(w) + [SmsLine]
  }

  /** The decorators of a notification, innermost first. */
  function Channels(n: Notification): (cs: seq<Channel>)
    ensures |cs| == Depth(n)
  {
    match n
    case Notification => []
    case EmailNotification(w) => Channels(w) + [Email]
    case SMSNotification(w) => Channels(w) + [Sms]
  }

  /** The lines the given decorators add, in order. */
  function Lines(cs: seq<Channel>): (out: seq<string>)
    ensures |out| == |cs|
  {
    seq(|cs|, i requires 0 <= i < |cs| => ChannelLine(cs[i]))
  }

  /** Wraps the plain notification in the given decorators, the first one innermost. */
  function Decorate(cs: seq<Channel>): (n: Notification)
    ensures Depth(n) == |cs|
  {
    if cs == [] then Notification
    else
      var inner := Decorate(cs[..|cs| - 1]);
      match cs[|cs| - 1]
      case Email => EmailNotification(inner)
      case Sms => SMSNotification(inner)
  }

  /** Reference definition of `send`: the plain line, then each decorator's line from the
      innermost outwards. */
  lemma {:induction false} SendIsBaseThenChannels(n: Notification)
    ensures Send(n) == [BaseLine] + Lines(Channels(n))
  {
    match n
    case Notification =>
    case EmailNotification(w) =>
      SendIsBaseThenChannels(w);
      assert Lines(Channels(w) + [Email]) == Lines(Channels(w)) + [EmailLine];
    case SMSNotification(w) =>
      SendIsBaseThenChannels(w);
      assert Lines(Channels(w) + [Sms]) == Lines(Channels(w)) + [SmsLine];
  }

  /** Every stack of decorators can be built, and reading its decorators back gives the stack. */
  lemma {:induction false} ChannelsOfDecorate(cs: seq<Channel>)
    ensures Channels(Decorate(cs)) == cs
  {
    if cs != [] {
      ChannelsOfDecorate(cs[..|cs| - 1]);
      assert cs[..|cs| - 1] + [cs[|cs| - 1]] == cs;
    }
  }

  /** A notification is determined by its decorators. */
  lemma {:induction false} DecorateOfChannels(n: Notification)
    ensures Decorate(Channels(n)) == n
  {
    match n
    case Notification =>
    case EmailNotification(w) =>
      DecorateOfChannels(w);
      assert (Channels(w) + [Email])[..|Channels(w)|] == Channels(w);
    case SMSNotification(w) =>
      DecorateOfChannels(w);
      assert (Channels(w) + [Sms])[..|Channels(w)|] == Channels(w);
  }

  /** The combined test: SMS around email around the plain notification sends the plain, the
      email and the SMS lines, in that order. */
  lemma SmsAroundEmail()
    ensures Send(SMSNotification(EmailNotification(Notification))) == [BaseLine, EmailLine, SmsLine]
  {
    assert Send(EmailNotification(Notification)) == [BaseLine, EmailLine];
  }
}
