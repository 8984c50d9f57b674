/**
 * The decorator pattern exercise: an `EmailNotifier` (or the SMS-only base notifier)
 * can be wrapped in SMS and Slack decorators; each decorator first lets the notifier
 * it wraps send, then adds its own line. A notifier is a value, and `Send` returns the
 * lines it prints.
 */
module NotifierDecorator {

  /** A notifier: a base component, or a decorator around another notifier. */
  datatype Notifier =
    | EmailNotifier
    | SmsNotifierWrapper
    | SmsNotifierDecorator(wrapped: Notifier)
    | SlackNotifierDecorator(wrapped: Notifier)

  /** The channel one layer sends on. */
  datatype Channel = Email | SmsBase | Sms | Slack

  /** The text in front of the message on one channel's line. */
  function Prefix(c: Channel): string {
    match c
    case Email => "Sending Email Notification: "
    case SmsBase => "Sending SMS (base) Notification: "
    case Sms => "Sending SMS Notification: "
    case Slack => "Sending Slack Notification: "
  }

  function ChannelLine(c: Channel, message: string): string {
    Prefix(c) + message
  }

  /** The layers from the innermost (the base component) outwards. */
  function Channels(n: Notifier): (cs: seq<Channel>)
    ensures |cs| >= 1 && (cs[0] == Email || cs[0] == SmsBase)
  {
    match n
    case EmailNotifier => [Email]
    case SmsNotifierWrapper => [SmsBase]
    case SmsNotifierDecorator(inner) => Channels(inner) + [Sms]
    case SlackNotifierDecorator(inner) => Channels(inner) + [Slack]
  }

  /**
   * `Send(message)`: a base component prints its line; a decorator delegates to the
   * notifier it wraps with the same message (`base.Send`) and then prints its own line.
   */
  function Send(n: Notifier, message: string): (lines: seq<string>)
    ensures |lines| == |Channels(n)|
  {
    match n
    case EmailNotifier => [ChannelLine(Email, message)]
    case SmsNotifierWrapper => [ChannelLine(SmsBase, message)]
    case SmsNotifierDecorator(inner) => Send(inner, message) + [ChannelLine(Sms, message)]
    case SlackNotifierDecorator(inner) => Send(inner, message) + [ChannelLine(Slack, message)]
  }

  /** One line per layer, in layer order from the innermost out, each carrying the message unchanged. */
  lemma {:induction false} SendFollowsChannels(n: Notifier, message: string)
    ensures forall i :: 0 <= i < |Channels(n)| ==> Send(n, message)[i] == ChannelLine(Channels(n)[i], message)
  {
    match n
    case EmailNotifier =>
    case SmsNotifierWrapper =>
    case SmsNotifierDecorator(inner) =>
      SendFollowsChannels(inner, message);
    case SlackNotifierDecorator(inner) =>
      SendFollowsChannels(inner, message);
  }

  /** A decorator's output is the wrapped notifier's output, followed by exactly one line of its own. */
  lemma DecoratorSendsAfterWrapped(n: Notifier, message: string)
    requires n.SmsNotifierDecorator? || n.SlackNotifierDecorator?
    ensures var lines := Send(n, message);
      lines[..|lines| - 1] == Send(n.wrapped, message) &&
      lines[|lines| - 1] == ChannelLine(if n.SmsNotifierDecorator? then Sms else Slack, message)
  {
  }

  /** The message can be read back from every line: it is the line without its channel's prefix. */
  lemma MessageUnchanged(n: Notifier, message: string)
    ensures forall i :: 0 <= i < |Channels(n)| ==>
      |Send(n, message)[i]| >= |Prefix(Channels(n)[i])| &&
      Send(n, message)[i][|Prefix(Channels(n)[i])|..] == message
  {
    SendFollowsChannels(n, message);
    forall i | 0 <= i < |Channels(n)|
      ensures |Send(n, message)[i]| >= |Prefix(Channels(n)[i])|
      ensures Send(n, message)[i][|Prefix(Channels(n)[i])|..] == message
    {
      var c := Channels(n)[i];
      assert Send(n, message)[i] == Prefix(c) + message;
    }
  }

  /** Slack around SMS around email sends exactly three lines: email, then SMS, then Slack. */
  lemma AllChannels(message: string)
    ensures Send(SlackNotifierDecorator(SmsNotifierDecorator(EmailNotifier)), message) ==
      ["Sending Email Notification: " + message, "Sending SMS Notification: " + message,
       "Sending Slack Notification: " + message]
  {
    var inner := SmsNotifierDecorator(EmailNotifier);
    assert Send(inner, message) == [ChannelLine(Email, message), ChannelLine(Sms, message)];
  }
}
