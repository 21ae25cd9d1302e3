/** The chat notifier: one message with three attachments posted to a channel. */
module SlackNotifier {
  import opened Wrappers
  import opened Events
  import Strings

  datatype Field = Field(title: string, value: string, short: bool)

  /** An attachment; `color` is "" when none is set. */
  datatype Attachment = Attachment(fallback: string, title: string, color: string, fields: seq<Field>)

  datatype PostParameters = PostParameters(username: string, linkNames: int, asUser: bool, attachments: seq<Attachment>)

  /** What `Send` hands to the chat API's PostMessage: channel, text and parameters. */
  datatype Post = Post(channel: string, text: string, params: PostParameters)

  const Username: string := "kit-overwatch"

  /** The attachment colour for a level; other levels (DEBUG included) get none. */
  function Color(level: string): (c: string)
    ensures c != "" <==> level in [INFO, WARN, ERROR]
  {
    if level == INFO then "good"
    else if level == WARN then "warning"
    else if level == ERROR then "danger"
    else ""
  }

  /** The level a colour stands for, the inverse of `Color` on the levels that have one. */
  function ColorLevel(c: string): string {
    if c == "good" then INFO
    else if c == "warning" then WARN
    else if c == "danger" then ERROR
    else ""
  }

  lemma ColorRoundTrip(level: string)
    requires Color(level) != ""
    ensures ColorLevel(Color(level)) == level
  {
  }

  /** The first attachment: the message, coloured by level, with cluster/reason/type/level. */
  function EventAttachment(n: Notification): Attachment {
    Attachment(n.event.message, "", Color(n.level), [
      Field("Message", n.event.message, false),
      Field("Cluster", n.cluster, true),
      Field("Reason", n.event.reason, true),
      Field("Type", n.event.eventType, true),
      Field("Level", n.level, true)
    ])
  }

  /** The second attachment: where and how often the event happened. */
  function DetailsAttachment(n: Notification): Attachment {
    Attachment(n.event.message, "Details", "", [
      Field("Name", n.event.meta.name, false),
      Field("Node", n.event.source.host, true),
      Field("Namespace", n.event.meta.namespace, true),
      Field("Component", n.event.source.component, true),
      Field("Count", Strings.IntToDecimal(n.event.count), true),
      Field("First Occurrence", n.event.firstTimestamp.rfc1123, true),
      Field("Lastest Occurrence", n.event.lastTimestamp.rfc1123, true)
    ])
  }

  /** The third attachment: the involved object's kind and name. */
  function InvolvedObjectAttachment(n: Notification): Attachment {
    var o := n.event.involvedObject;
    Attachment(o.kind + " " + o.name, "Involved Object", "", [
      Field("Kind", o.kind, true),
      Field("Name", o.name, true)
    ])
  }

  /** "`reason` event for `name` on `cluster`", naming the event object as it is. */
  function Headline(n: Notification): string {
    "`" + n.event.reason + "` event for `" + n.event.meta.name + "` on `" + n.cluster + "`"
  }

  const AlertingPrefix: string := "Alerting @"
  const Concerning: string := " concerning "

  /** The message text: the headline, addressed to "@mention" when there is a mention.
      Without a mention the text is the headline alone; with one it is the "Alerting @"
      opening, the mention, " concerning " and then the headline. */
  function MessageText(n: Notification): (text: string)
    ensures AlertingPrefix <= text <==> n.mention != ""
    ensures n.mention == "" ==> text == Headline(n)
    ensures |Headline(n)| <= |text| && text[|text| - |Headline(n)|..] == Headline(n)
    ensures n.mention != "" ==> |text| == |AlertingPrefix| + |n.mention| + |Concerning| + |Headline(n)|
    ensures n.mention != "" ==> text[|AlertingPrefix|..|AlertingPrefix| + |n.mention|] == n.mention
    ensures n.mention != "" ==> text[|AlertingPrefix| + |n.mention|..|text| - |Headline(n)|] == Concerning
  {
    var headline := Headline(n);
    if n.mention != "" then
      var text := AlertingPrefix + n.mention + Concerning + headline;
      assert text[|text| - |headline|..] == headline;
      assert text[|AlertingPrefix| + |n.mention|..|text| - |headline|] == Concerning;
      text
    else
      assert headline[0] == '`';
      headline
  }

  /** Reads the mention back from a message text, given the headline that closes it:
      "" for the bare headline, `None` for a text of neither form. */
  function TextMention(text: string, headline: string): Option<string> {
    if text == headline then Some("") else Strings.Unframe(text, AlertingPrefix, Concerning + headline)
  }

  /** The mention a message was addressed to can be read back from its text. */
  lemma MessageTextReadBack(n: Notification)
    ensures TextMention(MessageText(n), Headline(n)) == Some(n.mention)
  {
    var h := Headline(n);
    if n.mention != "" {
      var text := MessageText(n);
      assert text == AlertingPrefix + n.mention + (Concerning + h);
      assert text != h;
      Strings.UnframeFramed(AlertingPrefix, n.mention, Concerning + h);
    }
  }

  /** `Send` up to the network call: the post for a channel, addressed as the bot user
      "kit-overwatch" with name linking on. */
  function Build(channel: string, asUser: bool, n: Notification): (p: Post)
    ensures p.channel == channel && p.text == MessageText(n)
    ensures p.params.username == Username && p.params.linkNames == 1 && p.params.asUser == asUser
    ensures p.params.attachments == [EventAttachment(n), DetailsAttachment(n), InvolvedObjectAttachment(n)]
  {
    Post(channel, MessageText(n),
      PostParameters(Username, 1, asUser, [EventAttachment(n), DetailsAttachment(n), InvolvedObjectAttachment(n)]))
  }

  /** The involved-object fallback is the kind, a space, and the name. */
  lemma InvolvedObjectFallback(n: Notification)
    ensures var f := InvolvedObjectAttachment(n).fallback;
            var k := n.event.involvedObject.kind;
            |f| > |k| && f[..|k|] == k && f[|k|] == ' ' && f[|k| + 1..] == n.event.involvedObject.name
  {
  }
}
