/** The dispatcher: a minimum-level filter in front of the enabled channels. */
module Notifiers {
  import opened Wrappers
  import opened Events
  import Config
  import LogNotifier
  import SlackNotifier

  /** One channel invocation and what it was handed. */
  datatype Delivery = ToLog(line: LogNotifier.LogLine) | ToSlack(post: SlackNotifier.Post)

  datatype Channel = LogChannel | SlackChannel

  /** What `SendAll` does: the deliveries it made, in order, and the message of the
      fatal error that stopped the process, if one did. */
  datatype Dispatch = Dispatch(deliveries: seq<Delivery>, fatal: Option<string>)

  function ChannelOf(d: Delivery): Channel {
    if d.ToLog? then LogChannel else SlackChannel
  }

  /** The channels invoked, in order. */
  function Channels(ds: seq<Delivery>): (cs: seq<Channel>)
    ensures |cs| == |ds|
    ensures forall i :: 0 <= i < |ds| ==> cs[i] == ChannelOf(ds[i])
  {
    seq(|ds|, i requires 0 <= i < |ds| => ChannelOf(ds[i]))
  }

  /** `stringInSlice`: a left-to-right search for `a`. */
  function StringInSlice(a: string, list: seq<string>): (found: bool)
    ensures found <==> a in list
    decreases |list|
  {
    if |list| == 0 then false
    else if list[0] == a then true
    else
      assert list == [list[0]] + list[1..];
      StringInSlice(a, list[1..])
  }

  /** The level filter of `SendAll`: the threshold picks the tail of
      [DEBUG, INFO, WARN, ERROR] starting at itself, and the level must be in it. A
      threshold that is not one of the four names selects nothing. */
  function ShouldSend(threshold: string, level: string): (send: bool)
    ensures send <==> Rank(threshold) >= 0 && Rank(level) >= Rank(threshold)
  {
    var levels := Levels;
    if threshold == DEBUG then StringInSlice(level, levels[0..])
    else if threshold == INFO then StringInSlice(level, levels[1..])
    else if threshold == WARN then StringInSlice(level, levels[2..])
    else if threshold == ERROR then StringInSlice(level, levels[3..])
    else false
  }

  /** The log step of `SendAll`: the line logged when the log channel is enabled, or the
      fatal error when the notifier rejects the level. */
  function SendLog(cfg: Config.Config, n: Notification): (r: Dispatch)
    ensures r.fatal.Some? <==> cfg.notifyLog && n.level !in Levels
    ensures r.deliveries == (if cfg.notifyLog && n.level in Levels then [ToLog(LogNotifier.Send(n).value)] else [])
  {
    if cfg.notifyLog then
      match LogNotifier.Send(n)
      case Success(line) => Dispatch([ToLog(line)], None)
      case Failure(e) => Dispatch([], Some("NotifyLog Error: " + e))
    else Dispatch([], None)
  }

  /** The channels `SendAll` invokes for a level that passes the filter, in order. */
  function EnabledChannels(cfg: Config.Config): seq<Channel> {
    (if cfg.notifyLog then [LogChannel] else []) + (if cfg.notifySlack then [SlackChannel] else [])
  }

  /** The chat step of `SendAll`: the post handed to the chat API, and the fatal error
      when the call fails. */
  function SendSlack(cfg: Config.Config, n: Notification, slackError: Option<string>): (r: Dispatch)
    ensures r.deliveries == [ToSlack(SlackNotifier.Build(cfg.notifySlackChannel, cfg.notifySlackAsUser, n))]
    ensures r.fatal.Some? <==> slackError.Some?
  {
    var post := SlackNotifier.Build(cfg.notifySlackChannel, cfg.notifySlackAsUser, n);
    Dispatch([ToSlack(post)], if slackError.Some? then Some("NotifySlack Error: " + slackError.value + "\n") else None)
  }

  /** `SendAll`: when the level passes the threshold, the log line (if the log channel is
      enabled) and then the chat post (if the chat channel is enabled); otherwise nothing.
      A channel error ends the process with a fatal log line, after which nothing else is
      delivered; only the chat call can fail, as every level that passes the filter is one
      the log notifier accepts. `slackError` is the outcome of the chat API call, which is
      outside the model. */
  function SendAll(cfg: Config.Config, n: Notification, slackError: Option<string>): (r: Dispatch)
    ensures !ShouldSend(cfg.notificationLevel, n.level) ==> r == Dispatch([], None)
    ensures ShouldSend(cfg.notificationLevel, n.level) ==>
      && LogNotifier.Send(n).Success?
      && r.deliveries ==
        (if cfg.notifyLog then [ToLog(LogNotifier.Send(n).value)] else [])
        + (if cfg.notifySlack then [ToSlack(SlackNotifier.Build(cfg.notifySlackChannel, cfg.notifySlackAsUser, n))] else [])
    ensures r.fatal.Some? <==> ShouldSend(cfg.notificationLevel, n.level) && cfg.notifySlack && slackError.Some?
  {
    if !ShouldSend(cfg.notificationLevel, n.level) then Dispatch([], None)
    else
      var logged := SendLog(cfg, n);
      if logged.fatal.Some? || !cfg.notifySlack then logged
      else
        var slack := SendSlack(cfg, n, slackError);
        Dispatch(logged.deliveries + slack.deliveries, slack.fatal)
  }

  /** When sending, the channels invoked are the enabled ones, log before chat; when not
      sending, none. */
  lemma SendAllChannelOrder(cfg: Config.Config, n: Notification, slackError: Option<string>)
    ensures var r := SendAll(cfg, n, slackError);
            Channels(r.deliveries) == if ShouldSend(cfg.notificationLevel, n.level) then EnabledChannels(cfg) else []
  {
    if ShouldSend(cfg.notificationLevel, n.level) {
      var logPart: seq<Delivery> := if cfg.notifyLog then [ToLog(LogNotifier.Send(n).value)] else [];
      var slackPart: seq<Delivery> := if cfg.notifySlack then [ToSlack(SlackNotifier.Build(cfg.notifySlackChannel, cfg.notifySlackAsUser, n))] else [];
      assert SendAll(cfg, n, slackError).deliveries == logPart + slackPart;
      ChannelsAppend(logPart, slackPart);
      ChannelsOfAtMostOne(logPart);
      ChannelsOfAtMostOne(slackPart);
    }
  }

  lemma ChannelsOfAtMostOne(ds: seq<Delivery>)
    requires |ds| <= 1
    ensures Channels(ds) == if |ds| == 0 then [] else [ChannelOf(ds[0])]
  {
  }

  /** The channels of two runs of deliveries, one after the other. */
  lemma ChannelsAppend(a: seq<Delivery>, b: seq<Delivery>)
    ensures Channels(a + b) == Channels(a) + Channels(b)
  {
    var l, r := Channels(a + b), Channels(a) + Channels(b);
    assert |l| == |r|;
    forall i | 0 <= i < |l|
      ensures l[i] == r[i]
    {
      if i < |a| {
        assert (a + b)[i] == a[i];
      } else {
        assert (a + b)[i] == b[i - |a|];
      }
    }
  }

  /** Raising the threshold never lets more levels through. */
  lemma ThresholdMonotone(lower: string, higher: string, level: string)
    requires Rank(lower) >= 0 && Rank(lower) <= Rank(higher)
    ensures ShouldSend(higher, level) ==> ShouldSend(lower, level)
  {
  }

  /** A threshold outside the four names sends nothing, whatever the level. */
  lemma UnknownThresholdSendsNothing(cfg: Config.Config, n: Notification, slackError: Option<string>)
    requires cfg.notificationLevel !in Levels
    ensures SendAll(cfg, n, slackError) == Dispatch([], None)
  {
  }

  /** A level outside the four names is never sent, whatever the threshold. */
  lemma UnknownLevelNeverSent(cfg: Config.Config, n: Notification, slackError: Option<string>)
    requires n.level !in Levels
    ensures SendAll(cfg, n, slackError) == Dispatch([], None)
  {
  }

  /** With threshold WARN, DEBUG and INFO reach no channel and WARN and ERROR reach every
      enabled one. */
  lemma WarnThresholdExample(level: string)
    ensures ShouldSend(WARN, level) <==> level == WARN || level == ERROR
  {
  }

  /** Every level the filter lets through is one the log notifier accepts, so the log
      channel never ends the process. */
  lemma FilteredLevelsAreLoggable(cfg: Config.Config, n: Notification)
    requires ShouldSend(cfg.notificationLevel, n.level)
    ensures LogNotifier.Send(n).Success?
  {
  }
}
