/** The structured-log notifier: one log line per notification, at the notification's level. */
module LogNotifier {
  import opened Wrappers
  import opened Events

  /** The logger severities the four level names select. */
  datatype Severity = DebugSeverity | InfoSeverity | WarnSeverity | ErrorSeverity

  /** One emitted log line. */
  datatype LogLine = LogLine(severity: Severity, text: string)

  const InvalidLevel: string := "Invalid Notification.Level provided"

  /** The level name a severity is selected by. */
  function SeverityName(s: Severity): string {
    match s
    case DebugSeverity => DEBUG
    case InfoSeverity => INFO
    case WarnSeverity => WARN
    case ErrorSeverity => ERROR
  }

  /** "NotifyLog: cluster / reason / message / lastTimestamp", the part every line has. */
  function Summary(n: Notification): string {
    "NotifyLog: " + n.cluster + " / " + n.event.reason + " / " + n.event.message
    + " / " + n.event.lastTimestamp.text
  }

  /** The text of the line: the summary, then " / @mention" when there is a mention.
      The mention can be read back from the text after the summary. */
  function Message(n: Notification): (m: string)
    ensures Summary(n) <= m
    ensures |m| > |Summary(n)| <==> n.mention != ""
    ensures n.mention != "" ==> m[|Summary(n)|..] == " / @" + n.mention
  {
    var summary := Summary(n);
    if n.mention != "" then summary + " / @" + n.mention else summary
  }

  /** `Send`: logs the message at the severity named by the level, and reports an error
      exactly for a level outside DEBUG/INFO/WARN/ERROR. */
  function Send(n: Notification): (r: Result<LogLine, string>)
    ensures r.Failure? <==> n.level !in Levels
    ensures r.Failure? ==> r.error == InvalidLevel
    ensures r.Success? ==> SeverityName(r.value.severity) == n.level && r.value.text == Message(n)
  {
    var message := Message(n);
    if n.level == DEBUG then Success(LogLine(DebugSeverity, message))
    else if n.level == INFO then Success(LogLine(InfoSeverity, message))
    else if n.level == WARN then Success(LogLine(WarnSeverity, message))
    else if n.level == ERROR then Success(LogLine(ErrorSeverity, message))
    else Failure(InvalidLevel)
  }

  /** Distinct levels are logged at distinct severities. */
  lemma SeverityFollowsLevel(n: Notification, n': Notification)
    requires Send(n).Success? && Send(n').Success?
    ensures Send(n).value.severity == Send(n').value.severity <==> n.level == n'.level
  {
  }
}
