# kit-overwatch decision and formatting logic, in Dafny

kit-overwatch watches the event history of one Kubernetes namespace. It decides which events
are worth a notification and classifies their severity. It picks an addressee (the
"mention") and hands each notification to the enabled channels: a structured log, a chat
channel (Slack) and a monitoring-event API (Datadog).

This project models the pure part of that pipeline as immutable datatypes and total
functions, and proves what they guarantee:

- `Watcher` (watcher/watcher.go). `Step` is the loop body of `Watch` for one listed event.
  It applies the duplicate check on `Count`, the startup window and the escalating throttle
  to two maps keyed by event UID. `Pass` folds `Step` over one listing and `Run` folds
  `Pass` over a run of listings. `GetLevel` is the reason-to-severity table.
  `ResolveMention` is the mention fallback of `notify`, and `Notify` composes them with the
  dispatcher. Times are integers in nanoseconds.
- `Notifiers` (notifiers/notifiers.go). `StringInSlice`, the threshold filter `ShouldSend`,
  and `SendAll`, which returns the deliveries made, in order, plus the fatal error that
  ends the process, if any.
- `LogNotifier`, `SlackNotifier`, `DatadogNotifier` (notifiers/log, slack, datadog). Each
  builds the log line, the chat post or the monitoring event a notification becomes.
- `Config` (config/config.go). The listen-address check `^(?:[^\s]+)?:\d+$` as an explicit
  string scan, proved equal to a declarative reading of the pattern. Also the error
  aggregation of `LoadEnvVars`.
- `Events`, `Strings`, `Wrappers`. The event and notification records, Go's
  `strings.Split`/`Join` and `%d`, and `Option`/`Result`.

Notes on what the code does, where a reader might expect otherwise:

- Each repeat dispatch records `previous + 1` as the backoff level. So an event
  dispatched twice has level 1, not 2, and waits one minute before its third dispatch.
  `Watcher.RepeatScenario` states this.
- Where the code and its tests disagree, the model follows the code.
  `notifiers/datadog/datadog_unit_test.go` expects a title prefix "k8s Event for [m]
  concerning". The code writes "Alerting [m] concerning", and `DatadogNotifier.Title`
  follows the code.
- The Datadog notifier is not called by `SendAll`, which only knows the log and chat
  channels. It is modelled on its own.

## Model

| member | source | states |
|---|---|---|
| Watcher.Step | watcher/watcher.go:96-139 | A snapshot whose count is already remembered is skipped and leaves both maps unchanged. Any other snapshot is remembered first. It is skipped as stale iff it was last seen two or more minutes before the start. It is throttled iff a throttle record exists and `now` is not after `lastSent + count` minutes. Otherwise it is dispatched and records `(now, 0)` on first dispatch or `(now, previous + 1)`. The throttle map changes only on dispatch. Every other UID's entries are untouched. |
| Watcher.Sub | watcher/watcher.go:114 | `Time.Sub` saturates to the 64-bit Duration range. Saturation never moves a difference across the two-minute mark. |
| Watcher.Quo | watcher/watcher.go:115 | Go's integer conversion truncates toward zero: a non-negative quotient is the floor, and a negative dividend never gives a positive quotient. |
| Watcher.StartupWindowIsTwoMinutes | watcher/watcher.go:113-118 | `int(diff.Minutes()) > 1` holds iff the event was last seen at least two minutes before the start. So 2m is skipped, while 1m59s, 30s and later events pass. |
| Watcher.BackoffEscalates | watcher/watcher.go:120-135 | A repeat dispatch happens only once `now` is after `lastSent + count` minutes. It then records `lastSent = now` and a quiet period one minute longer. |
| Watcher.Pass | watcher/watcher.go:96-139 | Folding over one listing dispatches only listed events, and no UID more often than the listing holds it, since each item gets one step. Afterwards every listed UID is remembered, unlisted UIDs keep their entries, and "throttle record only for a seen event" is preserved. |
| Watcher.PassCountsDispatches | watcher/watcher.go:120-135 | Across a listing, each event's throttle record tracks its dispatches: "none" means none, and backoff level k means k + 1, so the level grows by exactly one per dispatch. |
| Watcher.PassRemembersCounts | watcher/watcher.go:107-111 | After a pass over a listing with distinct UIDs, every listed event's count is the remembered one. |
| Watcher.RememberedListingIsSilent | watcher/watcher.go:98-105 | A listing whose every snapshot is already remembered dispatches nothing and changes no state. |
| Watcher.PassIdempotent | watcher/watcher.go:96-111 | Processing a listing with distinct UIDs again, at any later time, dispatches nothing and changes nothing. Every cluster listing has distinct UIDs, and the lemma needs that. |
| Watcher.SkippedOccurrenceNotRetried | watcher/watcher.go:107-130 | A non-duplicate snapshot is remembered even when it is skipped as stale or throttled. The same UID and count is then a duplicate at any later time, so a skipped occurrence is never retried unless its count changes. |
| Watcher.Run | watcher/watcher.go:86-140 | The watch loop re-lists on every signal and keeps the invariant that throttle records exist only for seen events. |
| Watcher.RunCountsDispatches | watcher/watcher.go:86-140 | Over a whole run, each event's throttle record says how many times it was dispatched. |
| Watcher.RepeatScenario | watcher/watcher.go:96-139 | An event first seen with count 1 is dispatched with level 0. The unchanged snapshot 30s later is a duplicate. The count-2 snapshot one minute later is dispatched with level 1. |
| Watcher.GetLevel | watcher/watcher.go:145-189 | A known reason gets its table level and any other reason gets ERROR. The result is always INFO, WARN or ERROR, never DEBUG. |
| Watcher.ResolveMention | watcher/watcher.go:203-241 | For a supported kind whose object carries the label, the mention is the label value. For an unsupported kind, or when the label is missing or the lookup failed, it is the configured default. |
| Watcher.BuildNotification | watcher/watcher.go:243-250 | The notification carries the cluster name, the event, its classified level and the resolved mention. |
| Watcher.Notify | watcher/watcher.go:191-252 | Only a failing chat call can end the process. Some channel is invoked iff the classified level passes the threshold and at least one channel is enabled. |
| Watcher.DebugThresholdActsAsInfo | watcher/watcher.go:145-189 | No reason is classified DEBUG, so thresholds DEBUG and INFO notify alike. |
| Notifiers.StringInSlice | notifiers/notifiers.go:65-72 | True iff the string is an element of the list. |
| Notifiers.ShouldSend | notifiers/notifiers.go:24-44 | A level passes iff the threshold is one of DEBUG/INFO/WARN/ERROR and the level is at or after it in that order. Unknown thresholds and unknown levels never pass. |
| Notifiers.SendLog | notifiers/notifiers.go:46-51 | The log step delivers the log line when the log channel is enabled and the level is known. It is fatal exactly when the log channel is enabled and the level is unknown. |
| Notifiers.SendSlack | notifiers/notifiers.go:52-58 | The chat step delivers the built post. It is fatal exactly when the chat API call fails. |
| Notifiers.SendAll | notifiers/notifiers.go:22-62 | A level that fails the filter invokes nothing. A passing level delivers the log line if logging is enabled, then the chat post if chat is enabled. The process aborts iff the chat call fails. |
| Notifiers.SendAllChannelOrder | notifiers/notifiers.go:45-61 | When sending, the channels invoked are exactly the enabled ones, log before chat. When not sending, none are invoked. |
| Notifiers.ThresholdMonotone | notifiers/notifiers.go:24-44 | Raising the threshold never lets more levels through. |
| Notifiers.UnknownThresholdSendsNothing | notifiers/notifiers.go:26-43 | A threshold outside the four names sends nothing, because the switch has no default. |
| Notifiers.UnknownLevelNeverSent | notifiers/notifiers.go:28-42 | A level outside the four names is never sent, whatever the threshold. |
| Notifiers.WarnThresholdExample | notifiers/notifiers.go:35-38 | With threshold WARN, exactly WARN and ERROR pass. |
| Notifiers.FilteredLevelsAreLoggable | notifiers/notifiers.go:28-49 | Every level that passes the filter is accepted by the log notifier, so the log channel never aborts the process. |
| LogNotifier.Message | notifiers/log/log.go:10-15 | The line starts with "NotifyLog: cluster / reason / message / lastTimestamp". It is longer than that iff there is a mention, and then the rest is " / @mention". |
| LogNotifier.Send | notifiers/log/log.go:17-29 | Fails, with "Invalid Notification.Level provided", iff the level is not one of the four names. Otherwise it logs the message at the severity that level names. |
| LogNotifier.SeverityFollowsLevel | notifiers/log/log.go:17-25 | Accepted notifications share a severity iff they share a level. |
| SlackNotifier.Color | notifiers/slack/slack.go:66-73 | INFO, WARN and ERROR get a colour and every other level gets none. |
| SlackNotifier.ColorRoundTrip | notifiers/slack/slack.go:66-73 | The colours good/warning/danger map back to INFO/WARN/ERROR, so distinct levels get distinct colours. |
| SlackNotifier.MessageText | notifiers/slack/slack.go:135-140 | With no mention, the text is exactly "`reason` event for `name` on `cluster`", using the raw object name. With a mention, it is "Alerting @", the mention, " concerning ", then that headline. |
| SlackNotifier.MessageTextReadBack | notifiers/slack/slack.go:135-140 | Given the headline, the mention reads back from the text: "" for the bare headline, the mention otherwise. So distinct mentions give distinct texts. |
| SlackNotifier.Build | notifiers/slack/slack.go:27-142 | The post goes to the configured channel as user "kit-overwatch" with `LinkNames = 1` and the configured as-user flag. Its attachments are exactly event, details and involved object, in that order. |
| SlackNotifier.InvolvedObjectFallback | notifiers/slack/slack.go:118 | The involved-object fallback is the kind, a space, then the name. |
| DatadogNotifier.AlertAndPriority | notifiers/datadog/datadog.go:36-46 | INFO gives an "Info" alert of priority "low". WARN and ERROR give "Warning" and "Error" alerts of priority "high". The alert type reads back as its level. Any other level leaves both empty. |
| DatadogNotifier.ServiceNameAsWritten | notifiers/datadog/datadog.go:48-62 | The code's service name panics exactly for a Pod whose name has no hyphen. |
| DatadogNotifier.ServiceNameAsWrittenEmptiesTwoSegments | notifiers/datadog/datadog.go:54-60 | For a two-segment Pod name the code yields "", where the corrected rule keeps the name. |
| DatadogNotifier.ServiceName | notifiers/datadog/datadog.go:48-62 | The service name is always a prefix of the object name. Non-Pod names pass unchanged, and so do Pod names of at most two segments. |
| DatadogNotifier.ServiceNameAgreesWithCode | notifiers/datadog/datadog.go:48-62 | The corrected rule equals the code's result for every non-Pod kind and every Pod name of three or more segments. |
| DatadogNotifier.PodServiceNameDropsDeploymentSuffix | notifiers/datadog/datadog.go:56-60 | "service-deployment-d-p" names service "service". |
| DatadogNotifier.PodServiceNameDropsTwoSegments | notifiers/datadog/datadog.go:53-60 | "service-d-p" names service "service" unless service has more than one segment and its last is "deployment". So a one-segment service, "deployment" included, always drops the two trailing segments. |
| DatadogNotifier.Title | notifiers/datadog/datadog.go:64-67 | With no mention, the title is exactly "`reason` event for `service` on `cluster`". With a mention, it is "Alerting [", the mention, "] concerning ", then that headline. |
| DatadogNotifier.TitleReadBack | notifiers/datadog/datadog.go:64-67 | Given the headline, the mention reads back from the title: "" for the bare headline, the mention otherwise. |
| DatadogNotifier.TagsReadBack | notifiers/datadog/datadog.go:70-85 | The 14 tags read back, at the first colon, as the fixed keys team … service in order, each paired with its field's value. |
| DatadogNotifier.ParseTagRoundTrip | notifiers/datadog/datadog.go:70-85 | A "key:value" tag with a colon-free key reads back as that key and value, even if the value holds colons. |
| DatadogNotifier.Text | notifiers/datadog/datadog.go:87-93 | The text starts with "%%% \n" and ends with "\n %%%". Stripping both leaves the three-section body. |
| DatadogNotifier.BuildEventAsWritten | notifiers/datadog/datadog.go:29-134 | The code's event has no value (the panic) exactly for a Pod named without a hyphen. Otherwise it has source and event type "kubernetes", the level's alert type and priority, the title and tags for the code's service name (which is "" for a two-segment Pod name), and the fenced body as text. |
| DatadogNotifier.BuildEvent | notifiers/datadog/datadog.go:29-134 | The same event with the corrected service name, so it is defined for every notification. |
| DatadogNotifier.BuildEventAgreesWithCode | notifiers/datadog/datadog.go:29-134 | For every non-Pod object and every Pod name of three or more segments, the corrected builder gives the code's event. |
| Config.ValidListenAddressMatchesPattern | config/config.go:42 | The scan accepts exactly the texts that split at some colon into a whitespace-free host and a non-empty run of ASCII digits, which is what `^(?:[^\s]+)?:\d+$` means. |
| Config.ListenAddressRule | config/config.go:42 | Accepted iff there is no whitespace, a colon is present, and the text after the last colon is a non-empty run of digits. |
| Config.ListenAddressErrors | config/config.go:39-49 | "invalid 'KIT_OVERWATCH_LISTEN_ADDRESS'" is collected iff the pattern failed to compile or did not match. A compile error adds the parse message before it. Nothing at all is collected iff the pattern compiled and matched. |
| Config.LoadEnvVars | config/config.go:34-56 | Success iff the environment parsed, the pattern compiled and the address matched. An environment failure is reported alone. An invalid address gives exactly the invalid-address message. |
| Config.DefaultListenAddressAccepted | config/config.go:13 | The default ":8080" is accepted. |
| Config.RejectsTesting | config/config.go:47-52 | "testing" is rejected with an error containing "invalid 'KIT_OVERWATCH_LISTEN_ADDRESS'". |
| Strings.JoinSplit | notifiers/datadog/datadog.go:49 | Joining a split with its separator gives back the original text. |
| Strings.JoinSplitPrefix | notifiers/datadog/datadog.go:60 | Joining the first k pieces of a split gives a prefix of the original text. |
| Strings.IntToDecimalRoundTrip | notifiers/datadog/datadog.go:80 | The `%d` rendering of the count reads back as the same number. |

## Findings

| source | as written | input that shows it | evidently intended | confidence | as-written member | corrected member |
|---|---|---|---|---|---|---|
| notifiers/datadog/datadog.go:54-60 | For a Pod, it always drops the last 2 (or 3) hyphen segments of the name, whether or not there are that many | "joebob-service12345fd34b.123456789" gives service name "", and "joebob" panics on a slice out of range | The name passes through when there are no more segments than would be dropped, as notifiers/datadog/datadog_unit_test.go:130-136 expects | high (not executed) | DatadogNotifier.ServiceNameAsWritten | DatadogNotifier.ServiceName |

The counterexamples are `DatadogNotifier.ServiceNameAsWrittenEmptiesTwoSegments` and
`DatadogNotifier.ServiceNameAsWrittenPanics`. `DatadogNotifier.BuildEventAsWritten` builds the
event the code builds, and `DatadogNotifier.BuildEvent` uses the corrected `ServiceName`. `DatadogNotifier.ServiceNameAgreesWithCode` shows the corrected
rule equals the code wherever the code does what was intended.

## Left out

- DatadogNotifier.BuildEvent: uses the corrected service name. For a Pod named with one
  hyphen it states a title and tags the code never produces, and for a Pod named without a
  hyphen it states an event where the code panics. `DatadogNotifier.BuildEventAsWritten`
  is the code's behaviour, and `DatadogNotifier.BuildEventAgreesWithCode` says where the two
  coincide.
- The Kubernetes client: `New`, the watch channel, and the `List` and `Get` calls. This is
  network I/O. A listing is a sequence of events. The label lookup of `notify` is the
  `Option<string>` parameter of `ResolveMention`: `None` stands for a missing label or a
  failed fetch, which the code treats alike.
- `go w.notify(e)` runs concurrently and is not awaited. The model gives the dispatched
  events of a pass in listing order, and `Notify` is a separate function. Delivery order
  across goroutines is not modelled.
- `log.Fatalf` is modelled as the `fatal` message of `Notifiers.Dispatch`. This covers
  `SendAll`'s channel errors. The fatal exits for a closed watch channel, a failed listing
  and a failed extensions client are not modelled, since they come from the client.
- Watcher.Step: uses one `now` for the throttle test and for the recorded `LastSent`. The
  code calls `time.Now()` twice, nanoseconds apart.
- Watcher.Pass: uses one `now` for the whole listing, where the code reads the clock per
  item. `Step` itself takes any `now`.
- Watcher.Step: does not model int64 wrap-around of `time.Minute * Count`. Wrap-around
  needs a backoff level above 153 million, which takes more than 10^16 minutes of waiting.
- Watcher.StartupWindowIsTwoMinutes: `diff.Minutes()` is a float64. The model uses exact
  integer truncation. At the only boundary that matters (1 minute plus under 60 seconds),
  the float sum stays below 2.0, so `int(...) > 1` has the same outcome.
- Timestamps are rendered with Go's `Time.String` and `time.RFC1123`, and the Datadog
  detail records are rendered with `encoding/json`. All of this is library formatting,
  carried as opaque strings (`Timestamp.text`, `Timestamp.rfc1123`, `Details`). The
  marshal errors cannot occur for these string-only records and are not modelled.
- The logger receives the log line as a format string, so a '%' in an event message would
  be re-interpreted. `LogNotifier.Message` is the text before that step.
- The chat `PostMessage` and Datadog `PostEvent` calls are network calls. The chat
  outcome is the `slackError` parameter of `SendAll`. Datadog posting and its error are
  left out. `Build` and `BuildEventAsWritten` give what would be posted.
- `LoadEnvVars` hands the joined messages to `fmt.Errorf` as a format string. A '%' in
  a pattern-compile error would be re-interpreted. `Config.LoadEnvVars` gives the text before that step.
- `env.Parse` is library code. Its failure is the `envError` parameter of
  `Config.LoadEnvVars`, and the compile failure of the constant pattern is `regexError`.
  Configuration fields used only by the HTTP server, statsd and client setup are not
  modelled.
- api/api.go, main.go, deps/, fakes/ and notifiers/deps/deps.go are HTTP glue,
  bootstrapping, statsd wiring, generated fakes and plain structs. Only the
  `Notification` record of notifiers/deps/deps.go is modelled, as `Events.Notification`.
