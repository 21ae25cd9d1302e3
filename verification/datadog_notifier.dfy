/** The monitoring-event notifier: builds the event it posts to the monitoring service. */
module DatadogNotifier {
  import opened Wrappers
  import opened Events
  import Strings

  const EventType: string := "kubernetes"
  const MdPrefix: string := "%%% \n"
  const MdSuffix: string := "\n %%%"

  /** The three detail records, already rendered as JSON by the encoder. */
  datatype Details = Details(messageJson: string, eventJson: string, objectJson: string)

  /** The posted event; `alertType` and `priority` are "" when the level sets none. */
  datatype DatadogEvent = DatadogEvent(
    sourceType: string,
    eventType: string,
    alertType: string,
    priority: string,
    title: string,
    tags: seq<string>,
    text: string)

  /** The alert type and priority for a level: INFO is an "Info" alert of low priority,
      WARN and ERROR are "Warning" and "Error" alerts of high priority, and any other
      level sets neither. The alert type names its level, so distinct levels get
      distinct alert types. */
  function AlertAndPriority(level: string): (r: (string, string))
    ensures r.0 != "" <==> level in [INFO, WARN, ERROR]
    ensures r.0 != "" ==> AlertLevel(r.0) == level
    ensures r.1 != "" <==> level in [INFO, WARN, ERROR]
    ensures r.1 == "low" <==> level == INFO
    ensures level in [WARN, ERROR] ==> r.1 == "high"
  {
    if level == INFO then ("Info", "low")
    else if level == WARN then ("Warning", "high")
    else if level == ERROR then ("Error", "high")
    else ("", "")
  }

  /** The level an alert type stands for; "" for any other text. */
  function AlertLevel(alertType: string): string {
    if alertType == "Info" then INFO
    else if alertType == "Warning" then WARN
    else if alertType == "Error" then ERROR
    else ""
  }

  /** How many trailing name segments a pod name carries after the service name:
      "-deploynumber-podnumber", or "-deployment-deploynumber-podnumber" when the
      third-from-last segment is "deployment". */
  function TrailingSegments(parts: seq<string>): nat {
    if |parts| > 3 && parts[|parts| - 3] == "deployment" then 3 else 2
  }

  /** The service name exactly as the code derives it. `None` stands for the Go runtime
      panic of slicing a split with fewer segments than it drops (a pod name without a
      hyphen); a two-segment pod name yields "". */
  function ServiceNameAsWritten(kind: string, name: string): (r: Option<string>)
    ensures r.None? <==> kind == "Pod" && '-' !in name
  {
    var parts := Strings.Split(name, '-');
    if kind != "Pod" then Some(name)
    else
      var drop := TrailingSegments(parts);
      if |parts| < drop then
        assert '-' !in name by { Strings.JoinSplit(name, '-'); assert parts == [parts[0]]; }
        None
      else
        assert '-' in name by { if '-' !in name { Strings.SplitWithoutSeparator(name, '-'); } }
        Some(Strings.Join(parts[..|parts| - drop], "-"))
  }

  /** A two-segment pod name: the code yields an empty service name, where the name was
      meant to pass through unchanged (for "joebob-service12345fd34b.123456789", say). */
  lemma ServiceNameAsWrittenEmptiesTwoSegments(a: string, b: string)
    requires '-' !in a && '-' !in b
    ensures ServiceNameAsWritten("Pod", a + "-" + b) == Some("")
    ensures ServiceName("Pod", a + "-" + b) == a + "-" + b
  {
    Strings.SplitAppend(a, b, '-');
    Strings.SplitWithoutSeparator(a, '-');
    Strings.SplitWithoutSeparator(b, '-');
  }

  /** A pod name without a hyphen: the code panics. */
  lemma ServiceNameAsWrittenPanics()
    ensures ServiceNameAsWritten("Pod", "joebob").None?
  {
  }

  /** The service name with the out-of-range case passed through: a pod name keeps its
      leading segments only when it has more segments than it drops, and every other
      name is used as it is. The result is always a prefix of the name. */
  function ServiceName(kind: string, name: string): (r: string)
    ensures r <= name
    ensures kind != "Pod" ==> r == name
    ensures kind == "Pod" && |Strings.Split(name, '-')| <= 2 ==> r == name
  {
    var parts := Strings.Split(name, '-');
    var drop := TrailingSegments(parts);
    if kind == "Pod" && |parts| > drop then
      Strings.JoinSplitPrefix(name, '-', |parts| - drop);
      Strings.Join(parts[..|parts| - drop], "-")
    else name
  }

  /** The corrected service name agrees with the code on every input the code handles
      as intended: all non-pod kinds and pod names of three or more segments. */
  lemma ServiceNameAgreesWithCode(kind: string, name: string)
    requires kind != "Pod" || |Strings.Split(name, '-')| >= 3
    ensures ServiceNameAsWritten(kind, name) == Some(ServiceName(kind, name))
  {
    if kind == "Pod" {
      Strings.JoinSplit(name, '-');
    }
  }

  /** A pod named "service-deployment-deploynumber-podnumber" belongs to "service", as
      "joebob-service-deployment-12345-fd34b.123456789" belongs to "joebob-service". */
  lemma PodServiceNameDropsDeploymentSuffix(service: string, deploy: string, pod: string)
    requires '-' !in deploy && '-' !in pod
    ensures ServiceName("Pod", service + "-" + ("deployment" + "-" + (deploy + "-" + pod))) == service
  {
    DropsMarkedSuffix(service, "deployment", deploy, pod);
  }

  /** `PodServiceNameDropsDeploymentSuffix` with the literal "deployment" passed in as
      `marker`: the split of a literal is unfolded character by character, which the
      proof does not need and which is far more costly than the general argument. */
  lemma DropsMarkedSuffix(service: string, marker: string, deploy: string, pod: string)
    requires '-' !in deploy && '-' !in pod && marker == "deployment"
    ensures ServiceName("Pod", service + "-" + (marker + "-" + (deploy + "-" + pod))) == service
  {
    var tail := deploy + "-" + pod;
    Strings.SplitAppend(deploy, pod, '-');
    Strings.SplitWithoutSeparator(deploy, '-');
    Strings.SplitWithoutSeparator(pod, '-');
    Strings.SplitAppend(marker, tail, '-');
    Strings.SplitWithoutSeparator(marker, '-');
    var rest := marker + "-" + tail;
    Strings.SplitAppend(service, rest, '-');
    var parts := Strings.Split(service + "-" + rest, '-');
    assert parts == Strings.Split(service, '-') + [marker, deploy, pod];
    assert parts[..|parts| - 3] == Strings.Split(service, '-');
    Strings.JoinSplit(service, '-');
  }

  /** A pod named "service-deploynumber-podnumber" belongs to "service", as
      "joebob-service-12345-fd34b.123456789" belongs to "joebob-service". A one-segment
      service is no exception, even "deployment": its pod name has only three segments. */
  lemma PodServiceNameDropsTwoSegments(service: string, deploy: string, pod: string)
    requires '-' !in deploy && '-' !in pod
    requires var ps := Strings.Split(service, '-'); |ps| == 1 || ps[|ps| - 1] != "deployment"
    ensures ServiceName("Pod", service + "-" + (deploy + "-" + pod)) == service
  {
    var tail := deploy + "-" + pod;
    var sp := Strings.Split(service, '-');
    var parts := Strings.Split(service + "-" + tail, '-');
    assert parts == sp + [deploy, pod] by {
      Strings.SplitAppend(deploy, pod, '-');
      Strings.SplitWithoutSeparator(deploy, '-');
      Strings.SplitWithoutSeparator(pod, '-');
      Strings.SplitAppend(service, tail, '-');
    }
    assert TrailingSegments(parts) == 2 by {
      assert |parts| > 3 ==> parts[|parts| - 3] == sp[|sp| - 1] && |sp| > 1;
    }
    assert parts[..|parts| - 2] == sp;
    PodNameKeepsLeadingSegments(service + "-" + tail, service);
  }

  /** A pod name whose split, less the two trailing segments it drops, is the split of
      `service` belongs to `service`. */
  lemma PodNameKeepsLeadingSegments(name: string, service: string)
    requires var parts := Strings.Split(name, '-');
      && |parts| >= 2 && TrailingSegments(parts) == 2
      && parts[..|parts| - 2] == Strings.Split(service, '-')
    ensures ServiceName("Pod", name) == service
  {
    Strings.JoinSplit(service, '-');
  }

  /** "`reason` event for `service` on `cluster`". */
  function Headline(n: Notification, service: string): string {
    "`" + n.event.reason + "` event for `" + service + "` on `" + n.cluster + "`"
  }

  const AlertingPrefix: string := "Alerting ["
  const Concerning: string := "] concerning "

  /** The title: the headline alone when there is no mention; otherwise the
      "Alerting [" opening, the mention, "] concerning " and then the headline. */
  function Title(n: Notification, service: string): (t: string)
    ensures AlertingPrefix <= t <==> n.mention != ""
    ensures n.mention == "" ==> t == Headline(n, service)
    ensures |Headline(n, service)| <= |t| && t[|t| - |Headline(n, service)|..] == Headline(n, service)
    ensures n.mention != "" ==> |t| == |AlertingPrefix| + |n.mention| + |Concerning| + |Headline(n, service)|
    ensures n.mention != "" ==> t[|AlertingPrefix|..|AlertingPrefix| + |n.mention|] == n.mention
    ensures n.mention != "" ==> t[|AlertingPrefix| + |n.mention|..|t| - |Headline(n, service)|] == Concerning
  {
    var headline := Headline(n, service);
    if n.mention != "" then
      var t := AlertingPrefix + n.mention + Concerning + headline;
      assert t[|t| - |headline|..] == headline;
      assert t[|AlertingPrefix| + |n.mention|..|t| - |headline|] == Concerning;
      t
    else
      assert headline[0] == '`';
      headline
  }

  /** Reads the mention back from a title, given the headline that closes it: "" for
      the bare headline, `None` for a title of neither form. */
  function TitleMention(t: string, headline: string): Option<string> {
    if t == headline then Some("") else Strings.Unframe(t, AlertingPrefix, Concerning + headline)
  }

  /** The mention an event was addressed to can be read back from its title. */
  lemma TitleReadBack(n: Notification, service: string)
    ensures TitleMention(Title(n, service), Headline(n, service)) == Some(n.mention)
  {
    var h := Headline(n, service);
    if n.mention != "" {
      var t := Title(n, service);
      assert t == AlertingPrefix + n.mention + (Concerning + h);
      assert t != h;
      Strings.UnframeFramed(AlertingPrefix, n.mention, Concerning + h);
    }
  }

  /** The tag keys, in the order the tags are listed. */
  const TagKeys: seq<string> := ["team", "cluster", "type", "level", "reason", "node", "name",
    "namespace", "component", "count", "object-kind", "object-name", "mentioned", "service"]

  /** The value each tag carries, in the order of `TagKeys`. */
  function TagValues(n: Notification, service: string): (vs: seq<string>)
    ensures |vs| == |TagKeys|
  {
    var e := n.event;
    [n.mention, n.cluster, e.eventType, n.level, e.reason, e.source.host, e.meta.name,
     e.meta.namespace, e.source.component, Strings.IntToDecimal(e.count), e.involvedObject.kind,
     e.involvedObject.name, n.mention, service]
  }

  function Tags(n: Notification, service: string): (tags: seq<string>)
    ensures |tags| == 14
  {
    var e := n.event;
    [ "team:" + n.mention,
      "cluster:" + n.cluster,
      "type:" + e.eventType,
      "level:" + n.level,
      "reason:" + e.reason,
      "node:" + e.source.host,
      "name:" + e.meta.name,
      "namespace:" + e.meta.namespace,
      "component:" + e.source.component,
      "count:" + Strings.IntToDecimal(e.count),
      "object-kind:" + e.involvedObject.kind,
      "object-name:" + e.involvedObject.name,
      "mentioned:" + n.mention,
      "service:" + service ]
  }

  /** Reads a "key:value" tag back, splitting at its first colon. */
  function ParseTag(tag: string): (string, string) {
    if ':' in tag then
      var i := Strings.FirstIndexOf(tag, ':');
      (tag[..i], tag[i + 1..])
    else (tag, "")
  }

  lemma ParseTagRoundTrip(key: string, value: string)
    requires ':' !in key
    ensures ParseTag(key + ":" + value) == (key, value)
  {
    var tag := key + ":" + value;
    assert tag[|key|] == ':';
    var i := Strings.FirstIndexOf(tag, ':');
    assert i == |key|;
    assert tag[..i] == key;
    assert tag[i + 1..] == value;
  }

  /** Every tag reads back as its key, in the fixed key order, and its value, whatever
      colons the value holds. */
  lemma TagsReadBack(n: Notification, service: string)
    ensures forall i :: 0 <= i < 14 ==> ParseTag(Tags(n, service)[i]) == (TagKeys[i], TagValues(n, service)[i])
  {
    var tags, values := Tags(n, service), TagValues(n, service);
    KeysHaveNoColon();
    TagsPairKeysWithValues(n, service);
    forall i | 0 <= i < 14
      ensures ParseTag(tags[i]) == (TagKeys[i], values[i])
    {
      ParseTagRoundTrip(TagKeys[i], values[i]);
    }
  }

  lemma KeysHaveNoColon()
    ensures forall i :: 0 <= i < |TagKeys| ==> ':' !in TagKeys[i]
  {
  }

  lemma TagsPairKeysWithValues(n: Notification, service: string)
    ensures forall i :: 0 <= i < 14 ==> Tags(n, service)[i] == TagKeys[i] + ":" + TagValues(n, service)[i]
  {
    var tags, keys, values := Tags(n, service), TagKeys, TagValues(n, service);
    forall i | 0 <= i < 14 ensures tags[i] == keys[i] + ":" + values[i] {
      if i < 7 {
        TagsPairLow(tags, keys, values, n, service, i);
      } else {
        TagsPairHigh(tags, keys, values, n, service, i);
      }
    }
  }

  lemma TagsPairLow(tags: seq<string>, keys: seq<string>, values: seq<string>, n: Notification, service: string, i: nat)
    requires tags == Tags(n, service) && keys == TagKeys && values == TagValues(n, service) && i < 7
    ensures tags[i] == keys[i] + ":" + values[i]
  {
  }

  lemma TagsPairHigh(tags: seq<string>, keys: seq<string>, values: seq<string>, n: Notification, service: string, i: nat)
    requires tags == Tags(n, service) && keys == TagKeys && values == TagValues(n, service) && 7 <= i < 14
    ensures tags[i] == keys[i] + ":" + values[i]
  {
  }

  /** The Markdown body: three headed sections holding the three JSON records. */
  function Body(d: Details): string {
    "#### Message Details\n\t" + d.messageJson + "\n#### Event Details\n\t" + d.eventJson
    + "\n#### Involved Object\n\t" + d.objectJson + "\n"
  }

  /** The event text: the body inside the Markdown fences, which can be stripped off again. */
  function Text(d: Details): (t: string)
    ensures MdPrefix <= t
    ensures |t| >= |MdPrefix| + |MdSuffix| && t[|t| - |MdSuffix|..] == MdSuffix
    ensures t[|MdPrefix|..|t| - |MdSuffix|] == Body(d)
  {
    var t := MdPrefix + Body(d) + MdSuffix;
    assert t[|t| - |MdSuffix|..] == MdSuffix;
    assert t[|MdPrefix|..|t| - |MdSuffix|] == Body(d);
    t
  }

  /** The event posted for a notification whose service name is `service`. */
  function EventFor(n: Notification, d: Details, service: string): (ev: DatadogEvent)
    ensures ev.sourceType == EventType && ev.eventType == EventType
    ensures (ev.alertType, ev.priority) == AlertAndPriority(n.level)
    ensures ev.title == Title(n, service) && ev.tags == Tags(n, service)
    ensures ev.text == Text(d)
  {
    var (alertType, priority) := AlertAndPriority(n.level);
    DatadogEvent(EventType, EventType, alertType, priority, Title(n, service), Tags(n, service), Text(d))
  }

  /** `Send` up to the network call, exactly as the code builds the event: `None` is the
      panic on a pod name without a hyphen, and a two-segment pod name gets the empty
      service name. */
  function BuildEventAsWritten(n: Notification, d: Details): (r: Option<DatadogEvent>)
    ensures r.None? <==> n.event.involvedObject.kind == "Pod" && '-' !in n.event.meta.name
    ensures r.Some? ==>
      r.value == EventFor(n, d, ServiceNameAsWritten(n.event.involvedObject.kind, n.event.meta.name).value)
  {
    match ServiceNameAsWritten(n.event.involvedObject.kind, n.event.meta.name)
    case None => None
    case Some(service) => Some(EventFor(n, d, service))
  }

  /** `Send` up to the network call, with the corrected service name: the name passes
      through where the code would drop every segment of it. */
  function BuildEvent(n: Notification, d: Details): (ev: DatadogEvent)
    ensures ev.sourceType == EventType && ev.eventType == EventType
    ensures (ev.alertType, ev.priority) == AlertAndPriority(n.level)
    ensures ev.title == Title(n, ServiceName(n.event.involvedObject.kind, n.event.meta.name))
    ensures ev.tags == Tags(n, ServiceName(n.event.involvedObject.kind, n.event.meta.name))
    ensures ev.text == Text(d)
  {
    EventFor(n, d, ServiceName(n.event.involvedObject.kind, n.event.meta.name))
  }

  /** The corrected builder posts the very event the code posts for every non-pod object
      and every pod name of three or more segments. */
  lemma BuildEventAgreesWithCode(n: Notification, d: Details)
    requires n.event.involvedObject.kind != "Pod" || |Strings.Split(n.event.meta.name, '-')| >= 3
    ensures BuildEventAsWritten(n, d) == Some(BuildEvent(n, d))
  {
    ServiceNameAgreesWithCode(n.event.involvedObject.kind, n.event.meta.name);
  }
}
