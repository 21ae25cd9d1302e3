/** The slice of the Kubernetes `api.Event` the program reads, and the
    `Notification` handed from the watcher to the notifiers. */
module Events {

  /** The event's stable identifier, `ObjectMeta.UID`. */
  type Uid = string

  /** A point in time. `nanos` is the instant in nanoseconds and is the only part the
      watcher's arithmetic uses; `text` (Go's `%s` rendering) and `rfc1123` (the
      `time.RFC1123` rendering) are library formatting output, carried as opaque text. */
  datatype Timestamp = Timestamp(nanos: int, text: string, rfc1123: string)

  datatype ObjectMeta = ObjectMeta(uid: Uid, name: string, namespace: string)

  /** The object the event is about, e.g. kind "Pod" and the pod's name. */
  datatype ObjectReference = ObjectReference(kind: string, name: string)

  /** The component (and host) that reported the event. */
  datatype EventSource = EventSource(component: string, host: string)

  /** One snapshot of a cluster event as returned by a listing. `count` is how many
      times the cluster has seen the occurrence; `eventType` is "Normal" or "Warning". */
  datatype Event = Event(
    meta: ObjectMeta,
    involvedObject: ObjectReference,
    reason: string,
    message: string,
    source: EventSource,
    firstTimestamp: Timestamp,
    lastTimestamp: Timestamp,
    count: int,
    eventType: string)
  {
    function Uid(): Uid { meta.uid }
  }

  /** What the notifiers format: the event, its severity level name and the addressee. */
  datatype Notification = Notification(cluster: string, event: Event, level: string, mention: string)

  const DEBUG: string := "DEBUG"
  const INFO: string := "INFO"
  const WARN: string := "WARN"
  const ERROR: string := "ERROR"

  /** The severity names in increasing order. */
  const Levels: seq<string> := [DEBUG, INFO, WARN, ERROR]

  /** The position of a level name in `Levels`, or -1 for any other text. */
  function Rank(level: string): (r: int)
    ensures -1 <= r < |Levels|
    ensures r >= 0 <==> level in Levels
    ensures r >= 0 ==> Levels[r] == level
  {
    if level == DEBUG then 0
    else if level == INFO then 1
    else if level == WARN then 2
    else if level == ERROR then 3
    else -1
  }
}
