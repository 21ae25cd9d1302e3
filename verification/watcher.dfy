/** The watch loop's per-event decision (duplicate, startup-window and throttle checks),
    its fold over one listing and over a run of listings, the severity table, and the
    mention fallback of `notify`. */
module Watcher {
  import opened Wrappers
  import opened Events
  import Config
  import Notifiers

  /** Nanoseconds per minute. */
  const Minute: int := 60_000_000_000

  /** The range of Go's `time.Duration` (a signed 64-bit count of nanoseconds). */
  const MinDuration: int := -0x8000_0000_0000_0000
  const MaxDuration: int := 0x7fff_ffff_ffff_ffff

  /** `Time.Sub`: the difference of two instants, saturated to the Duration range.
      Saturation never moves a difference across the two-minute mark. */
  function Sub(t: int, u: int): (d: int)
    ensures MinDuration <= d <= MaxDuration
    ensures MinDuration <= t - u <= MaxDuration ==> d == t - u
    ensures d >= 2 * Minute <==> t - u >= 2 * Minute
  {
    if t - u > MaxDuration then MaxDuration
    else if t - u < MinDuration then MinDuration
    else t - u
  }

  /** Go's integer division, which truncates toward zero. */
  function Quo(a: int, b: int): (q: int)
    requires b > 0
    ensures a >= 0 ==> q * b <= a < (q + 1) * b
    ensures a < 0 ==> q <= 0
  {
    if a >= 0 then a / b else -((-a) / b)
  }

  /** `int(diff.Minutes()) > 1` for `diff := startTime.Sub(lastTimestamp)`: the whole
      minutes between the event and the start, truncated toward zero, exceed one. */
  predicate BeforeStartupWindow(startTime: int, lastTimestamp: int) {
    Quo(Sub(startTime, lastTimestamp), Minute) > 1
  }

  /** The startup filter skips exactly the events last seen two or more minutes before
      the start: 2 minutes is skipped, 1m59s and 30s are not, and later events never are. */
  lemma StartupWindowIsTwoMinutes(startTime: int, lastTimestamp: int)
    ensures BeforeStartupWindow(startTime, lastTimestamp) <==> startTime - lastTimestamp >= 2 * Minute
  {
    var d := Sub(startTime, lastTimestamp);
    var q := Quo(d, Minute);
    if d >= 2 * Minute {
      assert q >= 2;
    } else if d >= 0 {
      assert q <= 1;
    }
  }

  /** The throttle record of one event: when it was last dispatched, and the backoff
      level, which is also the quiet period in minutes before the next dispatch. */
  datatype SentEvent = SentEvent(lastSent: int, count: nat)

  /** The loop's memory: the last snapshot seen per event, and the throttle record per
      dispatched event. */
  datatype WatchState = WatchState(pastEvents: map<Uid, Event>, sentEvents: map<Uid, SentEvent>)

  const Initial: WatchState := WatchState(map[], map[])

  /** Why an event was or was not dispatched. */
  datatype Verdict = Duplicate | Stale | Throttled | Dispatched

  datatype StepResult = StepResult(state: WatchState, verdict: Verdict)

  /** The snapshot's count is the one already remembered for its event. */
  predicate IsDuplicate(s: WatchState, e: Event) {
    e.Uid() in s.pastEvents && s.pastEvents[e.Uid()].count == e.count
  }

  /** `LastSent.Add(time.Minute * time.Duration(Count))`. */
  function CanSendAfter(sent: SentEvent): int {
    sent.lastSent + Minute * sent.count
  }

  /** The backoff level a dispatch records: 0 for the first, one more than before otherwise. */
  function NextCount(s: WatchState, uid: Uid): nat {
    if uid in s.sentEvents then s.sentEvents[uid].count + 1 else 0
  }

  /** Both maps hold the same entry (or none) for `u` in `s` and `t`. */
  predicate SameEntries(s: WatchState, t: WatchState, u: Uid) {
    && (u in s.pastEvents <==> u in t.pastEvents)
    && (u in s.pastEvents ==> s.pastEvents[u] == t.pastEvents[u])
    && (u in s.sentEvents <==> u in t.sentEvents)
    && (u in s.sentEvents ==> s.sentEvents[u] == t.sentEvents[u])
  }

  /** A throttle record exists only for an event that has been seen. */
  predicate Consistent(s: WatchState) {
    s.sentEvents.Keys <= s.pastEvents.Keys
  }

  /** The loop body for one listed event at time `now`. A duplicate changes nothing;
      any other snapshot is remembered before the startup and throttle checks, so a
      skipped occurrence is not retried until its count changes; the throttle record
      changes only on dispatch. Entries of every other event are untouched. */
  function Step(s: WatchState, e: Event, startTime: int, now: int): (r: StepResult)
    ensures r.verdict == Duplicate <==> IsDuplicate(s, e)
    ensures r.verdict == Duplicate ==> r.state == s
    ensures r.verdict != Duplicate ==> r.state.pastEvents == s.pastEvents[e.Uid() := e]
    ensures r.verdict == Stale <==> !IsDuplicate(s, e) && startTime - e.lastTimestamp.nanos >= 2 * Minute
    ensures r.verdict == Throttled <==>
      && !IsDuplicate(s, e)
      && startTime - e.lastTimestamp.nanos < 2 * Minute
      && e.Uid() in s.sentEvents
      && now <= s.sentEvents[e.Uid()].lastSent + s.sentEvents[e.Uid()].count * Minute
    ensures r.verdict != Dispatched ==> r.state.sentEvents == s.sentEvents
    ensures r.verdict == Dispatched ==>
      r.state.sentEvents == s.sentEvents[e.Uid() := SentEvent(now, NextCount(s, e.Uid()))]
    ensures forall u :: u != e.Uid() ==> SameEntries(s, r.state, u)
    ensures Consistent(s) ==> Consistent(r.state)
  {
    var uid := e.Uid();
    if uid in s.pastEvents && e.count == s.pastEvents[uid].count then StepResult(s, Duplicate)
    else
      var remembered := s.(pastEvents := s.pastEvents[uid := e]);
      StartupWindowIsTwoMinutes(startTime, e.lastTimestamp.nanos);
      if BeforeStartupWindow(startTime, e.lastTimestamp.nanos) then StepResult(remembered, Stale)
      else if uid in s.sentEvents && !(now > CanSendAfter(s.sentEvents[uid])) then StepResult(remembered, Throttled)
      else
        var count := if uid in s.sentEvents then s.sentEvents[uid].count + 1 else 0;
        StepResult(remembered.(sentEvents := s.sentEvents[uid := SentEvent(now, count)]), Dispatched)
  }

  /** Escalating backoff: a repeat dispatch happens only after the recorded quiet period
      has elapsed, and then records a quiet period one minute longer, counted from now. */
  lemma BackoffEscalates(s: WatchState, e: Event, startTime: int, now: int)
    requires e.Uid() in s.sentEvents
    requires Step(s, e, startTime, now).verdict == Dispatched
    ensures var before := s.sentEvents[e.Uid()];
            var after := Step(s, e, startTime, now).state.sentEvents[e.Uid()];
            && now > CanSendAfter(before)
            && after.lastSent == now
            && after.count == before.count + 1
            && CanSendAfter(after) - after.lastSent == CanSendAfter(before) - before.lastSent + Minute
  {
  }

  /** The UIDs of the events in a listing. */
  function UidsOf(list: seq<Event>): set<Uid> {
    set e | e in list :: e.Uid()
  }

  lemma UidsOfCons(list: seq<Event>)
    requires |list| > 0
    ensures UidsOf(list) == {list[0].Uid()} + UidsOf(list[1..])
    ensures forall e :: e in list[1..] ==> e in list
  {
    assert list == [list[0]] + list[1..];
  }

  datatype PassResult = PassResult(state: WatchState, dispatched: seq<Event>)

  /** One listing processed in order at time `now`: the final state and the events
      dispatched, in listing order. Every listed event ends up remembered, and events
      not in the listing keep their entries. */
  function Pass(s: WatchState, list: seq<Event>, startTime: int, now: int): (r: PassResult)
    ensures |r.dispatched| <= |list|
    ensures forall e :: e in r.dispatched ==> e in list
    ensures forall u :: CountFor(r.dispatched, u) <= CountFor(list, u)
    ensures r.state.pastEvents.Keys == s.pastEvents.Keys + UidsOf(list)
    ensures forall u :: u !in UidsOf(list) ==> SameEntries(s, r.state, u)
    ensures Consistent(s) ==> Consistent(r.state)
    decreases |list|
  {
    if |list| == 0 then PassResult(s, [])
    else
      var step := Step(s, list[0], startTime, now);
      var rest := Pass(step.state, list[1..], startTime, now);
      UidsOfCons(list);
      var dispatched := if step.verdict == Dispatched then [list[0]] + rest.dispatched else rest.dispatched;
      DispatchCountBound(list, rest.dispatched, step.verdict == Dispatched);
      PassResult(rest.state, dispatched)
  }

  /** Dispatching the head of a listing or not, on top of a tail result that reports no
      UID more often than the tail lists it, reports no UID more often than the listing. */
  lemma DispatchCountBound(list: seq<Event>, rest: seq<Event>, taken: bool)
    requires |list| > 0
    requires forall u :: CountFor(rest, u) <= CountFor(list[1..], u)
    ensures forall u :: CountFor(if taken then [list[0]] + rest else rest, u) <= CountFor(list, u)
  {
    if taken {
      assert ([list[0]] + rest)[1..] == rest;
    }
  }

  /** How many times `u` has been dispatched, as the throttle record tells it: the
      backoff level counts the dispatches after the first. */
  function NotifiedCount(s: WatchState, u: Uid): nat {
    if u in s.sentEvents then s.sentEvents[u].count + 1 else 0
  }

  /** How many events of `ds` have UID `u`. */
  function CountFor(ds: seq<Event>, u: Uid): nat
    decreases |ds|
  {
    if |ds| == 0 then 0 else (if ds[0].Uid() == u then 1 else 0) + CountFor(ds[1..], u)
  }

  /** Every dispatch raises the event's backoff level by exactly one (the first sets it
      to 0), so the level tracks the number of dispatches made. */
  lemma {:induction false} PassCountsDispatches(s: WatchState, list: seq<Event>, startTime: int, now: int, u: Uid)
    ensures var r := Pass(s, list, startTime, now);
            NotifiedCount(r.state, u) == NotifiedCount(s, u) + CountFor(r.dispatched, u)
    decreases |list|
  {
    if |list| > 0 {
      var step := Step(s, list[0], startTime, now);
      PassCountsDispatches(step.state, list[1..], startTime, now, u);
      var rest := Pass(step.state, list[1..], startTime, now);
      if step.verdict == Dispatched {
        assert ([list[0]] + rest.dispatched)[1..] == rest.dispatched;
        if list[0].Uid() != u {
          assert SameEntries(s, step.state, u);
        }
      } else if list[0].Uid() != u {
        assert SameEntries(s, step.state, u);
      }
    }
  }

  /** The UIDs of a listing are pairwise distinct, as in any listing of the cluster's events. */
  predicate DistinctUids(list: seq<Event>) {
    forall i, j :: 0 <= i < j < |list| ==> list[i].Uid() != list[j].Uid()
  }

  /** The rest of a listing with distinct UIDs has distinct UIDs, none of them the first's. */
  lemma DistinctTail(list: seq<Event>)
    requires |list| > 0 && DistinctUids(list)
    ensures DistinctUids(list[1..])
    ensures list[0].Uid() !in UidsOf(list[1..])
  {
    var tail := list[1..];
    forall i, j | 0 <= i < j < |tail| ensures tail[i].Uid() != tail[j].Uid() {
      assert tail[i] == list[i + 1] && tail[j] == list[j + 1];
    }
    forall e | e in tail ensures e.Uid() != list[0].Uid() {
      var j :| 0 <= j < |tail| && tail[j] == e;
      assert list[j + 1] == e;
    }
  }

  /** The state after a pass is the state after the rest of the listing, processed from
      the state the first event leaves. */
  lemma PassUnfolds(s: WatchState, list: seq<Event>, startTime: int, now: int)
    requires |list| > 0
    ensures Pass(s, list, startTime, now).state
         == Pass(Step(s, list[0], startTime, now).state, list[1..], startTime, now).state
  {
  }

  /** After a pass over a listing with distinct UIDs, every listed event's count is the
      one remembered for it. */
  lemma {:induction false} PassRemembersCounts(s: WatchState, list: seq<Event>, startTime: int, now: int)
    requires DistinctUids(list)
    ensures var r := Pass(s, list, startTime, now);
            forall e :: e in list ==> IsDuplicate(r.state, e)
    decreases |list|
  {
    if |list| > 0 {
      var head, tail := list[0], list[1..];
      var step := Step(s, head, startTime, now);
      DistinctTail(list);
      PassRemembersCounts(step.state, tail, startTime, now);
      var r := Pass(step.state, tail, startTime, now);
      PassUnfolds(s, list, startTime, now);
      assert IsDuplicate(step.state, head);
      assert SameEntries(step.state, r.state, head.Uid());
      forall e | e in list ensures IsDuplicate(r.state, e) {
        if e != head {
          assert e in tail by {
            var k :| 0 <= k < |list| && list[k] == e;
            assert k > 0 && tail[k - 1] == e;
          }
        }
      }
    }
  }

  /** A listing whose every snapshot is already remembered is processed without a
      dispatch and without any change. */
  lemma {:induction false} RememberedListingIsSilent(s: WatchState, list: seq<Event>, startTime: int, now: int)
    requires forall e :: e in list ==> IsDuplicate(s, e)
    ensures Pass(s, list, startTime, now) == PassResult(s, [])
    decreases |list|
  {
    if |list| > 0 {
      assert list[0] in list;
      RememberedListingIsSilent(s, list[1..], startTime, now);
    }
  }

  /** Dedup idempotence: listing the same events again, at any later time, dispatches
      nothing and changes nothing. */
  lemma PassIdempotent(s: WatchState, list: seq<Event>, startTime: int, now: int, later: int)
    requires DistinctUids(list)
    ensures var r := Pass(s, list, startTime, now);
            Pass(r.state, list, startTime, later) == PassResult(r.state, [])
  {
    var r := Pass(s, list, startTime, now);
    PassRemembersCounts(s, list, startTime, now);
    RememberedListingIsSilent(r.state, list, startTime, later);
  }

  /** A snapshot that was not a duplicate is remembered even when skipped, so the same
      occurrence (same UID and count) is a duplicate from then on, at any time. */
  lemma SkippedOccurrenceNotRetried(s: WatchState, e: Event, e': Event, startTime: int, now: int, later: int)
    requires Step(s, e, startTime, now).verdict != Duplicate
    requires e'.Uid() == e.Uid() && e'.count == e.count
    ensures var t := Step(s, e, startTime, now).state;
            Step(t, e', startTime, later) == StepResult(t, Duplicate)
  {
  }

  /** One listing per change signal, each processed at its own time. */
  datatype Listing = Listing(events: seq<Event>, now: int)

  /** The watch loop over a sequence of listings: the final state and every dispatched
      event, in order. */
  function Run(s: WatchState, listings: seq<Listing>, startTime: int): (r: PassResult)
    ensures Consistent(s) ==> Consistent(r.state)
    decreases |listings|
  {
    if |listings| == 0 then PassResult(s, [])
    else
      var first := Pass(s, listings[0].events, startTime, listings[0].now);
      var rest := Run(first.state, listings[1..], startTime);
      PassResult(rest.state, first.dispatched + rest.dispatched)
  }

  lemma {:induction false} CountForAppend(a: seq<Event>, b: seq<Event>, u: Uid)
    ensures CountFor(a + b, u) == CountFor(a, u) + CountFor(b, u)
    decreases |a|
  {
    if |a| > 0 {
      CountForAppend(a[1..], b, u);
      assert (a + b)[1..] == a[1..] + b;
    } else {
      assert a + b == b;
    }
  }

  /** Over a whole run from the initial state, an event's throttle record says how often
      it was dispatched: none means never, and backoff level k means k + 1 times. */
  lemma {:induction false} RunCountsDispatches(s: WatchState, listings: seq<Listing>, startTime: int, u: Uid)
    ensures var r := Run(s, listings, startTime);
            NotifiedCount(r.state, u) == NotifiedCount(s, u) + CountFor(r.dispatched, u)
    decreases |listings|
  {
    if |listings| > 0 {
      var first := Pass(s, listings[0].events, startTime, listings[0].now);
      PassCountsDispatches(s, listings[0].events, startTime, listings[0].now, u);
      RunCountsDispatches(first.state, listings[1..], startTime, u);
      CountForAppend(first.dispatched, Run(first.state, listings[1..], startTime).dispatched, u);
    }
  }

  /** The end-to-end scenario: an event first seen at the start with count 1 is
      dispatched with backoff level 0; the unchanged snapshot is then ignored; the
      snapshot with count 2 a minute later is dispatched again with backoff level 1. */
  lemma RepeatScenario(e: Event, e2: Event, startTime: int)
    requires e.count == 1 && e.lastTimestamp.nanos == startTime
    requires e2.Uid() == e.Uid() && e2.count == 2 && e2.lastTimestamp.nanos == startTime + Minute
    ensures var first := Step(Initial, e, startTime, startTime);
            && first.verdict == Dispatched
            && first.state.sentEvents[e.Uid()] == SentEvent(startTime, 0)
            && var second := Step(first.state, e, startTime, startTime + Minute / 2);
            && second == StepResult(first.state, Duplicate)
            && var third := Step(second.state, e2, startTime, startTime + Minute);
            && third.verdict == Dispatched
            && third.state.sentEvents[e.Uid()] == SentEvent(startTime + Minute, 1)
  {
  }

  /** The severity of each known reason code. */
  const ReasonLevels: map<string, string> := map[
    "SuccessfulCreate" := INFO,
    "SuccessfulDelete" := INFO,
    "ContainerCreating" := INFO,
    "Pulled" := INFO,
    "Pulling" := INFO,
    "Created" := INFO,
    "Starting" := INFO,
    "Started" := INFO,
    "Killing" := INFO,
    "NodeReady" := INFO,
    "ScalingReplicaSet" := INFO,
    "Scheduled" := INFO,
    "NodeNotReady" := WARN,
    "MAPPING" := WARN,
    "UPDATE" := INFO,
    "DELETE" := INFO,
    "NodeOutOfDisk" := ERROR,
    "BackOff" := ERROR,
    "ImagePullBackOff" := ERROR,
    "FailedSync" := ERROR,
    "FreeDiskSpaceFailed" := WARN,
    "MissingClusterDNS" := ERROR,
    "RegisteredNode" := INFO,
    "TerminatingEvictedPod" := WARN,
    "RemovingNode" := WARN,
    "TerminatedAllPods" := WARN,
    "CreatedLoadBalancer" := INFO,
    "CreatingLoadBalancer" := INFO,
    "NodeHasSufficientDisk" := INFO,
    "NodeHasSufficientMemory" := INFO,
    "NodeNotSchedulable" := ERROR,
    "DeletingAllPods" := WARN,
    "DeletingNode" := WARN,
    "UpdatedLoadBalancer" := INFO
  ]

  /** `getLevel`: the table's level for a known reason, ERROR for any other. The result is
      always INFO, WARN or ERROR; no reason is classified DEBUG. */
  function GetLevel(reason: string): (level: string)
    ensures reason in ReasonLevels ==> level == ReasonLevels[reason]
    ensures reason !in ReasonLevels ==> level == ERROR
    ensures level in [INFO, WARN, ERROR]
  {
    if reason in ReasonLevels then ReasonLevels[reason] else ERROR
  }

  /** The kinds `notify` can fetch to read a mention label from. */
  const SupportedKinds: set<string> := {"Pod", "Service", "Node", "Deployment", "ReplicaSet", "Job", "DaemonSet"}

  /** The mention of `notify`: the label value read from the involved object when its kind
      is supported and the label is there (`labelValue`, the outcome of the fetch-and-lookup,
      which is outside the model), else the configured default. */
  function ResolveMention(kind: string, labelValue: Option<string>, mentionDefault: string): (mention: string)
    ensures kind in SupportedKinds && labelValue.Some? ==> mention == labelValue.value
    ensures kind !in SupportedKinds || labelValue.None? ==> mention == mentionDefault
  {
    if kind in SupportedKinds && labelValue.Some? then labelValue.value else mentionDefault
  }

  /** The notification `notify` hands to the dispatcher. */
  function BuildNotification(cfg: Config.Config, e: Event, labelValue: Option<string>): (n: Notification)
    ensures n.cluster == cfg.clusterName && n.event == e
    ensures n.level == GetLevel(e.reason)
    ensures n.mention == ResolveMention(e.involvedObject.kind, labelValue, cfg.mentionDefault)
  {
    Notification(cfg.clusterName, e, GetLevel(e.reason), ResolveMention(e.involvedObject.kind, labelValue, cfg.mentionDefault))
  }

  /** `notify`: classify, resolve the mention and dispatch. Only the chat API can end the
      process, because every classified level is one the log notifier accepts. */
  function Notify(cfg: Config.Config, e: Event, labelValue: Option<string>, slackError: Option<string>): (r: Notifiers.Dispatch)
    ensures r.fatal.Some? ==> cfg.notifySlack && slackError.Some?
    ensures r.deliveries != [] <==>
      Notifiers.ShouldSend(cfg.notificationLevel, GetLevel(e.reason)) && (cfg.notifyLog || cfg.notifySlack)
  {
    Notifiers.SendAll(cfg, BuildNotification(cfg, e, labelValue), slackError)
  }

  /** Since no reason is classified DEBUG, thresholds DEBUG and INFO notify alike. */
  lemma DebugThresholdActsAsInfo(cfg: Config.Config, e: Event, labelValue: Option<string>, slackError: Option<string>)
    requires cfg.notificationLevel == DEBUG
    ensures Notify(cfg, e, labelValue, slackError) == Notify(cfg.(notificationLevel := INFO), e, labelValue, slackError)
  {
  }
}
