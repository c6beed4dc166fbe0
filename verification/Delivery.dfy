/** From a run of notifications to what the batcher is offered. */
module Delivery {
  import opened Sequences
  import opened Wire
  import opened Identity
  import opened Filter
  import opened Batching
  import opened Pipeline
  import opened Mapper
  import opened Runs

  /** A produced kind with its own severity. */
  predicate Built(ev: Event) {
    ev.kind in MAPPED_KINDS && ev.severity == SeverityForKind(ev.kind)
  }

  predicate AllBuilt(events: seq<Event>) {
    forall i :: 0 <= i < |events| ==> Built(events[i])
  }

  lemma {:induction false} PressureEventsBuilt(was: Option<Node>, n: Node, whats: seq<string>)
    ensures AllBuilt(PressureEvents(was, n, whats))
  {
    hide TurnsUnhealthy;
    if whats == [] {
    } else {
      PressureEventsBuilt(was, n, whats[..|whats| - 1]);
    }
  }

  lemma DeployEventsBuilt(id: string, was: Option<Deployment>, n: Deployment)
    ensures AllBuilt(DeployEvents(id, was, n))
  {
    hide RolledBack, IsDeployStarted, IsDeploySucceeded, IsDeployFailed, IsDeployCancelled, RevisionAttrs, SeverityForKind;
  }

  lemma DeploymentDispatchBuilt(store: Store, was: Option<Watched>, d: Deployment)
    ensures AllBuilt(EventsOf(Dispatch(store, was, Some(OfDeployment(d)))))
  {
    hide SeverityForKind, RolloutStatus, PreviousStatus, DeployEvents;
    var before := if was.Some? && was.value.OfDeployment? then Some(was.value.d) else None;
    forall id {
      DeployEventsBuilt(id, before, d);
    }
  }

  lemma StatefulSetEventsBuilt(id: string, was: Option<StatefulSet>, s: StatefulSet)
    ensures AllBuilt(StatefulSetEvents(id, was, s))
  {
    hide SeverityForKind, StatefulSetStarted, StatefulSetSucceeded;
  }

  lemma DaemonSetEventsBuilt(id: string, was: Option<DaemonSet>, ds: DaemonSet)
    ensures AllBuilt(DaemonSetEvents(id, was, ds))
  {
    hide SeverityForKind, DaemonSetStarted, DaemonSetSucceeded;
  }

  lemma PodEventsBuilt(store: Store, was: Option<Pod>, p: Pod)
    ensures AllBuilt(EventsOf(FromPodStatusChange(store, was, p)))
  {
    hide SeverityForKind, Resolve;
  }

  lemma ScaleEventsBuilt(was: Option<Autoscaler>, h: Autoscaler)
    ensures AllBuilt(FromHPAScale(was, h))
  {
    hide SeverityForKind;
  }

  lemma DispatchBuilt(store: Store, was: Option<Watched>, now: Watched)
    ensures AllBuilt(EventsOf(Dispatch(store, was, Some(now))))
  {
    hide Built, DeployEvents, StatefulSetEvents, DaemonSetEvents, FromPodStatusChange, FromHPAScale, PressureEvents;
    match now
    case OfDeployment(d) => DeploymentDispatchBuilt(store, was, d);
    case OfNode(n) =>
      PressureEventsBuilt(if was.Some? && was.value.OfNode? then Some(was.value.n) else None, n, PRESSURES + [NOT_READY]);
    case OfPod(p) => PodEventsBuilt(store, if was.Some? && was.value.OfPod? then Some(was.value.p) else None, p);
    case OfAutoscaler(h) =>
      ScaleEventsBuilt(if was.Some? && was.value.OfAutoscaler? then Some(was.value.h) else None, h);
    case OfStatefulSet(s) =>
      var before := if was.Some? && was.value.OfStatefulSet? then Some(was.value.s) else None;
      forall id {
        StatefulSetEventsBuilt(id, before, s);
      }
    case OfDaemonSet(ds) =>
      var before := if was.Some? && was.value.OfDaemonSet? then Some(was.value.ds) else None;
      forall id {
        DaemonSetEventsBuilt(id, before, ds);
      }
    case Unmapped =>
  }

  lemma {:induction false} RunBuilt(obs: seq<Observation>)
    ensures AllBuilt(RunEvents(obs))
  {
    hide Dispatch, Built;
    if obs == [] {
    } else {
      var n := |obs| - 1;
      RunBuilt(obs[..n]);
      DispatchBuilt(obs[n].store, Previous(obs, n), obs[n].obj);
    }
  }

  /** Everything but pod lifecycle and rollout progress. */
  function Essential(): Event -> bool {
    (ev: Event) => ev.kind !in {POD_STARTED, POD_TERMINATED, DEPLOY_ROLLOUT}
  }

  /** What a run delivers: everything at the info level and below, and above it exactly the
      events that are neither pod lifecycle nor rollout progress. */
  lemma DeliveredRun(minSeverity: int, obs: seq<Observation>)
    ensures Accepted(minSeverity, RunEvents(obs)) ==
            if minSeverity <= LEVEL_INFO then RunEvents(obs) else Keep(Essential(), RunEvents(obs))
  {
    hide RunEvents, Accept;
    RunBuilt(obs);
    var events := RunEvents(obs);
    forall i | 0 <= i < |events|
      ensures Acceptor(minSeverity)(events[i]) <==> minSeverity <= LEVEL_INFO || Essential()(events[i])
    {
      assert Built(events[i]);
      MappedEventPasses(minSeverity, events[i]);
    }
    if minSeverity <= LEVEL_INFO {
      KeepAll(Acceptor(minSeverity), events);
    } else {
      KeepSame(Acceptor(minSeverity), Essential(), events);
    }
  }

  function FilterEach(minSeverity: int, steps: seq<seq<Event>>): seq<seq<Event>> {
    seq(|steps|, i requires 0 <= i < |steps| => Accepted(minSeverity, steps[i]))
  }

  /** Filtering each notification as it comes is filtering the whole run. */
  lemma {:induction false} FilterPerNotification(minSeverity: int, steps: seq<seq<Event>>)
    ensures Concat(FilterEach(minSeverity, steps)) == Accepted(minSeverity, Concat(steps))
  {
    hide Accept;
    if steps == [] {
    } else {
      var n := |steps| - 1;
      FilterPerNotification(minSeverity, steps[..n]);
      KeepAppend(Acceptor(minSeverity), Concat(steps[..n]), steps[n]);
      assert FilterEach(minSeverity, steps)[..n] == FilterEach(minSeverity, steps[..n]);
    }
  }

  // ----- Into the batcher -----

  /** What the batcher is offered over a run, notification by notification. */
  function Offered(minSeverity: int, obs: seq<Observation>): seq<Event> {
    Concat(FilterEach(minSeverity, StepEvents(obs)))
  }

  /** Over every run the batcher is offered everything at the info level and below, and above it
      exactly what is neither pod lifecycle nor rollout progress. */
  lemma OfferedRun(minSeverity: int, obs: seq<Observation>)
    ensures Offered(minSeverity, obs) ==
            if minSeverity <= LEVEL_INFO then RunEvents(obs) else Keep(Essential(), RunEvents(obs))
  {
    hide RunEvents, StepEvents, FilterEach, Concat, Accepted;
    RunEventsConcat(obs);
    FilterPerNotification(minSeverity, StepEvents(obs));
    DeliveredRun(minSeverity, obs);
  }

  /** A buffer after it has taken what fits. */
  function Admitted(buffer: seq<Event>, events: seq<Event>): seq<Event> {
    buffer + events[..AdmitCount(|buffer|, |events|)]
  }

  /** Offering events in two parts, or in one, fills the buffer alike. */
  lemma AdmitInParts(buffer: seq<Event>, a: seq<Event>, b: seq<Event>)
    ensures Admitted(Admitted(buffer, a), b) == Admitted(buffer, a + b)
  {
    var n, m := AdmitCount(|buffer|, |a|), AdmitCount(|buffer|, |a + b|);
    if n < |a| {
      assert (a + b)[..m] == a[..n];
    } else {
      assert (a + b)[..m] == a + b[..m - |a|];
    }
  }

  lemma AdmitNothing(buffer: seq<Event>)
    ensures Admitted(buffer, []) == buffer
  {
  }

  lemma OfferedPrefix(minSeverity: int, obs: seq<Observation>, i: nat)
    requires i < |obs|
    ensures Offered(minSeverity, obs[..i + 1]) ==
            Offered(minSeverity, obs[..i]) + Accepted(minSeverity, EventsOf(StepResult(obs, i)))
    ensures RunEvents(obs[..i + 1]) == RunEvents(obs[..i]) + EventsOf(StepResult(obs, i))
  {
    hide StepResult, Accepted;
    PrefixSteps(obs, i);
    PrefixSteps(obs, i + 1);
    assert obs[..i + 1][..i] == obs[..i];
    var parts := FilterEach(minSeverity, StepEvents(obs[..i + 1]));
    assert parts[..i] == FilterEach(minSeverity, StepEvents(obs[..i]));
  }

  /** One notification: its mapped events in a slice of their own, or the error. */
  method EmitAll(h: Handler, mapped: Mapped)
    requires h.Valid()
    modifies h`filtered, h.batcher`buffer, h.batcher`flushSignal, h.batcher`bufferFullDrops
    ensures h.Valid()
    ensures h.batcher.buffer == Admitted(old(h.batcher.buffer), Accepted(h.minSeverity, EventsOf(mapped)))
    ensures |h.batcher.buffer| + h.batcher.bufferFullDrops + h.filtered[TIER2] ==
            |old(h.batcher.buffer)| + old(h.batcher.bufferFullDrops) + old(h.filtered[TIER2]) + |EventsOf(mapped)|
    ensures h.filtered[TIER1] == old(h.filtered[TIER1])
  {
    if mapped.MapFailed? {
      AdmitNothing(h.batcher.buffer);
      assert Accepted(h.minSeverity, []) == [];
      h.Emit(None);
    } else {
      var slice := new Event[|mapped.events|](i requires 0 <= i < |mapped.events| => mapped.events[i]);
      assert slice[..] == mapped.events;
      h.Emit(Some(slice));
    }
  }

  /** The handler called for every notification of a run, with no flush in between: the buffer
      takes the offered events in order until it is full, and each event of the run is buffered,
      counted as a buffer_full drop, or counted as filtered. */
  method HandleRun(h: Handler, obs: seq<Observation>)
    requires h.Valid()
    modifies h`filtered, h.batcher`buffer, h.batcher`flushSignal, h.batcher`bufferFullDrops
    ensures h.Valid()
    ensures h.batcher.buffer == Admitted(old(h.batcher.buffer), Offered(h.minSeverity, obs))
    ensures |h.batcher.buffer| + h.batcher.bufferFullDrops + h.filtered[TIER2] ==
            |old(h.batcher.buffer)| + old(h.batcher.bufferFullDrops) + old(h.filtered[TIER2]) + |RunEvents(obs)|
    ensures h.filtered[TIER1] == old(h.filtered[TIER1])
  {
    AdmitNothing(h.batcher.buffer);
    for i := 0 to |obs|
      invariant h.Valid()
      invariant h.batcher.buffer == Admitted(old(h.batcher.buffer), Offered(h.minSeverity, obs[..i]))
      invariant |h.batcher.buffer| + h.batcher.bufferFullDrops + h.filtered[TIER2] ==
                |old(h.batcher.buffer)| + old(h.batcher.bufferFullDrops) + old(h.filtered[TIER2])
                + |RunEvents(obs[..i])|
      invariant h.filtered[TIER1] == old(h.filtered[TIER1])
    {
      hide StepResult, Accepted, Offered, RunEvents, Admitted;
      OfferedPrefix(h.minSeverity, obs, i);
      var events := EventsOf(StepResult(obs, i));
      AdmitInParts(old(h.batcher.buffer), Offered(h.minSeverity, obs[..i]), Accepted(h.minSeverity, events));
      EmitAll(h, StepResult(obs, i));
    }
    assert obs[..|obs|] == obs;
  }

}
