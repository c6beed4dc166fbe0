/** What Node, Pod and autoscaler notifications add up to over a run. */
module InfrastructureRuns {
  import opened Sequences
  import opened Wire
  import opened Identity
  import opened Mapper
  import opened Runs
  import opened Conditions

  // ----- Nodes -----

  predicate AllNodes(obs: seq<Observation>) {
    forall i :: 0 <= i < |obs| ==> obs[i].obj.OfNode?
  }

  function UnhealthyFlags(obs: seq<Observation>, what: string): seq<bool>
    requires AllNodes(obs)
  {
    seq(|obs|, i requires 0 <= i < |obs| => Unhealthy(obs[i].obj.n, what))
  }

  predicate IsPressure(what: string, ev: Event) {
    ev.kind == "K8S_NODE_PRESSURE" && "k8s.reason" in ev.attributes && ev.attributes["k8s.reason"] == Words(what)
  }

  function Pressure(what: string): Event -> bool {
    ev => IsPressure(what, ev)
  }

  function Occurrences(what: string, whats: seq<string>): nat {
    if whats == [] then 0
    else Occurrences(what, whats[..|whats| - 1]) + if whats[|whats| - 1] == what then 1 else 0
  }

  lemma {:induction false} PressureEventsCount(was: Option<Node>, n: Node, whats: seq<string>, what: string)
    ensures CountWhere(Pressure(what), PressureEvents(was, n, whats))
            == if TurnsUnhealthy(was, n, what) then Occurrences(what, whats) else 0
  {
    hide TurnsUnhealthy;
    if whats == [] {
    } else {
      var init, w := whats[..|whats| - 1], whats[|whats| - 1];
      PressureEventsCount(was, n, init, what);
      var last := if TurnsUnhealthy(was, n, w) then [PressureEvent(n, w)] else [];
      CountWhereAppend(Pressure(what), PressureEvents(was, n, init), last);
      CountSingle(Pressure(what), PressureEvent(n, w));
    }
  }

  lemma OccurrencesSnoc(what: string, whats: seq<string>, w: string)
    ensures Occurrences(what, whats + [w]) == Occurrences(what, whats) + if w == what then 1 else 0
  {
    assert (whats + [w])[..|whats|] == whats;
  }

  lemma NoOccurrences(what: string)
    ensures Occurrences(what, []) == 0
  {
  }

  lemma EachConditionListedOnce(what: string)
    requires what in PRESSURES + [NOT_READY]
    ensures Occurrences(what, PRESSURES + [NOT_READY]) == 1
  {
    hide Occurrences;
    var m, d, p := PRESSURES[0], PRESSURES[1], PRESSURES[2];
    assert |m| == 14 && |d| == 12 && |p| == 11 && |NOT_READY| == 8;
    assert Occurrences(what, []) == 0 by {
      NoOccurrences(what);
    }
    OccurrencesSnoc(what, [], m);
    OccurrencesSnoc(what, [m], d);
    OccurrencesSnoc(what, [m, d], p);
    OccurrencesSnoc(what, [m, d, p], NOT_READY);
    assert [] + [m] == [m] && [m] + [d] == [m, d] && [m, d] + [p] == [m, d, p];
    assert PRESSURES + [NOT_READY] == [m, d, p] + [NOT_READY];
  }

  lemma NodeStepCount(obs: seq<Observation>, i: nat, what: string)
    requires AllNodes(obs) && i < |obs| && what in PRESSURES + [NOT_READY]
    ensures CountWhere(Pressure(what), StepEvents(obs)[i]) == if Rising(UnhealthyFlags(obs, what))[i] then 1 else 0
  {
    hide Unhealthy, PressureEvents, Occurrences;
    var was := if i == 0 then None else Some(obs[i - 1].obj.n);
    assert StepEvents(obs)[i] == PressureEvents(was, obs[i].obj.n, PRESSURES + [NOT_READY]);
    PressureEventsCount(was, obs[i].obj.n, PRESSURES + [NOT_READY], what);
    EachConditionListedOnce(what);
  }

  lemma LengthsMatch(obs: seq<Observation>, what: string)
    requires AllNodes(obs)
    ensures |StepEvents(obs)| == |obs| == |UnhealthyFlags(obs, what)|
  {
  }

  /** Over any run of one Node, the pressure events for memory, disk, PID or not-ready number the
      rising edges of that condition, an unhealthy first observation counting as one. */
  lemma NodePressureCountsRisingEdges(obs: seq<Observation>, what: string)
    requires AllNodes(obs) && what in PRESSURES + [NOT_READY]
    ensures CountWhere(Pressure(what), RunEvents(obs)) == CountTrue(Rising(UnhealthyFlags(obs, what)))
  {
    hide StepEvents, RunEvents, UnhealthyFlags;
    RunEventsConcat(obs);
    LengthsMatch(obs, what);
    forall i: nat | i < |StepEvents(obs)|
      ensures CountWhere(Pressure(what), StepEvents(obs)[i]) == if Rising(UnhealthyFlags(obs, what))[i] then 1 else 0
    {
      NodeStepCount(obs, i, what);
    }
    CountsMarksIff(StepEvents(obs), Rising(UnhealthyFlags(obs, what)), seq(|obs|, _ => false), Pressure(what));
  }

  /** The observations that have just turned not ready, by their first Ready condition. */
  ghost function TurnedNotReady(obs: seq<Observation>): seq<bool>
    requires AllNodes(obs)
  {
    seq(|obs|, i requires 0 <= i < |obs| =>
      NotReadyNow(obs[i].obj.n) && (i == 0 || !NotReadyNow(obs[i - 1].obj.n)))
  }

  /** The observations that have just come under a pressure, by its first condition. */
  ghost function CameUnder(obs: seq<Observation>, pressure: string): seq<bool>
    requires AllNodes(obs)
  {
    seq(|obs|, i requires 0 <= i < |obs| =>
      UnderPressure(obs[i].obj.n, pressure) && (i == 0 || !UnderPressure(obs[i - 1].obj.n, pressure)))
  }

  /** Over any run of one Node, the NotReady events number the observations whose first Ready
      condition exists and is not True while the one before had none such: False and Unknown alike. */
  lemma NotReadyEventsCount(obs: seq<Observation>)
    requires AllNodes(obs)
    ensures CountWhere(Pressure("NotReady"), RunEvents(obs)) == CountTrue(TurnedNotReady(obs))
  {
    hide RunEvents, NotReadyNow, Unhealthy;
    NodePressureCountsRisingEdges(obs, "NotReady");
    forall i | 0 <= i < |obs|
      ensures Unhealthy(obs[i].obj.n, "NotReady") <==> NotReadyNow(obs[i].obj.n)
    {
      UnhealthyMeans(obs[i].obj.n);
    }
    assert Rising(UnhealthyFlags(obs, "NotReady")) == TurnedNotReady(obs);
  }

  /** And the events of each pressure number the observations whose first condition of that type
      is True while the one before had none such. */
  lemma PressureEventsOverRun(obs: seq<Observation>, pressure: string)
    requires AllNodes(obs) && pressure in {"MemoryPressure", "DiskPressure", "PIDPressure"}
    ensures CountWhere(Pressure(pressure), RunEvents(obs)) == CountTrue(CameUnder(obs, pressure))
  {
    hide RunEvents, UnderPressure, Unhealthy;
    NodePressureCountsRisingEdges(obs, pressure);
    forall i | 0 <= i < |obs|
      ensures Unhealthy(obs[i].obj.n, pressure) <==> UnderPressure(obs[i].obj.n, pressure)
    {
      UnhealthyMeans(obs[i].obj.n);
    }
    assert Rising(UnhealthyFlags(obs, pressure)) == CameUnder(obs, pressure);
  }

  // ----- Pods -----

  predicate AllPods(obs: seq<Observation>) {
    forall i :: 0 <= i < |obs| ==> obs[i].obj.OfPod?
  }

  const POD_KINDS: set<string> := {POD_STARTED, POD_TERMINATED, OOM_KILL}

  /** What each kind says about the Pod it reports. */
  predicate Describes(kind: string, p: Pod) {
    if kind == "K8S_POD_STARTED" then p.phase == "Running"
    else if kind == "K8S_OOM_KILL" then p.phase == "Failed" && "OOMKilled" in p.terminations
    else p.phase == "Succeeded" || (p.phase == "Failed" && "OOMKilled" !in p.terminations)
  }

  /** The observations that enter a phase which `kind` describes. */
  function Entries(obs: seq<Observation>, kind: string): seq<bool>
    requires AllPods(obs)
  {
    seq(|obs|, i requires 0 <= i < |obs| =>
      Describes(kind, obs[i].obj.p) && (i == 0 || obs[i - 1].obj.p.phase != obs[i].obj.p.phase))
  }

  /** The notifications at which the owner of the Pod cannot be read. */
  function OwnerUnreadable(obs: seq<Observation>): seq<bool>
    requires AllPods(obs)
  {
    seq(|obs|, i requires 0 <= i < |obs| => Resolve(obs[i].store, obs[i].obj.p.meta).Failed?)
  }

  lemma PodKindsDiffer()
    ensures POD_STARTED != POD_TERMINATED && POD_STARTED != OOM_KILL && POD_TERMINATED != OOM_KILL
  {
    assert |POD_STARTED| == 15 && |POD_TERMINATED| == 18 && |OOM_KILL| == 12;
  }

  lemma PodCount(store: Store, was: Option<Pod>, n: Pod, kind: string)
    requires kind in POD_KINDS
    ensures CountWhere(OfKind(kind), EventsOf(FromPodStatusChange(store, was, n))) ==
            if && Describes(kind, n) && (was.None? || was.value.phase != n.phase)
               && !Resolve(store, n.meta).Failed? then 1 else 0
  {
    hide Resolve;
    PodKindsDiffer();
    var result := FromPodStatusChange(store, was, n);
    if EventsOf(result) != [] {
      assert result.events == [result.events[0]];
      CountSingle(OfKind(kind), result.events[0]);
    }
  }

  lemma PodStepCount(obs: seq<Observation>, i: nat, kind: string)
    requires AllPods(obs) && i < |obs| && kind in POD_KINDS
    ensures CountWhere(OfKind(kind), StepEvents(obs)[i])
            == if Entries(obs, kind)[i] && !OwnerUnreadable(obs)[i] then 1 else 0
  {
    hide Resolve, FromPodStatusChange, Describes, CountWhere;
    var was := if i == 0 then None else Some(obs[i - 1].obj.p);
    assert StepResult(obs, i) == FromPodStatusChange(obs[i].store, was, obs[i].obj.p);
    PodCount(obs[i].store, was, obs[i].obj.p, kind);
  }

  /** Over any run of one Pod, the events of a kind number the entries into the phases it
      describes exactly when no such entry coincides with an unreadable owner. */
  lemma PodEventsCountEntriesIff(obs: seq<Observation>, kind: string)
    requires AllPods(obs) && kind in POD_KINDS
    ensures CountWhere(OfKind(kind), RunEvents(obs)) == CountTrue(Entries(obs, kind))
            <==> !LosesMark(Entries(obs, kind), OwnerUnreadable(obs))
  {
    hide StepResult, RunEvents;
    RunEventsConcat(obs);
    forall i: nat | i < |obs|
      ensures CountWhere(OfKind(kind), StepEvents(obs)[i])
              == if Entries(obs, kind)[i] && !OwnerUnreadable(obs)[i] then 1 else 0
    {
      PodStepCount(obs, i, kind);
    }
    CountsMarksIff(StepEvents(obs), Entries(obs, kind), OwnerUnreadable(obs), OfKind(kind));
  }

  // ----- Autoscalers -----

  predicate AllAutoscalers(obs: seq<Observation>) {
    forall i :: 0 <= i < |obs| ==> obs[i].obj.OfAutoscaler?
  }

  function Replicas(obs: seq<Observation>): seq<int>
    requires AllAutoscalers(obs)
  {
    seq(|obs|, i requires 0 <= i < |obs| => obs[i].obj.h.currentReplicas)
  }

  function ScaleValue(ev: Event): Option<int> {
    if REPLICAS_ATTR in ev.attributes && ev.attributes[REPLICAS_ATTR].Number?
    then Some(ev.attributes[REPLICAS_ATTR].number) else None
  }

  lemma ScaleValues(was: Option<Autoscaler>, n: Autoscaler)
    ensures Extract(ScaleValue, FromHPAScale(was, n)) ==
            if was.None? || was.value.currentReplicas == n.currentReplicas then [] else [n.currentReplicas]
  {
    if FromHPAScale(was, n) != [] {
      var ev := FromHPAScale(was, n)[0];
      assert FromHPAScale(was, n) == [ev];
      assert |REASON_ATTR| != |REPLICAS_ATTR|;
      ExtractSingle(ScaleValue, ev);
    }
  }

  lemma ScaleStep(obs: seq<Observation>, i: nat)
    requires AllAutoscalers(obs) && i < |obs|
    ensures ExtractEach(ScaleValue, StepEvents(obs))[i] ==
            if Changes(Replicas(obs), Replicas(obs)[0], i) then [Replicas(obs)[i]] else []
  {
    hide FromHPAScale, Extract;
    var was := if i == 0 then None else Some(obs[i - 1].obj.h);
    assert StepResult(obs, i) == Mapped(FromHPAScale(was, obs[i].obj.h));
    ScaleValues(was, obs[i].obj.h);
  }

  /** Over any run of one autoscaler, the reported replica counts are the observed ones without
      repetitions and without the baseline. */
  lemma ScaleRunIsCompressed(obs: seq<Observation>)
    requires AllAutoscalers(obs) && obs != []
    ensures Extract(ScaleValue, RunEvents(obs)) == Compress(Replicas(obs), Replicas(obs)[0])
  {
    hide StepResult, RunEvents;
    var lost := seq(|obs|, _ => false);
    forall i: nat | i < |obs|
      ensures ExtractEach(ScaleValue, StepEvents(obs))[i] ==
              if Changes(Replicas(obs), Replicas(obs)[0], i) && !lost[i] then [Replicas(obs)[i]] else []
    {
      ScaleStep(obs, i);
    }
    RunEventsConcat(obs);
    ReportedIsCompressedIff(ScaleValue, StepEvents(obs), Replicas(obs), Replicas(obs)[0], lost);
  }
}
