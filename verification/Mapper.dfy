/** The change mappers: memoryless functions from (previous, current) object to events. */
module Mapper {
  import opened Text
  import opened Wire
  import opened Identity

  // ----- Observed objects -----

  datatype Condition = Condition(ctype: string, status: string, reason: string)

  datatype Deployment = Deployment(
    namespace: string, name: string, annotations: map<string, string>, replicas: Option<int>,
    conditions: seq<Condition>, updatedReplicas: int, readyReplicas: int)

  datatype StatefulSet = StatefulSet(
    namespace: string, name: string, replicas: Option<int>,
    updateRevision: string, currentRevision: string, readyReplicas: int)

  datatype DaemonSet = DaemonSet(
    namespace: string, name: string, observedGeneration: int, updatedScheduled: int, desiredScheduled: int)

  datatype Node = Node(name: string, conditions: seq<Condition>)

  /** `terminations` holds the reason of every container that has terminated, in container order. */
  datatype Pod = Pod(meta: Object, phase: string, terminations: seq<string>)

  datatype Autoscaler = Autoscaler(namespace: string, name: string, target: string, currentReplicas: int)

  datatype Watched =
    | OfDeployment(d: Deployment)
    | OfStatefulSet(s: StatefulSet)
    | OfDaemonSet(ds: DaemonSet)
    | OfNode(n: Node)
    | OfPod(p: Pod)
    | OfAutoscaler(h: Autoscaler)
    | Unmapped

  /** The events of one notification, or an error that loses them all. */
  datatype Mapped = Mapped(events: seq<Event>) | MapFailed

  const TRUE := "True"
  const FALSE := "False"
  const PROGRESSING := "Progressing"
  const AVAILABLE := "Available"
  const NEW_RS_CREATED := "NewReplicaSetCreated"
  const NEW_RS_AVAILABLE := "NewReplicaSetAvailable"
  const DEADLINE_EXCEEDED := "ProgressDeadlineExceeded"
  const REVISION := "deployment.kubernetes.io/revision"
  const CHANGE_CAUSE := "kubernetes.io/change-cause"

  const REASON_ATTR := "k8s.reason"
  const STATUS_ATTR := "k8s.rollout.status"
  const REVISION_ATTR := "k8s.rollout.revision"
  const REPLICAS_ATTR := "k8s.hpa.current_replicas"

  function Lookup(m: map<string, string>, k: string): string {
    if k in m then m[k] else ""
  }

  function FindCondition(conds: seq<Condition>, t: string): Option<Condition> {
    if conds == [] then None
    else if conds[0].ctype == t then Some(conds[0])
    else FindCondition(conds[1..], t)
  }

  function Progressing(d: Deployment): Option<Condition> {
    FindCondition(d.conditions, PROGRESSING)
  }

  predicate HasReason(c: Option<Condition>, reason: string) {
    c.Some? && c.value.reason == reason
  }

  predicate HasStatus(c: Option<Condition>, status: string) {
    c.Some? && c.value.status == status
  }

  function SpecReplicas(p: Option<int>): int {
    if p.None? then 1 else p.value
  }

  function BuildEvent(kind: string, serviceID: string, attributes: map<string, Attr>): Event {
    Event(kind, SeverityForKind(kind), serviceID, attributes)
  }

  /** The mapper's id for an object: the resolved one, or its name when nothing was resolved. */
  function IdOr(id: string, name: string): string {
    if id != "" then id else name
  }

  // ----- Revisions -----

  predicate IsDigit(c: char) {
    '0' <= c <= '9'
  }

  function SkipSpaces(s: string): string {
    if s != [] && IsSpace(s[0]) && s[0] != '\n' then SkipSpaces(s[1..]) else s
  }

  function DigitsPrefix(s: string): nat {
    if s != [] && IsDigit(s[0]) then 1 + DigitsPrefix(s[1..]) else 0
  }

  lemma {:induction false} DigitsPrefixFits(s: string)
    ensures DigitsPrefix(s) <= |s|
  {
    if s == [] || !IsDigit(s[0]) {
    } else {
      DigitsPrefixFits(s[1..]);
    }
  }

  function DigitsValue(s: string): int {
    if s == [] then 0 else 10 * DigitsValue(s[..|s| - 1]) + (s[|s| - 1] as int - '0' as int)
  }

  /** Scanning "%d": leading spaces, a sign, digits; what follows is ignored; 64-bit range. */
  function ParseRevision(s: string): Option<int> {
    var t := SkipSpaces(s);
    var signed := t != [] && (t[0] == '+' || t[0] == '-');
    var u := if signed then t[1..] else t;
    DigitsPrefixFits(u);
    var n := DigitsPrefix(u);
    var v := (if signed && t[0] == '-' then -1 else 1) * DigitsValue(u[..n]);
    if n == 0 || !(-0x8000_0000_0000_0000 <= v < 0x8000_0000_0000_0000) then None else Some(v)
  }

  predicate RevisionLess(a: string, b: string) {
    var x, y := ParseRevision(a), ParseRevision(b);
    if x.None? || y.None? then LexLess(a, b) else x.value < y.value
  }

  /** Lower-casing, as far as it can produce a letter of "rollback". */
  function ToLower(s: string): string {
    seq(|s|, i requires 0 <= i < |s| =>
      if 'A' <= s[i] <= 'Z' then (s[i] as int + 32) as char else if s[i] == '\U{212a}' then 'k' else s[i])
  }

  predicate IsRollback(oldRev: string, newRev: string, oldCause: string, newCause: string) {
    || (newRev != "" && oldRev != "" && RevisionLess(newRev, oldRev))
    || (newCause != "" && newCause != oldCause && Contains(ToLower(newCause), "rollback"))
  }

  function RevisionAttrs(reason: string, rev: string): map<string, Attr> {
    var base := map[REASON_ATTR := Words(reason)];
    match ParseRevision(rev)
    case Some(n) => base[REVISION_ATTR := Number(n)]
    case None => if rev == "" then base else base[REVISION_ATTR := Words(rev)]
  }

  // ----- Deployments -----

  function RolloutStatus(d: Deployment): string {
    var p := Progressing(d);
    if p.None? then ""
    else if HasStatus(p, FALSE) && HasReason(p, DEADLINE_EXCEEDED) then "failed"
    else if HasStatus(p, TRUE) && HasReason(p, NEW_RS_AVAILABLE) then "complete"
    else if HasStatus(p, TRUE) then "progressing"
    else "unknown"
  }

  function PreviousStatus(was: Option<Deployment>): string {
    if was.Some? then RolloutStatus(was.value) else ""
  }

  function AsObject(d: Deployment): Object {
    Object(DEPLOYMENT, d.namespace, d.name, d.annotations, [])
  }

  /** The rollout event of one change: present when the status differs from the one before. */
  function RolloutEvents(id: string, was: Option<Deployment>, n: Deployment): seq<Event> {
    var status := RolloutStatus(n);
    if status == PreviousStatus(was) then []
    else [BuildEvent(DEPLOY_ROLLOUT, id, map[STATUS_ATTR := Words(status)])]
  }

  function FromDeploymentRollout(store: Store, was: Option<Deployment>, n: Deployment): Mapped {
    if RolloutStatus(n) == PreviousStatus(was) then Mapped([])
    else
      match Resolve(store, AsObject(n))
      case Failed => MapFailed
      case Resolved(id) => Mapped(RolloutEvents(IdOr(id.serviceID, n.name), was, n))
  }

  predicate IsDeployStarted(was: Option<Deployment>, n: Deployment, oldRev: string, newRev: string) {
    var p := Progressing(n);
    var fresh_ := HasStatus(p, TRUE) && HasReason(p, NEW_RS_CREATED);
    if newRev == "" || p.None? then false
    else if was.None? then fresh_
    else if oldRev != newRev then true
    else !HasReason(Progressing(was.value), NEW_RS_CREATED) && fresh_
  }

  predicate IsDeploySucceeded(was: Option<Deployment>, n: Deployment) {
    && HasStatus(FindCondition(n.conditions, AVAILABLE), TRUE)
    && HasReason(Progressing(n), NEW_RS_AVAILABLE)
    && n.updatedReplicas == n.readyReplicas == SpecReplicas(n.replicas)
    && was.Some?
    && !HasReason(Progressing(was.value), NEW_RS_AVAILABLE)
  }

  predicate IsDeployFailed(was: Option<Deployment>, n: Deployment) {
    && HasStatus(Progressing(n), FALSE)
    && HasReason(Progressing(n), DEADLINE_EXCEEDED)
    && (was.None? || !HasReason(Progressing(was.value), DEADLINE_EXCEEDED))
  }

  predicate IsDeployCancelled(was: Option<Deployment>, n: Deployment) {
    && was.Some?
    && SpecReplicas(was.value.replicas) != 0
    && SpecReplicas(n.replicas) == 0
    && HasStatus(Progressing(was.value), TRUE)
  }

  /** `[build]` when the detector fires. */
  function When(fires: bool, kind: string, id: string, reason: string, rev: string): seq<Event> {
    if fires then [BuildEvent(kind, id, RevisionAttrs(reason, rev))] else []
  }

  function AnnotationOf(d: Option<Deployment>, key: string): string {
    if d.Some? then Lookup(d.value.annotations, key) else ""
  }

  predicate RolledBack(was: Option<Deployment>, n: Deployment) {
    IsRollback(AnnotationOf(was, REVISION), Lookup(n.annotations, REVISION),
               AnnotationOf(was, CHANGE_CAUSE), Lookup(n.annotations, CHANGE_CAUSE))
  }

  /** The DEPLOY_* events of one change. A rollback replaces all the others. */
  function DeployEvents(id: string, was: Option<Deployment>, n: Deployment): seq<Event> {
    var oldRev, newRev := AnnotationOf(was, REVISION), Lookup(n.annotations, REVISION);
    if RolledBack(was, n) then
      When(true, DEPLOY_ROLLED_BACK, id, "RolledBack", newRev)
    else
      When(IsDeployStarted(was, n, oldRev, newRev), DEPLOY_STARTED, id, "Started", newRev)
      + When(IsDeploySucceeded(was, n), DEPLOY_SUCCEEDED, id, "Succeeded", newRev)
      + When(IsDeployFailed(was, n), DEPLOY_FAILED, id, DEADLINE_EXCEEDED, newRev)
      + When(IsDeployCancelled(was, n), DEPLOY_CANCELLED, id, "ScaleToZero", newRev)
  }

  function FromDeploymentChange(store: Store, was: Option<Deployment>, n: Deployment): Mapped {
    match ResolveRef(store, DEPLOYMENT, n.namespace, n.name)
    case Failed => MapFailed
    case Resolved(id) => Mapped(DeployEvents(IdOr(id.serviceID, n.name), was, n))
  }

  function FromDeploymentDelete(store: Store, d: Deployment): Mapped {
    var p := Progressing(d);
    if !HasStatus(p, TRUE) || HasReason(p, NEW_RS_AVAILABLE) then Mapped([])
    else
      match ResolveRef(store, DEPLOYMENT, d.namespace, d.name)
      case Failed => MapFailed
      case Resolved(id) =>
        Mapped(When(true, DEPLOY_CANCELLED, IdOr(id.serviceID, d.name), "DeletedMidRollout",
                    Lookup(d.annotations, REVISION)))
  }

  // ----- StatefulSets and DaemonSets -----

  predicate Diverged(s: StatefulSet) {
    s.updateRevision != "" && s.updateRevision != s.currentRevision
  }

  predicate StatefulSetStarted(was: Option<StatefulSet>, n: StatefulSet) {
    && Diverged(n)
    && (|| was.None?
        || was.value.updateRevision == was.value.currentRevision
        || was.value.updateRevision != n.updateRevision)
  }

  predicate StatefulSetSucceeded(was: Option<StatefulSet>, n: StatefulSet) {
    && was.Some? && Diverged(was.value)
    && n.updateRevision == n.currentRevision && n.updateRevision != ""
    && n.readyReplicas == SpecReplicas(n.replicas)
  }

  function RawRevision(reason: string, rev: string): map<string, Attr> {
    map[REASON_ATTR := Words(reason), REVISION_ATTR := Words(rev)]
  }

  function StatefulSetEvents(id: string, was: Option<StatefulSet>, n: StatefulSet): seq<Event> {
    (if StatefulSetStarted(was, n)
     then [BuildEvent(DEPLOY_STARTED, id, RawRevision("Started", n.updateRevision))] else [])
    + (if StatefulSetSucceeded(was, n)
       then [BuildEvent(DEPLOY_SUCCEEDED, id, RawRevision("Succeeded", n.updateRevision))] else [])
  }

  function FromStatefulSetChange(store: Store, was: Option<StatefulSet>, n: StatefulSet): Mapped {
    match ResolveRef(store, STATEFUL_SET, n.namespace, n.name)
    case Failed => MapFailed
    case Resolved(r) => Mapped(StatefulSetEvents(IdOr(r.serviceID, n.name), was, n))
  }

  predicate DaemonSetStarted(was: Option<DaemonSet>, n: DaemonSet) {
    && n.observedGeneration > (if was.Some? then was.value.observedGeneration else 0)
    && n.updatedScheduled < n.desiredScheduled
  }

  predicate DaemonSetSucceeded(was: Option<DaemonSet>, n: DaemonSet) {
    && was.Some? && was.value.updatedScheduled < was.value.desiredScheduled
    && n.updatedScheduled == n.desiredScheduled && n.desiredScheduled > 0
  }

  function DaemonSetEvents(id: string, was: Option<DaemonSet>, n: DaemonSet): seq<Event> {
    (if DaemonSetStarted(was, n) then [BuildEvent(DEPLOY_STARTED, id, map[REASON_ATTR := Words("Started")])] else [])
    + (if DaemonSetSucceeded(was, n)
       then [BuildEvent(DEPLOY_SUCCEEDED, id, map[REASON_ATTR := Words("Succeeded")])] else [])
  }

  function FromDaemonSetChange(store: Store, was: Option<DaemonSet>, n: DaemonSet): Mapped {
    match ResolveRef(store, DAEMON_SET, n.namespace, n.name)
    case Failed => MapFailed
    case Resolved(r) => Mapped(DaemonSetEvents(IdOr(r.serviceID, n.name), was, n))
  }

  // ----- Nodes, Pods, autoscalers -----

  const PRESSURES: seq<string> := ["MemoryPressure", "DiskPressure", "PIDPressure"]
  const READY := "Ready"
  const NOT_READY := "NotReady"

  /** The node reports the pressure condition, or a Ready condition that is not True. */
  predicate Unhealthy(n: Node, what: string) {
    if what == NOT_READY then
      var c := FindCondition(n.conditions, READY);
      c.Some? && c.value.status != TRUE
    else HasStatus(FindCondition(n.conditions, what), TRUE)
  }

  predicate TurnsUnhealthy(was: Option<Node>, n: Node, what: string) {
    Unhealthy(n, what) && !(was.Some? && Unhealthy(was.value, what))
  }

  function PressureEvent(n: Node, what: string): Event {
    BuildEvent(NODE_PRESSURE, n.name, map[REASON_ATTR := Words(what)])
  }

  function PressureEvents(was: Option<Node>, n: Node, whats: seq<string>): seq<Event> {
    if whats == [] then []
    else
      var what := whats[|whats| - 1];
      PressureEvents(was, n, whats[..|whats| - 1])
      + if TurnsUnhealthy(was, n, what) then [PressureEvent(n, what)] else []
  }

  function NodeEvents(was: Option<Node>, n: Node): seq<Event> {
    PressureEvents(was, n, PRESSURES + [NOT_READY])
  }

  /** The mapper's loop over the pressure conditions, with Ready handled apart. */
  method FromNodeConditionChange(was: Option<Node>, n: Node) returns (out: seq<Event>)
    ensures out == NodeEvents(was, n)
  {
    out := [];
    for i := 0 to |PRESSURES|
      invariant out == PressureEvents(was, n, PRESSURES[..i])
    {
      var cond := PRESSURES[i];
      assert PRESSURES[..i + 1][..i] == PRESSURES[..i];
      assert cond != NOT_READY;
      var now := FindCondition(n.conditions, cond);
      if !HasStatus(now, TRUE) {
        continue;
      }
      if was.Some? {
        var before := FindCondition(was.value.conditions, cond);
        if HasStatus(before, TRUE) {
          continue;
        }
      }
      out := out + [PressureEvent(n, cond)];
    }
    assert PRESSURES[..|PRESSURES|] == PRESSURES;
    assert (PRESSURES + [NOT_READY])[..|PRESSURES|] == PRESSURES;
    var ready := FindCondition(n.conditions, READY);
    if ready.Some? && ready.value.status != TRUE {
      var already := false;
      if was.Some? {
        var before := FindCondition(was.value.conditions, READY);
        already := before.Some? && before.value.status != TRUE;
      }
      if !already {
        out := out + [PressureEvent(n, NOT_READY)];
      }
    }
  }

  const RUNNING := "Running"
  const SUCCEEDED := "Succeeded"
  const FAILED := "Failed"
  const OOM_KILLED := "OOMKilled"

  /** The kind and reason of a Pod entering its phase, if that is reported. */
  function PodTransition(n: Pod): Option<(string, string)> {
    if n.phase == RUNNING then Some((POD_STARTED, "Started"))
    else if n.phase == SUCCEEDED then Some((POD_TERMINATED, "Completed"))
    else if n.phase == FAILED then
      if OOM_KILLED in n.terminations then Some((OOM_KILL, OOM_KILLED)) else Some((POD_TERMINATED, "Failed"))
    else None
  }

  /** The reported reason: that of the first terminated container, when it has one. */
  function PodReason(n: Pod, kind: string, reason: string): string {
    if kind != POD_STARTED && n.terminations != [] && n.terminations[0] != "" then n.terminations[0] else reason
  }

  function FromPodStatusChange(store: Store, was: Option<Pod>, n: Pod): Mapped {
    var oldPhase := if was.Some? then was.value.phase else "";
    if oldPhase == n.phase || PodTransition(n).None? then Mapped([])
    else
      match Resolve(store, n.meta)
      case Failed => MapFailed
      case Resolved(id) =>
        var (kind, reason) := PodTransition(n).value;
        Mapped([BuildEvent(kind, IdOr(id.serviceID, n.meta.name), map[REASON_ATTR := Words(PodReason(n, kind, reason))])])
  }

  function FromHPAScale(was: Option<Autoscaler>, n: Autoscaler): seq<Event> {
    if was.None? || was.value.currentReplicas == n.currentReplicas then []
    else
      var reason := if n.currentReplicas < was.value.currentReplicas then "ScaleDown" else "ScaleUp";
      [BuildEvent(HPA_SCALE, IdOr(n.target, n.name),
                  map[REASON_ATTR := Words(reason), REPLICAS_ATTR := Number(n.currentReplicas)])]
  }

  // ----- Routing -----

  /** Routing by type; a previous object of another type counts as none. */
  function Dispatch(store: Store, was: Option<Watched>, current: Option<Watched>): Mapped {
    match current
    case None =>
      (match was
       case Some(OfDeployment(d)) => FromDeploymentDelete(store, d)
       case _ => Mapped([]))
    case Some(OfNode(n)) =>
      Mapped(NodeEvents(if was.Some? && was.value.OfNode? then Some(was.value.n) else None, n))
    case Some(OfPod(p)) =>
      FromPodStatusChange(store, if was.Some? && was.value.OfPod? then Some(was.value.p) else None, p)
    case Some(OfAutoscaler(h)) =>
      Mapped(FromHPAScale(if was.Some? && was.value.OfAutoscaler? then Some(was.value.h) else None, h))
    case Some(OfDeployment(d)) =>
      var before := if was.Some? && was.value.OfDeployment? then Some(was.value.d) else None;
      var infra := FromDeploymentRollout(store, before, d);
      var deploy := FromDeploymentChange(store, before, d);
      if infra.MapFailed? || deploy.MapFailed? then MapFailed else Mapped(infra.events + deploy.events)
    case Some(OfStatefulSet(s)) =>
      FromStatefulSetChange(store, if was.Some? && was.value.OfStatefulSet? then Some(was.value.s) else None, s)
    case Some(OfDaemonSet(ds)) =>
      FromDaemonSetChange(store, if was.Some? && was.value.OfDaemonSet? then Some(was.value.ds) else None, ds)
    case Some(Unmapped) => Mapped([])
  }
}
