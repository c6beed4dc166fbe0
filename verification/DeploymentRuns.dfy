/** What Deployment notifications add up to over a run. */
module DeploymentRuns {
  import opened Sequences
  import opened Text
  import opened Wire
  import opened Identity
  import opened Mapper
  import opened Runs
  import opened Conditions

  lemma KindsDistinct()
    ensures DEPLOY_STARTED != DEPLOY_SUCCEEDED && DEPLOY_STARTED != DEPLOY_FAILED
    ensures DEPLOY_STARTED != DEPLOY_CANCELLED && DEPLOY_STARTED != DEPLOY_ROLLED_BACK
    ensures DEPLOY_SUCCEEDED != DEPLOY_FAILED && DEPLOY_SUCCEEDED != DEPLOY_CANCELLED
    ensures DEPLOY_SUCCEEDED != DEPLOY_ROLLED_BACK && DEPLOY_FAILED != DEPLOY_CANCELLED
    ensures DEPLOY_FAILED != DEPLOY_ROLLED_BACK && DEPLOY_CANCELLED != DEPLOY_ROLLED_BACK
    ensures DEPLOY_ROLLOUT !in
            {DEPLOY_STARTED, DEPLOY_SUCCEEDED, DEPLOY_FAILED, DEPLOY_CANCELLED, DEPLOY_ROLLED_BACK}
  {
    assert DEPLOY_SUCCEEDED[7] == 'S' && DEPLOY_CANCELLED[7] == 'C';
    assert DEPLOY_ROLLOUT[0] == 'K' && DEPLOY_ROLLED_BACK[0] == 'D';
  }

  predicate AllDeployments(obs: seq<Observation>) {
    forall i :: 0 <= i < |obs| ==> obs[i].obj.OfDeployment?
  }

  function Statuses(obs: seq<Observation>): seq<string>
    requires AllDeployments(obs)
  {
    seq(|obs|, i requires 0 <= i < |obs| => RolloutStatus(obs[i].obj.d))
  }

  /** The resolver's read of the observed Deployment fails. */
  predicate LookupFails(store: Store, d: Deployment) {
    d.name != "" && Get(store, DEPLOYMENT, d.namespace, d.name) == FetchError
  }

  function Failures(obs: seq<Observation>): seq<bool>
    requires AllDeployments(obs)
  {
    seq(|obs|, i requires 0 <= i < |obs| => LookupFails(obs[i].store, obs[i].obj.d))
  }

  function RolloutValue(ev: Event): Option<string> {
    if ev.kind == DEPLOY_ROLLOUT && STATUS_ATTR in ev.attributes && ev.attributes[STATUS_ATTR].Words?
    then Some(ev.attributes[STATUS_ATTR].text) else None
  }

  function RolloutValues(events: seq<Event>): seq<string> {
    Extract(RolloutValue, events)
  }

  lemma {:induction false} NoRolloutAmong(events: seq<Event>)
    requires forall i :: 0 <= i < |events| ==> events[i].kind != DEPLOY_ROLLOUT
    ensures RolloutValues(events) == []
  {
    if events == [] {
    } else {
      NoRolloutAmong(events[..|events| - 1]);
    }
  }

  predicate IsDeployKind(kind: string) {
    kind in {DEPLOY_STARTED, DEPLOY_SUCCEEDED, DEPLOY_FAILED, DEPLOY_CANCELLED, DEPLOY_ROLLED_BACK}
  }

  lemma DeployEventsHaveDeployKinds(id: string, was: Option<Deployment>, n: Deployment)
    ensures forall i :: 0 <= i < |DeployEvents(id, was, n)| ==> IsDeployKind(DeployEvents(id, was, n)[i].kind)
  {
  }

  /** The result of dispatching a Deployment add or update. */
  function DispatchDeployment(store: Store, was: Option<Deployment>, n: Deployment): Mapped {
    Dispatch(store, if was.Some? then Some(OfDeployment(was.value)) else None, Some(OfDeployment(n)))
  }

  function RolloutID(n: Deployment): string {
    ResolveWorkload(DEPLOYMENT, n.name, n.namespace, n.annotations).serviceID
  }

  function ChangeID(store: Store, n: Deployment): string {
    match ResolveRef(store, DEPLOYMENT, n.namespace, n.name)
    case Resolved(id) => IdOr(id.serviceID, n.name)
    case Failed => ""
  }

  lemma RolloutPart(store: Store, was: Option<Deployment>, n: Deployment)
    ensures FromDeploymentRollout(store, was, n) == Mapped(RolloutEvents(RolloutID(n), was, n))
  {
    assert Resolve(store, AsObject(n)).id.serviceID == RolloutID(n);
  }

  lemma DeployPart(store: Store, was: Option<Deployment>, n: Deployment)
    ensures FromDeploymentChange(store, was, n) ==
            if LookupFails(store, n) then MapFailed else Mapped(DeployEvents(ChangeID(store, n), was, n))
  {
  }

  /** A dispatch is lost exactly when the lookup fails; otherwise it is the rollout event, if
      the status changed, followed by the DEPLOY_* events. */
  lemma DispatchShape(store: Store, was: Option<Deployment>, n: Deployment)
    ensures DispatchDeployment(store, was, n) ==
            if LookupFails(store, n) then MapFailed
            else Mapped(RolloutEvents(RolloutID(n), was, n) + DeployEvents(ChangeID(store, n), was, n))
  {
    RolloutPart(store, was, n);
    DeployPart(store, was, n);
  }

  lemma RolloutEventsValue(rid: string, was: Option<Deployment>, n: Deployment)
    ensures RolloutValues(RolloutEvents(rid, was, n))
            == if RolloutStatus(n) == PreviousStatus(was) then [] else [RolloutStatus(n)]
  {
    if RolloutStatus(n) != PreviousStatus(was) {
      var ev := BuildEvent(DEPLOY_ROLLOUT, rid, map[STATUS_ATTR := Words(RolloutStatus(n))]);
      assert RolloutValue(ev) == Some(RolloutStatus(n));
      ExtractSingle(RolloutValue, ev);
    }
  }

  lemma DispatchReportsStatus(store: Store, was: Option<Deployment>, n: Deployment)
    ensures RolloutValues(EventsOf(DispatchDeployment(store, was, n)))
            == if RolloutStatus(n) != PreviousStatus(was) && !LookupFails(store, n) then [RolloutStatus(n)] else []
  {
    DispatchShape(store, was, n);
    if !LookupFails(store, n) {
      var infra, deploy := RolloutEvents(RolloutID(n), was, n), DeployEvents(ChangeID(store, n), was, n);
      KindsDistinct();
      DeployEventsHaveDeployKinds(ChangeID(store, n), was, n);
      NoRolloutAmong(deploy);
      RolloutEventsValue(RolloutID(n), was, n);
      ExtractAppend(RolloutValue, infra, deploy);
    }
  }

  function Before(obs: seq<Observation>, i: nat): Option<Deployment>
    requires AllDeployments(obs) && i < |obs|
  {
    if i == 0 then None else Some(obs[i - 1].obj.d)
  }

  lemma StepIsDispatch(obs: seq<Observation>, i: nat)
    requires AllDeployments(obs) && i < |obs|
    ensures StepResult(obs, i) == DispatchDeployment(obs[i].store, Before(obs, i), obs[i].obj.d)
  {
    assert Previous(obs, i) == if i == 0 then None else Some(OfDeployment(obs[i - 1].obj.d));
  }

  lemma StepReports(obs: seq<Observation>, i: nat)
    requires AllDeployments(obs) && i < |obs|
    ensures ExtractEach(RolloutValue, StepEvents(obs))[i] ==
            if Changes(Statuses(obs), "", i) && !Failures(obs)[i] then [Statuses(obs)[i]] else []
  {
    hide StepResult, Dispatch;
    var store, was, n := obs[i].store, Before(obs, i), obs[i].obj.d;
    calc {
      ExtractEach(RolloutValue, StepEvents(obs))[i];
      RolloutValues(StepEvents(obs)[i]);
      RolloutValues(EventsOf(StepResult(obs, i)));
      { StepIsDispatch(obs, i); }
      RolloutValues(EventsOf(DispatchDeployment(store, was, n)));
      { DispatchReportsStatus(store, was, n); }
      if RolloutStatus(n) != PreviousStatus(was) && !LookupFails(store, n) then [RolloutStatus(n)] else [];
    }
    assert PreviousStatus(was) == if i == 0 then "" else Statuses(obs)[i - 1];
  }

  /** Over any run of Deployments, the emitted rollout statuses are the observed statuses without
      repetitions, starting from "", exactly when no status change coincides with a failed lookup. */
  lemma RolloutRunIff(obs: seq<Observation>)
    requires AllDeployments(obs)
    ensures RolloutValues(RunEvents(obs)) == Compress(Statuses(obs), "")
            <==> !LosesChange(Statuses(obs), "", Failures(obs))
  {
    var values := ExtractEach(RolloutValue, StepEvents(obs));
    forall i: nat | i < |obs|
      ensures values[i] == if Changes(Statuses(obs), "", i) && !Failures(obs)[i] then [Statuses(obs)[i]] else []
    {
      StepReports(obs, i);
    }
    assert ReportsChanges(values, Statuses(obs), "", Failures(obs));
    ReportedIsCompressedIff(RolloutValue, StepEvents(obs), Statuses(obs), "", Failures(obs));
    RunEventsConcat(obs);
  }

  /** The last emitted rollout status of a run that lost no change. */
  lemma LastRolloutIsLastStatus(obs: seq<Observation>)
    requires AllDeployments(obs) && !LosesChange(Statuses(obs), "", Failures(obs))
    ensures LastOr(RolloutValues(RunEvents(obs)), "") == LastOr(Statuses(obs), "")
  {
    RolloutRunIff(obs);
    CompressKeepsLast(Statuses(obs), "");
  }

  lemma DeleteResult(store: Store, d: Deployment)
    requires !LookupFails(store, d)
    ensures Dispatch(store, Some(OfDeployment(d)), None) ==
            Mapped(When(RolloutStatus(d) == "progressing", DEPLOY_CANCELLED, ChangeID(store, d), "DeletedMidRollout",
                        Lookup(d.annotations, REVISION)))
  {
    assert Dispatch(store, Some(OfDeployment(d)), None) == FromDeploymentDelete(store, d);
    assert FromDeploymentDelete(store, d).Mapped?;
    assert |"complete"| != |"progressing"| && |"failed"| != |"progressing"| && |"unknown"| != |"progressing"|;
  }

  /** Deleting the last observed object emits one DEPLOY_CANCELLED when the last emitted rollout
      status is "progressing", and nothing otherwise. */
  lemma DeleteCancelsIffProgressing(obs: seq<Observation>, store: Store)
    requires AllDeployments(obs) && obs != [] && !LosesChange(Statuses(obs), "", Failures(obs))
    requires !LookupFails(store, obs[|obs| - 1].obj.d)
    ensures var result := Dispatch(store, Some(obs[|obs| - 1].obj), None);
            && result.Mapped?
            && (LastOr(RolloutValues(RunEvents(obs)), "") == "progressing" ==>
                  |result.events| == 1 && result.events[0].kind == DEPLOY_CANCELLED)
            && (LastOr(RolloutValues(RunEvents(obs)), "") != "progressing" ==> result.events == [])
  {
    hide Dispatch, RunEvents, RolloutStatus, RolloutValues;
    LastRolloutIsLastStatus(obs);
    var d := obs[|obs| - 1].obj.d;
    assert LastOr(Statuses(obs), "") == RolloutStatus(d);
    DeleteResult(store, d);
  }

  // ----- Agreement between the detectors -----

  predicate Emits(events: seq<Event>, kind: string) {
    exists i :: 0 <= i < |events| && events[i].kind == kind
  }

  lemma EmitsAppend(a: seq<Event>, b: seq<Event>, kind: string)
    ensures Emits(a + b, kind) <==> Emits(a, kind) || Emits(b, kind)
  {
    if Emits(a, kind) {
      var i :| 0 <= i < |a| && a[i].kind == kind;
      assert (a + b)[i].kind == kind;
    } else if Emits(b, kind) {
      var i :| 0 <= i < |b| && b[i].kind == kind;
      assert (a + b)[|a| + i].kind == kind;
    }
  }

  lemma EmitsWhen(fires: bool, kind: string, id: string, reason: string, rev: string, k: string)
    ensures Emits(When(fires, kind, id, reason, rev), k) <==> fires && kind == k
  {
    if fires {
      assert When(fires, kind, id, reason, rev)[0].kind == kind;
    }
  }

  lemma DeployEmitsKind(id: string, was: Option<Deployment>, n: Deployment, k: string)
    requires !RolledBack(was, n)
    ensures Emits(DeployEvents(id, was, n), k) <==>
            || (k == DEPLOY_STARTED && IsDeployStarted(was, n, AnnotationOf(was, REVISION), Lookup(n.annotations, REVISION)))
            || (k == DEPLOY_SUCCEEDED && IsDeploySucceeded(was, n))
            || (k == DEPLOY_FAILED && IsDeployFailed(was, n))
            || (k == DEPLOY_CANCELLED && IsDeployCancelled(was, n))
  {
    var rev := Lookup(n.annotations, REVISION);
    var a := When(IsDeployStarted(was, n, AnnotationOf(was, REVISION), rev), DEPLOY_STARTED, id, "Started", rev);
    var b := When(IsDeploySucceeded(was, n), DEPLOY_SUCCEEDED, id, "Succeeded", rev);
    var c := When(IsDeployFailed(was, n), DEPLOY_FAILED, id, DEADLINE_EXCEEDED, rev);
    var d := When(IsDeployCancelled(was, n), DEPLOY_CANCELLED, id, "ScaleToZero", rev);
    EmitsAppend(a, b, k);
    EmitsAppend(a + b, c, k);
    EmitsAppend(a + b + c, d, k);
    EmitsWhen(IsDeployStarted(was, n, AnnotationOf(was, REVISION), rev), DEPLOY_STARTED, id, "Started", rev, k);
    EmitsWhen(IsDeploySucceeded(was, n), DEPLOY_SUCCEEDED, id, "Succeeded", rev, k);
    EmitsWhen(IsDeployFailed(was, n), DEPLOY_FAILED, id, DEADLINE_EXCEEDED, rev, k);
    EmitsWhen(IsDeployCancelled(was, n), DEPLOY_CANCELLED, id, "ScaleToZero", rev, k);
  }

  lemma RollbackEmitsOnly(id: string, was: Option<Deployment>, n: Deployment, k: string)
    requires RolledBack(was, n)
    ensures Emits(DeployEvents(id, was, n), k) <==> k == DEPLOY_ROLLED_BACK
  {
    hide RolledBack;
    EmitsWhen(true, DEPLOY_ROLLED_BACK, id, "RolledBack", Lookup(n.annotations, REVISION), k);
  }

  lemma RollbackIsAlone(id: string, was: Option<Deployment>, n: Deployment)
    ensures Emits(DeployEvents(id, was, n), DEPLOY_ROLLED_BACK) <==> RolledBack(was, n)
    ensures RolledBack(was, n) ==> |DeployEvents(id, was, n)| == 1
  {
    KindsDistinct();
    if RolledBack(was, n) {
      assert DeployEvents(id, was, n)[0].kind == DEPLOY_ROLLED_BACK;
    } else {
      DeployEmitsKind(id, was, n, DEPLOY_ROLLED_BACK);
    }
  }

  lemma DeployEmitsOnly(id: string, was: Option<Deployment>, n: Deployment)
    ensures Emits(DeployEvents(id, was, n), DEPLOY_FAILED) ==> IsDeployFailed(was, n)
    ensures Emits(DeployEvents(id, was, n), DEPLOY_SUCCEEDED) ==> IsDeploySucceeded(was, n)
  {
    KindsDistinct();
    if RolledBack(was, n) {
      assert forall i :: 0 <= i < |DeployEvents(id, was, n)| ==> DeployEvents(id, was, n)[i].kind == DEPLOY_ROLLED_BACK;
    } else {
      DeployEmitsKind(id, was, n, DEPLOY_FAILED);
      DeployEmitsKind(id, was, n, DEPLOY_SUCCEEDED);
    }
  }

  /** The failure detector of deployment.go and the status of infrastructure.go agree. */
  lemma FailedMeansStatusFailed(was: Option<Deployment>, n: Deployment)
    requires IsDeployFailed(was, n)
    ensures RolloutStatus(n) == "failed" && PreviousStatus(was) != "failed"
    ensures !IsDeploySucceeded(was, n)
  {
    assert NEW_RS_AVAILABLE[0] == 'N' && DEADLINE_EXCEEDED[0] == 'P';
  }

  predicate HadReason(was: Option<Deployment>, reason: string) {
    was.Some? && HasReason(Progressing(was.value), reason)
  }

  lemma FailedIsFailed(was: Option<Deployment>, n: Deployment)
    ensures IsDeployFailed(was, n) <==> RolloutStatus(n) == "failed" && !HadReason(was, DEADLINE_EXCEEDED)
    ensures PreviousStatus(was) == "failed" ==> HadReason(was, DEADLINE_EXCEEDED)
  {
    assert |"complete"| == 8 && |"progressing"| == 11 && |"failed"| == 6 && |"unknown"| == 7;
  }

  /** A failure is reported exactly on entering the status "failed", unless the change is a
      rollback or the deadline was given as the reason already under another status. */
  lemma FailureReportedIff(id: string, was: Option<Deployment>, n: Deployment)
    ensures Emits(DeployEvents(id, was, n), DEPLOY_FAILED) <==>
            && RolloutStatus(n) == "failed" && PreviousStatus(was) != "failed"
            && !RolledBack(was, n) && !HadReason(was, DEADLINE_EXCEEDED)
  {
    hide DeployEvents, RolledBack, Emits;
    KindsDistinct();
    FailedIsFailed(was, n);
    if RolledBack(was, n) {
      RollbackEmitsOnly(id, was, n, DEPLOY_FAILED);
    } else {
      DeployEmitsKind(id, was, n, DEPLOY_FAILED);
    }
  }

  predicate IsFailedRollout(ev: Event) {
    ev.kind == DEPLOY_ROLLOUT && ev.attributes == map[STATUS_ATTR := Words("failed")]
  }

  /** A DEPLOY_FAILED comes after a rollout event "failed". */
  predicate FailureFollowsRollout(es: seq<Event>) {
    forall j :: 0 <= j < |es| && es[j].kind == DEPLOY_FAILED ==> j > 0 && IsFailedRollout(es[0])
  }

  /** A DEPLOY_ROLLED_BACK is the only DEPLOY_* event. */
  predicate RollbackStandsAlone(es: seq<Event>) {
    forall i, j ::
      (0 <= i < |es| && 0 <= j < |es| && es[i].kind == DEPLOY_ROLLED_BACK && IsDeployKind(es[j].kind)) ==> i == j
  }

  lemma FailureFollows(rid: string, id: string, was: Option<Deployment>, n: Deployment)
    ensures FailureFollowsRollout(RolloutEvents(rid, was, n) + DeployEvents(id, was, n))
  {
    hide DeployEvents, IsDeployFailed, IsDeploySucceeded, RolloutStatus, PreviousStatus;
    KindsDistinct();
    DeployEmitsOnly(id, was, n);
    if IsDeployFailed(was, n) {
      FailedMeansStatusFailed(was, n);
    } else {
      EmitsAppend(RolloutEvents(rid, was, n), DeployEvents(id, was, n), DEPLOY_FAILED);
    }
  }

  lemma RollbackAlone(rid: string, id: string, was: Option<Deployment>, n: Deployment)
    ensures RollbackStandsAlone(RolloutEvents(rid, was, n) + DeployEvents(id, was, n))
  {
    hide DeployEvents, RolledBack, RolloutStatus, PreviousStatus;
    KindsDistinct();
    RollbackIsAlone(id, was, n);
    EmitsAppend(RolloutEvents(rid, was, n), DeployEvents(id, was, n), DEPLOY_ROLLED_BACK);
  }

  lemma NotBothVerdicts(rid: string, id: string, was: Option<Deployment>, n: Deployment)
    ensures var es := RolloutEvents(rid, was, n) + DeployEvents(id, was, n);
            !(Emits(es, DEPLOY_FAILED) && Emits(es, DEPLOY_SUCCEEDED))
  {
    hide DeployEvents, IsDeployFailed, IsDeploySucceeded, RolloutStatus, PreviousStatus;
    KindsDistinct();
    EmitsAppend(RolloutEvents(rid, was, n), DeployEvents(id, was, n), DEPLOY_FAILED);
    EmitsAppend(RolloutEvents(rid, was, n), DeployEvents(id, was, n), DEPLOY_SUCCEEDED);
    DeployEmitsOnly(id, was, n);
    if IsDeployFailed(was, n) {
      FailedMeansStatusFailed(was, n);
    }
  }

  /** In every Deployment dispatch: a DEPLOY_FAILED comes after a rollout event "failed" and never
      with a DEPLOY_SUCCEEDED; a DEPLOY_ROLLED_BACK is the only DEPLOY_* event. */
  lemma DispatchIsConsistent(store: Store, was: Option<Deployment>, n: Deployment)
    requires !LookupFails(store, n)
    ensures DispatchDeployment(store, was, n).Mapped?
    ensures var es := DispatchDeployment(store, was, n).events;
            && FailureFollowsRollout(es) && RollbackStandsAlone(es)
            && !(Emits(es, DEPLOY_FAILED) && Emits(es, DEPLOY_SUCCEEDED))
  {
    hide DispatchDeployment, RolloutEvents, DeployEvents, RollbackStandsAlone, FailureFollowsRollout, Emits;
    DispatchShape(store, was, n);
    FailureFollows(RolloutID(n), ChangeID(store, n), was, n);
    RollbackAlone(RolloutID(n), ChangeID(store, n), was, n);
    NotBothVerdicts(RolloutID(n), ChangeID(store, n), was, n);
  }

  predicate StepEmits(obs: seq<Observation>, i: nat, kind: string)
    requires i < |obs|
  {
    Emits(EventsOf(StepResult(obs, i)), kind)
  }

  predicate ReasonAt(obs: seq<Observation>, i: nat, reason: string)
    requires AllDeployments(obs) && i < |obs|
  {
    HasReason(Progressing(obs[i].obj.d), reason)
  }

  function TerminalReason(kind: string): string {
    if kind == DEPLOY_SUCCEEDED then NEW_RS_AVAILABLE else DEADLINE_EXCEEDED
  }

  lemma NothingEmitted(kind: string)
    ensures !Emits([], kind)
  {
  }

  lemma RolloutEmitsOnly(rid: string, was: Option<Deployment>, n: Deployment, kind: string)
    ensures Emits(RolloutEvents(rid, was, n), kind) ==> kind == DEPLOY_ROLLOUT
  {
    hide RolloutStatus, PreviousStatus;
  }

  /** A step that emits one of the two terminal kinds saw the matching reason appear. */
  lemma TerminalStep(obs: seq<Observation>, i: nat, kind: string)
    requires AllDeployments(obs) && i < |obs| && StepEmits(obs, i, kind) && kind in {DEPLOY_SUCCEEDED, DEPLOY_FAILED}
    ensures ReasonAt(obs, i, TerminalReason(kind))
    ensures i > 0 ==> !ReasonAt(obs, i - 1, TerminalReason(kind))
  {
    hide StepResult, DispatchDeployment, DeployEvents, RolloutEvents, Emits;
    var store, was, n := obs[i].store, Before(obs, i), obs[i].obj.d;
    StepIsDispatch(obs, i);
    DispatchShape(store, was, n);
    KindsDistinct();
    NothingEmitted(kind);
    RolloutEmitsOnly(RolloutID(n), was, n, kind);
    EmitsAppend(RolloutEvents(RolloutID(n), was, n), DeployEvents(ChangeID(store, n), was, n), kind);
    DeployEmitsOnly(ChangeID(store, n), was, n);
  }

  /** Between two notifications that emit the same terminal kind lies an observation whose
      Progressing reason is a different one. */
  lemma TerminalStepsAreSeparated(obs: seq<Observation>, i: nat, j: nat, kind: string) returns (k: nat)
    requires AllDeployments(obs) && i < j < |obs| && kind in {DEPLOY_SUCCEEDED, DEPLOY_FAILED}
    requires StepEmits(obs, i, kind) && StepEmits(obs, j, kind)
    ensures i < k < j && !ReasonAt(obs, k, TerminalReason(kind))
  {
    hide StepResult, StepEmits, ReasonAt;
    TerminalStep(obs, i, kind);
    TerminalStep(obs, j, kind);
    k := j - 1;
  }

  lemma CountWhen(fires: bool, kind: string, id: string, reason: string, rev: string, k: string)
    ensures CountWhere(OfKind(k), When(fires, kind, id, reason, rev)) == if fires && kind == k then 1 else 0
  {
    if fires {
      CountSingle(OfKind(k), When(fires, kind, id, reason, rev)[0]);
    }
  }

  lemma DeployKindOnce(id: string, was: Option<Deployment>, n: Deployment, k: string)
    ensures CountWhere(OfKind(k), DeployEvents(id, was, n)) <= if IsDeployKind(k) then 1 else 0
  {
    hide RolledBack, IsDeployStarted, IsDeploySucceeded, IsDeployFailed, IsDeployCancelled, When, CountWhere;
    var rev, p := Lookup(n.annotations, REVISION), OfKind(k);
    var started := IsDeployStarted(was, n, AnnotationOf(was, REVISION), rev);
    var a := When(started, DEPLOY_STARTED, id, "Started", rev);
    var b := When(IsDeploySucceeded(was, n), DEPLOY_SUCCEEDED, id, "Succeeded", rev);
    var c := When(IsDeployFailed(was, n), DEPLOY_FAILED, id, DEADLINE_EXCEEDED, rev);
    var d := When(IsDeployCancelled(was, n), DEPLOY_CANCELLED, id, "ScaleToZero", rev);
    KindsDistinct();
    CountWhen(true, DEPLOY_ROLLED_BACK, id, "RolledBack", rev, k);
    CountWhen(started, DEPLOY_STARTED, id, "Started", rev, k);
    CountWhen(IsDeploySucceeded(was, n), DEPLOY_SUCCEEDED, id, "Succeeded", rev, k);
    CountWhen(IsDeployFailed(was, n), DEPLOY_FAILED, id, DEADLINE_EXCEEDED, rev, k);
    CountWhen(IsDeployCancelled(was, n), DEPLOY_CANCELLED, id, "ScaleToZero", rev, k);
    CountWhereAppend(p, a, b);
    CountWhereAppend(p, a + b, c);
    CountWhereAppend(p, a + b + c, d);
  }

  lemma RolloutKindOnce(rid: string, was: Option<Deployment>, n: Deployment, k: string)
    ensures CountWhere(OfKind(k), RolloutEvents(rid, was, n)) <= if k == DEPLOY_ROLLOUT then 1 else 0
  {
    hide RolloutStatus, PreviousStatus;
    if RolloutEvents(rid, was, n) != [] {
      CountSingle(OfKind(k), RolloutEvents(rid, was, n)[0]);
    }
  }

  /** A Deployment dispatch emits each kind at most once. */
  lemma DispatchEmitsKindOnce(store: Store, was: Option<Deployment>, n: Deployment, k: string)
    ensures CountWhere(OfKind(k), EventsOf(DispatchDeployment(store, was, n))) <= 1
  {
    hide DispatchDeployment, RolloutEvents, DeployEvents, CountWhere;
    KindsDistinct();
    DispatchShape(store, was, n);
    RolloutKindOnce(RolloutID(n), was, n, k);
    DeployKindOnce(ChangeID(store, n), was, n, k);
    CountWhereAppend(OfKind(k), RolloutEvents(RolloutID(n), was, n), DeployEvents(ChangeID(store, n), was, n));
    NoneCounted(OfKind(k));
  }

  lemma EmitsAt(events: seq<Event>, i: nat)
    requires i < |events|
    ensures Emits(events, events[i].kind)
  {
  }

  lemma StepEmitsOnce(obs: seq<Observation>, a: nat, x: nat, y: nat)
    requires AllDeployments(obs) && a < |obs| && x < y < |EventsOf(StepResult(obs, a))|
    ensures EventsOf(StepResult(obs, a))[x].kind != EventsOf(StepResult(obs, a))[y].kind
  {
    hide StepResult, DispatchDeployment;
    var events := EventsOf(StepResult(obs, a));
    if events[x].kind == events[y].kind {
      StepIsDispatch(obs, a);
      DispatchEmitsKindOnce(obs[a].store, Before(obs, a), obs[a].obj.d, events[x].kind);
      TwoMatchesCount(OfKind(events[x].kind), events, x, y);
    }
  }

  /** Two DEPLOY_SUCCEEDED, or two DEPLOY_FAILED, among the events of a run come from different
      notifications, with an observation between them whose Progressing reason is another one. */
  lemma TerminalEventsAreSeparated(obs: seq<Observation>, i: nat, j: nat, kind: string)
    returns (a: nat, k: nat, b: nat)
    requires AllDeployments(obs) && kind in {DEPLOY_SUCCEEDED, DEPLOY_FAILED}
    requires i < j < |RunEvents(obs)| && RunEvents(obs)[i].kind == RunEvents(obs)[j].kind == kind
    ensures EmittedAt(obs, i, a) && EmittedAt(obs, j, b)
    ensures a < k < b && !ReasonAt(obs, k, TerminalReason(kind))
  {
    hide RunEvents, StepResult, ReasonAt, Emits;
    a := EventHasStep(obs, i);
    b := EventHasStep(obs, j);
    if b < a {
      RunEventsGrow(obs, b + 1, a);
    } else if a == b {
      StepEmitsOnce(obs, a, i - |RunEvents(obs[..a])|, j - |RunEvents(obs[..a])|);
    } else {
      EmitsAt(EventsOf(StepResult(obs, a)), i - |RunEvents(obs[..a])|);
      EmitsAt(EventsOf(StepResult(obs, b)), j - |RunEvents(obs[..b])|);
      k := TerminalStepsAreSeparated(obs, a, b, kind);
    }
  }

  // ----- Failures over a run -----

  lemma EmitsJust(ev: Event, kind: string)
    ensures Emits([ev], kind) <==> ev.kind == kind
  {
    assert [ev][0] == ev;
  }

  lemma {:induction false} EmitsCount(events: seq<Event>, kind: string)
    ensures Emits(events, kind) <==> CountWhere(OfKind(kind), events) > 0
  {
    if events == [] {
    } else {
      var n := |events| - 1;
      EmitsCount(events[..n], kind);
      EmitsAppend(events[..n], [events[n]], kind);
      assert events == events[..n] + [events[n]];
      EmitsJust(events[n], kind);
    }
  }

  /** The observations that have the status "failed". */
  function FailedFlags(obs: seq<Observation>): seq<bool>
    requires AllDeployments(obs)
  {
    seq(|obs|, i requires 0 <= i < |obs| => RolloutStatus(obs[i].obj.d) == "failed")
  }

  /** The notifications that cannot report a failure: the lookup fails, the change is a rollback,
      or the reason was there before. */
  function FailureMuted(obs: seq<Observation>): seq<bool>
    requires AllDeployments(obs)
  {
    seq(|obs|, i requires 0 <= i < |obs| =>
      || LookupFails(obs[i].store, obs[i].obj.d) || RolledBack(Before(obs, i), obs[i].obj.d)
      || HadReason(Before(obs, i), DEADLINE_EXCEEDED))
  }

  lemma FailureStepCount(obs: seq<Observation>, i: nat)
    requires AllDeployments(obs) && i < |obs|
    ensures CountWhere(OfKind(DEPLOY_FAILED), StepEvents(obs)[i])
            == if Rising(FailedFlags(obs))[i] && !FailureMuted(obs)[i] then 1 else 0
  {
    hide StepResult, DispatchDeployment, DeployEvents, RolloutEvents, Emits, RolledBack, RolloutStatus, HadReason;
    hide CountWhere;
    var store, was, n := obs[i].store, Before(obs, i), obs[i].obj.d;
    StepIsDispatch(obs, i);
    DispatchShape(store, was, n);
    DispatchEmitsKindOnce(store, was, n, DEPLOY_FAILED);
    EmitsCount(EventsOf(StepResult(obs, i)), DEPLOY_FAILED);
    NothingEmitted(DEPLOY_FAILED);
    KindsDistinct();
    RolloutEmitsOnly(RolloutID(n), was, n, DEPLOY_FAILED);
    EmitsAppend(RolloutEvents(RolloutID(n), was, n), DeployEvents(ChangeID(store, n), was, n), DEPLOY_FAILED);
    FailureReportedIff(ChangeID(store, n), was, n);
  }

  /** Over any run of Deployments, the DEPLOY_FAILED number the entries into the status "failed"
      exactly when none of them is muted. */
  lemma FailuresCountIff(obs: seq<Observation>)
    requires AllDeployments(obs)
    ensures CountWhere(OfKind(DEPLOY_FAILED), RunEvents(obs)) == CountTrue(Rising(FailedFlags(obs)))
            <==> !LosesMark(Rising(FailedFlags(obs)), FailureMuted(obs))
  {
    hide StepResult, RunEvents, RolloutStatus, RolledBack;
    RunEventsConcat(obs);
    forall i: nat | i < |obs|
      ensures CountWhere(OfKind(DEPLOY_FAILED), StepEvents(obs)[i])
              == if Rising(FailedFlags(obs))[i] && !FailureMuted(obs)[i] then 1 else 0
    {
      FailureStepCount(obs, i);
    }
    CountsMarksIff(StepEvents(obs), Rising(FailedFlags(obs)), FailureMuted(obs), OfKind(DEPLOY_FAILED));
  }

  // ----- Successes -----

  /** The first Progressing condition has just come to give the reason NewReplicaSetAvailable; an
      added Deployment does not count. */
  ghost function Completions(obs: seq<Observation>): seq<bool>
    requires AllDeployments(obs)
  {
    seq(|obs|, i requires 0 <= i < |obs| =>
      && i > 0 && ReasonOf(obs[i].obj.d.conditions, "Progressing", "NewReplicaSetAvailable")
      && !ReasonOf(obs[i - 1].obj.d.conditions, "Progressing", "NewReplicaSetAvailable"))
  }

  /** The notifications that cannot report a success: the lookup fails, the change is a rollback,
      the Deployment is not available, or a wanted replica is not updated or not ready. */
  ghost function SuccessMuted(obs: seq<Observation>): seq<bool>
    requires AllDeployments(obs)
  {
    seq(|obs|, i requires 0 <= i < |obs| =>
      var d := obs[i].obj.d;
      var wanted := if d.replicas.None? then 1 else d.replicas.value;
      || LookupFails(obs[i].store, d) || RolledBack(Before(obs, i), d)
      || !StatusOf(d.conditions, "Available", "True") || d.updatedReplicas != wanted || d.readyReplicas != wanted)
  }

  lemma SuccessDetected(obs: seq<Observation>, i: nat)
    requires AllDeployments(obs) && i < |obs|
    ensures Completions(obs)[i] && !SuccessMuted(obs)[i] <==>
            && !LookupFails(obs[i].store, obs[i].obj.d) && !RolledBack(Before(obs, i), obs[i].obj.d)
            && IsDeploySucceeded(Before(obs, i), obs[i].obj.d)
  {
    hide RolledBack, LookupFails, ReasonOf, StatusOf, FindCondition;
    FindConditionMeans(obs[i].obj.d.conditions, "Progressing");
    FindConditionMeans(obs[i].obj.d.conditions, "Available");
    if i > 0 {
      FindConditionMeans(obs[i - 1].obj.d.conditions, "Progressing");
    }
  }

  lemma SuccessStepCount(obs: seq<Observation>, i: nat)
    requires AllDeployments(obs) && i < |obs|
    ensures CountWhere(OfKind(DEPLOY_SUCCEEDED), StepEvents(obs)[i])
            == if Completions(obs)[i] && !SuccessMuted(obs)[i] then 1 else 0
  {
    hide StepResult, DispatchDeployment, DeployEvents, RolloutEvents, Emits, RolledBack, IsDeploySucceeded, CountWhere;
    hide LookupFails;
    var store, was, n := obs[i].store, Before(obs, i), obs[i].obj.d;
    SuccessDetected(obs, i);
    StepIsDispatch(obs, i);
    DispatchShape(store, was, n);
    DispatchEmitsKindOnce(store, was, n, DEPLOY_SUCCEEDED);
    EmitsCount(EventsOf(StepResult(obs, i)), DEPLOY_SUCCEEDED);
    NothingEmitted(DEPLOY_SUCCEEDED);
    KindsDistinct();
    RolloutEmitsOnly(RolloutID(n), was, n, DEPLOY_SUCCEEDED);
    EmitsAppend(RolloutEvents(RolloutID(n), was, n), DeployEvents(ChangeID(store, n), was, n), DEPLOY_SUCCEEDED);
    if RolledBack(was, n) {
      RollbackEmitsOnly(ChangeID(store, n), was, n, DEPLOY_SUCCEEDED);
    } else {
      DeployEmitsKind(ChangeID(store, n), was, n, DEPLOY_SUCCEEDED);
    }
  }

  /** Over any run of Deployments, the DEPLOY_SUCCEEDED number the completions, and never exceed
      them, exactly when none of them is muted. */
  lemma SuccessesCountIff(obs: seq<Observation>)
    requires AllDeployments(obs)
    ensures CountWhere(OfKind(DEPLOY_SUCCEEDED), RunEvents(obs)) <= CountTrue(Completions(obs))
    ensures CountWhere(OfKind(DEPLOY_SUCCEEDED), RunEvents(obs)) == CountTrue(Completions(obs))
            <==> !LosesMark(Completions(obs), SuccessMuted(obs))
  {
    hide StepResult, RunEvents, RolledBack, LookupFails, ReasonOf, StatusOf;
    RunEventsConcat(obs);
    forall i: nat | i < |obs|
      ensures CountWhere(OfKind(DEPLOY_SUCCEEDED), StepEvents(obs)[i])
              == if Completions(obs)[i] && !SuccessMuted(obs)[i] then 1 else 0
    {
      SuccessStepCount(obs, i);
    }
    CountsMarksIff(StepEvents(obs), Completions(obs), SuccessMuted(obs), OfKind(DEPLOY_SUCCEEDED));
  }

  lemma SuccessStep(obs: seq<Observation>, i: nat)
    requires AllDeployments(obs) && 0 < i < |obs| && !LookupFails(obs[i].store, obs[i].obj.d)
    requires IsDeploySucceeded(Before(obs, i), obs[i].obj.d) && !RolledBack(Before(obs, i), obs[i].obj.d)
    ensures StepEmits(obs, i, DEPLOY_SUCCEEDED)
  {
    hide IsDeploySucceeded, RolledBack, DeployEvents, RolloutEvents, Dispatch;
    var store, was, n := obs[i].store, Before(obs, i), obs[i].obj.d;
    StepIsDispatch(obs, i);
    DispatchShape(store, was, n);
    DeployEmitsKind(ChangeID(store, n), was, n, DEPLOY_SUCCEEDED);
    EmitsAppend(RolloutEvents(RolloutID(n), was, n), DeployEvents(ChangeID(store, n), was, n), DEPLOY_SUCCEEDED);
  }

  /** Successes do repeat, even without a new revision: the Progressing reason only has to leave
      and come back. */
  lemma SuccessCanRepeat()
    ensures var done := Deployment("prod", "web", map[], Some(1),
                                   [Condition(AVAILABLE, TRUE, ""), Condition(PROGRESSING, TRUE, NEW_RS_AVAILABLE)], 1, 1);
            var busy := done.(conditions := [Condition(AVAILABLE, TRUE, "")]);
            var obs := [Observation(map[], OfDeployment(busy)), Observation(map[], OfDeployment(done)),
                        Observation(map[], OfDeployment(busy)), Observation(map[], OfDeployment(done))];
            StepEmits(obs, 1, DEPLOY_SUCCEEDED) && StepEmits(obs, 3, DEPLOY_SUCCEEDED)
  {
    hide StepEmits;
    var done := Deployment("prod", "web", map[], Some(1),
                           [Condition(AVAILABLE, TRUE, ""), Condition(PROGRESSING, TRUE, NEW_RS_AVAILABLE)], 1, 1);
    var busy := done.(conditions := [Condition(AVAILABLE, TRUE, "")]);
    var obs := [Observation(map[], OfDeployment(busy)), Observation(map[], OfDeployment(done)),
                Observation(map[], OfDeployment(busy)), Observation(map[], OfDeployment(done))];
    assert AllDeployments(obs);
    assert AVAILABLE != PROGRESSING by { assert |AVAILABLE| != |PROGRESSING|; }
    assert busy.conditions[1..] == [] && FindCondition(busy.conditions[1..], PROGRESSING) == None;
    assert Progressing(busy) == None;
    assert done.conditions[1..] == [Condition(PROGRESSING, TRUE, NEW_RS_AVAILABLE)];
    assert FindCondition(done.conditions[1..], PROGRESSING) == Some(Condition(PROGRESSING, TRUE, NEW_RS_AVAILABLE));
    assert Progressing(done) == Some(Condition(PROGRESSING, TRUE, NEW_RS_AVAILABLE));
    assert IsDeploySucceeded(Some(busy), done);
    assert !RolledBack(Some(busy), done);
    assert !LookupFails(map[], done);
    SuccessStep(obs, 1);
    SuccessStep(obs, 3);
  }

  predicate OneServiceID(events: seq<Event>) {
    forall i, j :: 0 <= i < |events| && 0 <= j < |events| ==> events[i].serviceID == events[j].serviceID
  }

  predicate AllFrom(events: seq<Event>, id: string) {
    forall i :: 0 <= i < |events| ==> events[i].serviceID == id
  }

  lemma PartsNameIDs(rid: string, id: string, was: Option<Deployment>, n: Deployment)
    ensures AllFrom(RolloutEvents(rid, was, n), rid) && AllFrom(DeployEvents(id, was, n), id)
  {
    hide RolledBack, IsDeployStarted, IsDeploySucceeded, IsDeployFailed, IsDeployCancelled, RevisionAttrs;
    hide RolloutStatus, PreviousStatus;
  }

  lemma OneServiceIDIff(a: seq<Event>, x: string, b: seq<Event>, y: string)
    requires AllFrom(a, x) && AllFrom(b, y)
    ensures OneServiceID(a + b) <==> a == [] || b == [] || x == y
  {
    if a != [] && b != [] {
      assert (a + b)[0] == a[0] && (a + b)[|a|] == b[0];
    }
  }

  /** The service id a Deployment's annotations call for. */
  function NamedID(annotations: map<string, string>, name: string): string {
    ResolveWorkload(DEPLOYMENT, name, "", annotations).serviceID
  }

  predicate NoDetectorFires(was: Option<Deployment>, n: Deployment) {
    && !RolledBack(was, n)
    && !IsDeployStarted(was, n, AnnotationOf(was, REVISION), Lookup(n.annotations, REVISION))
    && !IsDeploySucceeded(was, n) && !IsDeployFailed(was, n) && !IsDeployCancelled(was, n)
  }

  lemma NoDeployEvents(id: string, was: Option<Deployment>, n: Deployment)
    ensures DeployEvents(id, was, n) == [] <==> NoDetectorFires(was, n)
  {
    hide RolledBack, IsDeployStarted, IsDeploySucceeded, IsDeployFailed, IsDeployCancelled, RevisionAttrs;
  }

  lemma IdsFromAnnotations(store: Store, n: Deployment)
    requires Coherent(store) && n.name != "" && !LookupFails(store, n)
    ensures RolloutID(n) == NamedID(n.annotations, n.name)
    ensures ChangeID(store, n) == match Get(store, DEPLOYMENT, n.namespace, n.name)
                                  case Found(o) => NamedID(o.annotations, n.name)
                                  case _ => NamedID(map[], n.name)
  {
  }

  /** The rollout event names the service by the observed object, the DEPLOY_* events by the
      cached one. All events of a dispatch carry one service id exactly when one of the two parts
      is empty, or the cached annotations, none when nothing is cached, call for the same id as
      the observed ones. */
  lemma DispatchIdsAgreeIff(store: Store, was: Option<Deployment>, n: Deployment)
    requires Coherent(store) && n.name != "" && !LookupFails(store, n)
    ensures DispatchDeployment(store, was, n).Mapped?
    ensures var events := DispatchDeployment(store, was, n).events;
            var cached := match Get(store, DEPLOYMENT, n.namespace, n.name)
                          case Found(o) => o.annotations
                          case _ => map[];
            OneServiceID(events) <==>
            || RolloutStatus(n) == PreviousStatus(was)
            || NoDetectorFires(was, n)
            || NamedID(cached, n.name) == NamedID(n.annotations, n.name)
  {
    var a, b := RolloutEvents(RolloutID(n), was, n), DeployEvents(ChangeID(store, n), was, n);
    IdsFromAnnotations(store, n);
    DispatchShape(store, was, n);
    PartsNameIDs(RolloutID(n), ChangeID(store, n), was, n);
    OneServiceIDIff(a, RolloutID(n), b, ChangeID(store, n));
    NoDeployEvents(ChangeID(store, n), was, n);
    hide DispatchDeployment, DeployEvents, NoDetectorFires, ChangeID, RolloutID, OneServiceID, AllFrom;
    assert a == [] <==> RolloutStatus(n) == PreviousStatus(was);
  }

  /** An annotated Deployment whose failure is observed before the cache holds it: the rollout
      event and the DEPLOY_FAILED of one dispatch name two services. */
  lemma TwoIDsInOneDispatch()
    ensures var n := Deployment("prod", "web", map[SERVICE_ID_ANNOTATION := "shop"], Some(1),
                                [Condition(PROGRESSING, FALSE, DEADLINE_EXCEEDED)], 0, 0);
            DispatchDeployment(map[], None, n).Mapped? && !OneServiceID(DispatchDeployment(map[], None, n).events)
  {
    var n := Deployment("prod", "web", map[SERVICE_ID_ANNOTATION := "shop"], Some(1),
                        [Condition(PROGRESSING, FALSE, DEADLINE_EXCEEDED)], 0, 0);
    assert RolloutStatus(n) == "failed" && IsDeployFailed(None, n);
    assert !NoDetectorFires(None, n);
    assert NamedID(map[], "web") == "web" && NamedID(n.annotations, "web") == "shop";
    assert "web"[0] == 'w' && "shop"[0] == 's';
    DispatchIdsAgreeIff(map[], None, n);
  }

  // ----- Scaling to zero -----

  predicate ScaledToZero(was: Deployment, n: Deployment) {
    SpecReplicas(was.replicas) != 0 && SpecReplicas(n.replicas) == 0
  }

  /** The documented rule: scaled to zero during an active rollout, where "active" is what the
      delete path calls it. */
  predicate DocumentedCancel(was: Deployment, n: Deployment) {
    ScaledToZero(was, n) && RolloutStatus(was) == "progressing"
  }

  lemma TrueStatusMeans(d: Deployment)
    ensures HasStatus(Progressing(d), TRUE) <==> RolloutStatus(d) == "progressing" || RolloutStatus(d) == "complete"
    ensures !(RolloutStatus(d) == "progressing" && RolloutStatus(d) == "complete")
  {
    assert TRUE[0] == 'T' && FALSE[0] == 'F';
    assert |"complete"| == 8 && |"progressing"| == 11 && |"failed"| == 6 && |"unknown"| == 7;
  }

  /** The code follows the documented rule except in two cases: a completed rollout scaled to
      zero is reported although the rule is silent, and a progressing one is not reported when
      the same change is a rollback. */
  lemma ScaleToZeroMatchesRuleIff(id: string, was: Deployment, n: Deployment)
    ensures (Emits(DeployEvents(id, Some(was), n), DEPLOY_CANCELLED) <==> DocumentedCancel(was, n))
            <==> !(&& ScaledToZero(was, n)
                   && RolloutStatus(was) == if RolledBack(Some(was), n) then "progressing" else "complete")
  {
    hide DeployEvents, RolledBack, Emits;
    KindsDistinct();
    TrueStatusMeans(was);
    if RolledBack(Some(was), n) {
      RollbackEmitsOnly(id, Some(was), n, DEPLOY_CANCELLED);
    } else {
      DeployEmitsKind(id, Some(was), n, DEPLOY_CANCELLED);
    }
  }

  lemma RollbackCauseCounts(was: Option<Deployment>, n: Deployment)
    requires Lookup(n.annotations, CHANGE_CAUSE) == "rollback" && AnnotationOf(was, CHANGE_CAUSE) != "rollback"
    ensures RolledBack(was, n)
  {
    assert ToLower("rollback") == "rollback";
    assert HasPrefix("rollback"[0..], "rollback");
  }

  /** A progressing Deployment scaled to zero by a rollback: not reported as cancelled. */
  lemma RolledBackScaleToZeroIsSilent()
    ensures var was := Deployment("prod", "web", map[], Some(3), [Condition(PROGRESSING, TRUE, "")], 1, 1);
            var n := was.(replicas := Some(0), annotations := map[CHANGE_CAUSE := "rollback"]);
            DocumentedCancel(was, n) && !Emits(DeployEvents("web", Some(was), n), DEPLOY_CANCELLED)
  {
    var was := Deployment("prod", "web", map[], Some(3), [Condition(PROGRESSING, TRUE, "")], 1, 1);
    var n := was.(replicas := Some(0), annotations := map[CHANGE_CAUSE := "rollback"]);
    KindsDistinct();
    RollbackCauseCounts(Some(was), n);
    RollbackEmitsOnly("web", Some(was), n, DEPLOY_CANCELLED);
  }

  /** A deletion is reported as documented, exactly while Progressing is True, except for a
      completed rollout, which is silent, and for a failed lookup, which loses the report. */
  lemma DeleteMatchesRuleIff(store: Store, d: Deployment)
    ensures (EventsOf(Dispatch(store, Some(OfDeployment(d)), None)) != [] <==> HasStatus(Progressing(d), TRUE))
            <==> RolloutStatus(d) != "complete" && !(RolloutStatus(d) == "progressing" && LookupFails(store, d))
  {
    TrueStatusMeans(d);
    if LookupFails(store, d) {
      assert FromDeploymentDelete(store, d) == if RolloutStatus(d) == "progressing" then MapFailed else Mapped([]);
    } else {
      DeleteResult(store, d);
    }
  }

  /** Deletions of anything else are silent. */
  lemma OnlyDeploymentsReportDeletion(store: Store, x: Watched)
    requires !x.OfDeployment?
    ensures Dispatch(store, Some(x), None) == Mapped([])
  {
  }

  // ----- The start of a rollout -----

  /** The documented rule: a new revision annotation and the reason NewReplicaSetCreated. */
  predicate DocumentedStart(was: Option<Deployment>, n: Deployment) {
    && Lookup(n.annotations, REVISION) != ""
    && Lookup(n.annotations, REVISION) != AnnotationOf(was, REVISION)
    && HasReason(Progressing(n), NEW_RS_CREATED)
  }

  /** What annotations and Progressing conditions must look like for code and rule to agree. */
  predicate StartFollowsRule(was: Option<Deployment>, n: Deployment) {
    var oldRev, newRev, p := AnnotationOf(was, REVISION), Lookup(n.annotations, REVISION), Progressing(n);
    var created := HasReason(p, NEW_RS_CREATED);
    if newRev == "" || p.None? then true
    else if RolledBack(was, n) then newRev == oldRev || !created
    else if was.None? then created ==> HasStatus(p, TRUE)
    else if newRev != oldRev then created
    else created && HasStatus(p, TRUE) ==> HasReason(Progressing(was.value), NEW_RS_CREATED)
  }

  /** DEPLOY_STARTED is emitted as documented exactly when: without a rollback, a new revision
      comes with the documented reason, the reason does not appear under an old revision, and an
      added Deployment with it is progressing; with a rollback, the rule is silent too. */
  lemma StartMatchesRuleIff(id: string, was: Option<Deployment>, n: Deployment)
    ensures (Emits(DeployEvents(id, was, n), DEPLOY_STARTED) <==> DocumentedStart(was, n))
            <==> StartFollowsRule(was, n)
  {
    hide DeployEvents, RolledBack, Emits;
    KindsDistinct();
    if RolledBack(was, n) {
      RollbackEmitsOnly(id, was, n, DEPLOY_STARTED);
    } else {
      DeployEmitsKind(id, was, n, DEPLOY_STARTED);
    }
  }

  lemma DigitRevision(c: char)
    requires '0' <= c <= '9'
    ensures ParseRevision([c]) == Some(c as int - '0' as int)
  {
    assert [c][1..] == [] && [c][..1] == [c] && [c][..0] == [];
    assert DigitsPrefix([c][1..]) == 0 && DigitsPrefix([c]) == 1;
    assert DigitsValue([c][..0]) == 0 && DigitsValue([c]) == c as int - '0' as int;
    assert SkipSpaces([c]) == [c];
  }

  lemma TwoIsNotLessThanOne()
    ensures !RevisionLess("2", "1")
  {
    DigitRevision('1');
    DigitRevision('2');
  }

  /** A revision change on a Deployment whose rollout is already complete is reported as a start,
      and so is the reason appearing without a revision change; the rule covers neither. */
  lemma StartOutsideRule()
    ensures var done := Deployment("prod", "web", map[REVISION := "1"], Some(1),
                                   [Condition(PROGRESSING, TRUE, NEW_RS_AVAILABLE)], 1, 1);
            var bumped := done.(annotations := map[REVISION := "2"]);
            var created := done.(conditions := [Condition(PROGRESSING, TRUE, NEW_RS_CREATED)]);
            && Emits(DeployEvents("web", Some(done), bumped), DEPLOY_STARTED) && !DocumentedStart(Some(done), bumped)
            && Emits(DeployEvents("web", Some(done), created), DEPLOY_STARTED) && !DocumentedStart(Some(done), created)
  {
    var done := Deployment("prod", "web", map[REVISION := "1"], Some(1),
                           [Condition(PROGRESSING, TRUE, NEW_RS_AVAILABLE)], 1, 1);
    var bumped := done.(annotations := map[REVISION := "2"]);
    var created := done.(conditions := [Condition(PROGRESSING, TRUE, NEW_RS_CREATED)]);
    KindsDistinct();
    assert NEW_RS_CREATED != NEW_RS_AVAILABLE by { assert |NEW_RS_CREATED| != |NEW_RS_AVAILABLE|; }
    assert Lookup(bumped.annotations, CHANGE_CAUSE) == "" && Lookup(created.annotations, CHANGE_CAUSE) == "" by {
      assert REVISION[0] == 'd' && CHANGE_CAUSE[0] == 'k';
    }
    RevisionLessIrreflexive("1");
    TwoIsNotLessThanOne();
    DeployEmitsKind("web", Some(done), bumped, DEPLOY_STARTED);
    DeployEmitsKind("web", Some(done), created, DEPLOY_STARTED);
  }

  /** A stable Deployment scaled to zero: reported as cancelled, although deleting it is not. */
  lemma StableScaleToZeroIsReported(store: Store)
    ensures var was := Deployment("prod", "web", map[], Some(3), [Condition(PROGRESSING, TRUE, NEW_RS_AVAILABLE)], 3, 3);
            && Emits(DeployEvents("web", Some(was), was.(replicas := Some(0))), DEPLOY_CANCELLED)
            && FromDeploymentDelete(store, was) == Mapped([])
  {
    var was := Deployment("prod", "web", map[], Some(3), [Condition(PROGRESSING, TRUE, NEW_RS_AVAILABLE)], 3, 3);
    KindsDistinct();
    DeployEmitsKind("web", Some(was), was.(replicas := Some(0)), DEPLOY_CANCELLED);
  }
}
