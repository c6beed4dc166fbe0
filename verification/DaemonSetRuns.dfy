/** Over a run of DaemonSet notifications, when starts and successes pair up. */
module DaemonSetRuns {
  import opened Sequences
  import opened Wire
  import opened Identity
  import opened Mapper
  import opened Runs
  import opened Pairing

  predicate AllDaemonSets(obs: seq<Observation>) {
    forall i :: 0 <= i < |obs| ==> obs[i].obj.OfDaemonSet?
  }

  function Before(obs: seq<Observation>, i: nat): Option<DaemonSet>
    requires AllDaemonSets(obs) && i < |obs|
  {
    if i == 0 then None else Some(obs[i - 1].obj.ds)
  }

  /** The resolver's read of the observed DaemonSet fails, which loses the notification. */
  predicate Lost(obs: seq<Observation>, i: nat)
    requires AllDaemonSets(obs) && i < |obs|
  {
    var d := obs[i].obj.ds;
    d.name != "" && Get(obs[i].store, DAEMON_SET, d.namespace, d.name) == FetchError
  }

  predicate Starts(obs: seq<Observation>, i: nat)
    requires AllDaemonSets(obs) && i < |obs|
  {
    !Lost(obs, i) && DaemonSetStarted(Before(obs, i), obs[i].obj.ds)
  }

  predicate Succeeds(obs: seq<Observation>, i: nat)
    requires AllDaemonSets(obs) && i < |obs|
  {
    !Lost(obs, i) && DaemonSetSucceeded(Before(obs, i), obs[i].obj.ds)
  }

  /** A start has been reported since the last reported success. */
  predicate UnderWay(obs: seq<Observation>)
    requires AllDaemonSets(obs)
  {
    if obs == [] then false
    else
      var n := |obs| - 1;
      Starts(obs, n) || (!Succeeds(obs, n) && UnderWay(obs[..n]))
  }

  /** Every reported success finds a reported rollout under way. */
  predicate SuccessesAreUnderWay(obs: seq<Observation>)
    requires AllDaemonSets(obs)
  {
    forall k :: 0 <= k < |obs| && Succeeds(obs, k) ==> UnderWay(obs[..k])
  }

  function StartEvent(id: string): Event {
    BuildEvent(DEPLOY_STARTED, id, map[REASON_ATTR := Words("Started")])
  }

  function SuccessEvent(id: string): Event {
    BuildEvent(DEPLOY_SUCCEEDED, id, map[REASON_ATTR := Words("Succeeded")])
  }

  /** One notification emits one start or one success at most. */
  lemma StepIs(obs: seq<Observation>, i: nat) returns (id: string)
    requires AllDaemonSets(obs) && i < |obs|
    ensures EventsOf(StepResult(obs, i)) ==
            if Starts(obs, i) then [StartEvent(id)] else if Succeeds(obs, i) then [SuccessEvent(id)] else []
    ensures !(Starts(obs, i) && Succeeds(obs, i))
  {
    var n := obs[i].obj.ds;
    var r := ResolveRef(obs[i].store, DAEMON_SET, n.namespace, n.name);
    id := if r.Failed? then "" else IdOr(r.id.serviceID, n.name);
    assert StepResult(obs, i) == FromDaemonSetChange(obs[i].store, Before(obs, i), n);
  }

  lemma {:induction false} OpenStartIsUnderWay(obs: seq<Observation>)
    requires AllDaemonSets(obs)
    ensures OpenStart(RunEvents(obs)).Some? <==> UnderWay(obs)
  {
    hide StepResult, Starts, Succeeds;
    if obs == [] {
    } else {
      var n := |obs| - 1;
      OpenStartIsUnderWay(obs[..n]);
      var id := StepIs(obs, n);
      assert RunEvents(obs[..n]) + [] == RunEvents(obs[..n]);
      assert |DEPLOY_STARTED| != |DEPLOY_SUCCEEDED|;
      OpenStartAppend(RunEvents(obs[..n]), StartEvent(id));
      OpenStartAppend(RunEvents(obs[..n]), SuccessEvent(id));
    }
  }

  lemma SuccessesSnoc(obs: seq<Observation>)
    requires AllDaemonSets(obs) && obs != []
    ensures var n := |obs| - 1;
            SuccessesAreUnderWay(obs) <==>
            SuccessesAreUnderWay(obs[..n]) && (Succeeds(obs, n) ==> UnderWay(obs[..n]))
  {
    hide UnderWay;
    var n := |obs| - 1;
    assert forall k :: 0 <= k < n ==> obs[..n][..k] == obs[..k] && Succeeds(obs[..n], k) == Succeeds(obs, k);
  }

  /** In every run of one DaemonSet each DEPLOY_SUCCEEDED has its own DEPLOY_STARTED exactly when
      every reported success finds a reported rollout under way. */
  lemma {:induction false} RunIsPairedIff(obs: seq<Observation>)
    requires AllDaemonSets(obs)
    ensures Paired(RunEvents(obs)) <==> SuccessesAreUnderWay(obs)
  {
    hide StepResult, Starts, Succeeds, Paired, OpenStart, UnderWay;
    if obs == [] {
      NothingIsPaired();
    } else {
      var n := |obs| - 1;
      RunIsPairedIff(obs[..n]);
      SuccessesSnoc(obs);
      OpenStartIsUnderWay(obs[..n]);
      var id := StepIs(obs, n);
      assert RunEvents(obs[..n]) + [] == RunEvents(obs[..n]);
      assert |DEPLOY_STARTED| != |DEPLOY_SUCCEEDED|;
      PairedAppendIff(RunEvents(obs[..n]), StartEvent(id));
      PairedAppendIff(RunEvents(obs[..n]), SuccessEvent(id));
    }
  }

  /** A node joins and its Pod is scheduled: a success without a start, every lookup working. */
  lemma NewNodeUnpairs()
    ensures var steady := DaemonSet("prod", "agent", 1, 3, 3);
            var joined := steady.(desiredScheduled := 4);
            var obs := [Observation(map[], OfDaemonSet(steady)), Observation(map[], OfDaemonSet(joined)),
                        Observation(map[], OfDaemonSet(joined.(updatedScheduled := 4)))];
            AllDaemonSets(obs) && !Paired(RunEvents(obs))
  {
    hide RunEvents, Paired;
    var steady := DaemonSet("prod", "agent", 1, 3, 3);
    var joined := steady.(desiredScheduled := 4);
    var obs := [Observation(map[], OfDaemonSet(steady)), Observation(map[], OfDaemonSet(joined)),
                Observation(map[], OfDaemonSet(joined.(updatedScheduled := 4)))];
    assert Succeeds(obs, 2);
    assert obs[..2][..1] == obs[..1] && obs[..1][..0] == [];
    assert !UnderWay(obs[..1]) && !Starts(obs[..2], 1);
    RunIsPairedIff(obs);
  }

  // ----- How many of each -----

  function LostFlags(obs: seq<Observation>): seq<bool>
    requires AllDaemonSets(obs)
  {
    seq(|obs|, i requires 0 <= i < |obs| => Lost(obs, i))
  }

  /** The generation has risen, from 0 on an add, and a Pod is still to be updated. */
  function Beginnings(obs: seq<Observation>): seq<bool>
    requires AllDaemonSets(obs)
  {
    seq(|obs|, i requires 0 <= i < |obs| =>
      && obs[i].obj.ds.updatedScheduled < obs[i].obj.ds.desiredScheduled
      && (if i == 0 then 0 else obs[i - 1].obj.ds.observedGeneration) < obs[i].obj.ds.observedGeneration)
  }

  /** The updated Pods have just caught up with the wanted ones, of which there are some. */
  function CatchUps(obs: seq<Observation>): seq<bool>
    requires AllDaemonSets(obs)
  {
    seq(|obs|, i requires 0 <= i < |obs| =>
      && i > 0 && obs[i - 1].obj.ds.updatedScheduled < obs[i - 1].obj.ds.desiredScheduled
      && obs[i].obj.ds.updatedScheduled == obs[i].obj.ds.desiredScheduled && obs[i].obj.ds.desiredScheduled > 0)
  }

  lemma StepCounts(obs: seq<Observation>, i: nat)
    requires AllDaemonSets(obs) && i < |obs|
    ensures CountWhere(OfKind(DEPLOY_STARTED), StepEvents(obs)[i])
            == if Beginnings(obs)[i] && !LostFlags(obs)[i] then 1 else 0
    ensures CountWhere(OfKind(DEPLOY_SUCCEEDED), StepEvents(obs)[i])
            == if CatchUps(obs)[i] && !LostFlags(obs)[i] then 1 else 0
  {
    hide StepResult, Lost, CountWhere;
    var id := StepIs(obs, i);
    assert |DEPLOY_STARTED| != |DEPLOY_SUCCEEDED|;
    NoneCounted(OfKind(DEPLOY_STARTED));
    NoneCounted(OfKind(DEPLOY_SUCCEEDED));
    CountSingle(OfKind(DEPLOY_STARTED), StartEvent(id));
    CountSingle(OfKind(DEPLOY_STARTED), SuccessEvent(id));
    CountSingle(OfKind(DEPLOY_SUCCEEDED), StartEvent(id));
    CountSingle(OfKind(DEPLOY_SUCCEEDED), SuccessEvent(id));
  }

  /** Over any run of one DaemonSet, starts number the risen generations with Pods to update, and
      successes the times its Pods caught up, exactly when none coincides with a failed lookup. */
  lemma EventsCountIff(obs: seq<Observation>)
    requires AllDaemonSets(obs)
    ensures CountWhere(OfKind(DEPLOY_STARTED), RunEvents(obs)) == CountTrue(Beginnings(obs))
            <==> !LosesMark(Beginnings(obs), LostFlags(obs))
    ensures CountWhere(OfKind(DEPLOY_SUCCEEDED), RunEvents(obs)) == CountTrue(CatchUps(obs))
            <==> !LosesMark(CatchUps(obs), LostFlags(obs))
  {
    hide StepResult, RunEvents, Lost;
    RunEventsConcat(obs);
    forall i: nat | i < |obs|
      ensures CountWhere(OfKind(DEPLOY_STARTED), StepEvents(obs)[i])
              == if Beginnings(obs)[i] && !LostFlags(obs)[i] then 1 else 0
      ensures CountWhere(OfKind(DEPLOY_SUCCEEDED), StepEvents(obs)[i])
              == if CatchUps(obs)[i] && !LostFlags(obs)[i] then 1 else 0
    {
      StepCounts(obs, i);
    }
    CountsMarksIff(StepEvents(obs), Beginnings(obs), LostFlags(obs), OfKind(DEPLOY_STARTED));
    CountsMarksIff(StepEvents(obs), CatchUps(obs), LostFlags(obs), OfKind(DEPLOY_SUCCEEDED));
  }
}
