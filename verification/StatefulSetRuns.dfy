/** Over a run of StatefulSet notifications, starts and successes pair up. */
module StatefulSetRuns {
  import opened Sequences
  import opened Wire
  import opened Identity
  import opened Mapper
  import opened Runs
  import opened Pairing

  predicate AllStatefulSets(obs: seq<Observation>) {
    forall i :: 0 <= i < |obs| ==> obs[i].obj.OfStatefulSet?
  }

  /** While the revisions differ, the latest open start names the update revision. */
  predicate Tracks(events: seq<Event>, s: StatefulSet) {
    Diverged(s) ==> OpenStart(events) == Some(Words(s.updateRevision))
  }

  function Before(obs: seq<Observation>, i: nat): Option<StatefulSet>
    requires AllStatefulSets(obs) && i < |obs|
  {
    if i == 0 then None else Some(obs[i - 1].obj.s)
  }

  // ----- What the observations say -----

  /** The resolver's read of the observed StatefulSet fails, which loses the notification. */
  predicate Lost(obs: seq<Observation>, i: nat)
    requires AllStatefulSets(obs) && i < |obs|
  {
    var s := obs[i].obj.s;
    s.name != "" && Get(obs[i].store, STATEFUL_SET, s.namespace, s.name) == FetchError
  }

  predicate Starts(obs: seq<Observation>, i: nat)
    requires AllStatefulSets(obs) && i < |obs|
  {
    StatefulSetStarted(Before(obs, i), obs[i].obj.s)
  }

  predicate Succeeds(obs: seq<Observation>, i: nat)
    requires AllStatefulSets(obs) && i < |obs|
  {
    StatefulSetSucceeded(Before(obs, i), obs[i].obj.s)
  }

  /** The revision of the rollout that a reader of the events believes to be under way. */
  function OpenRevision(obs: seq<Observation>): Option<string>
    requires AllStatefulSets(obs)
  {
    if obs == [] then None
    else
      var n := |obs| - 1;
      if !Lost(obs, n) && Starts(obs, n) then Some(obs[n].obj.s.updateRevision)
      else if !Lost(obs, n) && Succeeds(obs, n) then None
      else OpenRevision(obs[..n])
  }

  /** A lost start does no harm when the revision it would have named is open already. */
  predicate LostStartsAreOpen(obs: seq<Observation>)
    requires AllStatefulSets(obs)
  {
    forall k :: 0 <= k < |obs| && Lost(obs, k) && Starts(obs, k) ==>
      OpenRevision(obs[..k]) == Some(obs[k].obj.s.updateRevision)
  }

  /** Every reported success finds a rollout under way. */
  predicate SuccessesAreOpen(obs: seq<Observation>)
    requires AllStatefulSets(obs)
  {
    forall k :: 0 <= k < |obs| && !Lost(obs, k) && Succeeds(obs, k) ==> OpenRevision(obs[..k]).Some?
  }

  lemma PrefixFacts(obs: seq<Observation>, n: nat)
    requires AllStatefulSets(obs) && n <= |obs|
    ensures AllStatefulSets(obs[..n])
    ensures forall k :: 0 <= k < n ==>
              && Lost(obs[..n], k) == Lost(obs, k) && Starts(obs[..n], k) == Starts(obs, k)
              && Succeeds(obs[..n], k) == Succeeds(obs, k) && obs[..n][..k] == obs[..k]
  {
  }

  // ----- One notification -----

  function StartEvent(id: string, s: StatefulSet): Event {
    BuildEvent(DEPLOY_STARTED, id, RawRevision("Started", s.updateRevision))
  }

  function SuccessEvent(id: string, s: StatefulSet): Event {
    BuildEvent(DEPLOY_SUCCEEDED, id, RawRevision("Succeeded", s.updateRevision))
  }

  /** What a notification emits: nothing when lost, else one start or one success at most. */
  lemma StepIs(obs: seq<Observation>, i: nat) returns (id: string)
    requires AllStatefulSets(obs) && i < |obs|
    ensures EventsOf(StepResult(obs, i)) ==
            if Lost(obs, i) then []
            else if Starts(obs, i) then [StartEvent(id, obs[i].obj.s)]
            else if Succeeds(obs, i) then [SuccessEvent(id, obs[i].obj.s)]
            else []
  {
    var n := obs[i].obj.s;
    var r := ResolveRef(obs[i].store, STATEFUL_SET, n.namespace, n.name);
    id := if r.Failed? then "" else IdOr(r.id.serviceID, n.name);
    assert StepResult(obs, i) == FromStatefulSetChange(obs[i].store, Before(obs, i), n);
  }

  function AsAttr(rev: Option<string>): Option<Attr> {
    match rev
    case None => None
    case Some(r) => Some(Words(r))
  }

  /** The events keep the open start that the observations call for. */
  lemma {:induction false} OpenStartIsOpenRevision(obs: seq<Observation>)
    requires AllStatefulSets(obs)
    ensures OpenStart(RunEvents(obs)) == AsAttr(OpenRevision(obs))
  {
    hide StepResult, Lost, Starts, Succeeds;
    if obs == [] {
    } else {
      var n := |obs| - 1;
      OpenStartIsOpenRevision(obs[..n]);
      var id := StepIs(obs, n);
      assert RunEvents(obs[..n]) + [] == RunEvents(obs[..n]);
      assert |DEPLOY_STARTED| != |DEPLOY_SUCCEEDED|;
      OpenStartAppend(RunEvents(obs[..n]), StartEvent(id, obs[n].obj.s));
      OpenStartAppend(RunEvents(obs[..n]), SuccessEvent(id, obs[n].obj.s));
    }
  }

  // ----- Whole runs -----

  /** After every notification of the run the open start names the update revision, while the
      revisions differ. */
  predicate AlwaysTracks(obs: seq<Observation>)
    requires AllStatefulSets(obs)
  {
    forall k :: 0 <= k < |obs| ==> Tracks(RunEvents(obs[..k + 1]), obs[k].obj.s)
  }

  lemma StepTracksIff(obs: seq<Observation>, k: nat)
    requires AllStatefulSets(obs) && k < |obs|
    requires k > 0 ==> Tracks(RunEvents(obs[..k]), obs[k - 1].obj.s)
    ensures Tracks(RunEvents(obs[..k + 1]), obs[k].obj.s)
            <==> (Lost(obs, k) && Starts(obs, k) ==> OpenRevision(obs[..k]) == Some(obs[k].obj.s.updateRevision))
  {
    hide RunEvents, Lost;
    PrefixFacts(obs, k + 1);
    OpenStartIsOpenRevision(obs[..k]);
    OpenStartIsOpenRevision(obs[..k + 1]);
    assert obs[..k + 1][..k] == obs[..k];
  }

  lemma {:induction false} OpenLostStartsTrack(obs: seq<Observation>, k: nat)
    requires AllStatefulSets(obs) && LostStartsAreOpen(obs) && k < |obs|
    ensures Tracks(RunEvents(obs[..k + 1]), obs[k].obj.s)
  {
    hide RunEvents, Tracks, Lost, Starts, OpenRevision;
    if k == 0 {
    } else {
      OpenLostStartsTrack(obs, k - 1);
    }
    StepTracksIff(obs, k);
  }

  /** In every run of one StatefulSet that starts with its add: while the revisions differ, the
      latest DEPLOY_STARTED with no success after it names the update revision, after every
      notification, exactly when each start lost to a failed lookup was open already. */
  lemma RunTracksIff(obs: seq<Observation>)
    requires AllStatefulSets(obs)
    ensures AlwaysTracks(obs) <==> LostStartsAreOpen(obs)
  {
    hide RunEvents, Tracks, Lost, Starts, OpenRevision;
    if AlwaysTracks(obs) {
      forall k: nat | k < |obs| && Lost(obs, k) && Starts(obs, k)
        ensures OpenRevision(obs[..k]) == Some(obs[k].obj.s.updateRevision)
      {
        assert k > 0 ==> obs[..(k - 1) + 1] == obs[..k] && Tracks(RunEvents(obs[..(k - 1) + 1]), obs[k - 1].obj.s);
        StepTracksIff(obs, k);
      }
    }
    if LostStartsAreOpen(obs) {
      forall k: nat | k < |obs|
        ensures Tracks(RunEvents(obs[..k + 1]), obs[k].obj.s)
      {
        OpenLostStartsTrack(obs, k);
      }
    }
  }

  lemma StartDiverges(obs: seq<Observation>, i: nat)
    requires AllStatefulSets(obs) && i < |obs|
    ensures !(Starts(obs, i) && Succeeds(obs, i))
  {
  }

  lemma SuccessesAreOpenSnoc(obs: seq<Observation>)
    requires AllStatefulSets(obs) && obs != []
    ensures var n := |obs| - 1;
            SuccessesAreOpen(obs) <==>
            SuccessesAreOpen(obs[..n]) && (!Lost(obs, n) && Succeeds(obs, n) ==> OpenRevision(obs[..n]).Some?)
  {
    hide Lost, Succeeds, OpenRevision;
    var n := |obs| - 1;
    PrefixFacts(obs, n);
    assert forall k :: 0 <= k < n ==> obs[..n][..k] == obs[..k];
  }

  /** In every run each DEPLOY_SUCCEEDED has its own DEPLOY_STARTED exactly when every reported
      success finds a rollout under way. */
  lemma {:induction false} RunIsPairedIff(obs: seq<Observation>)
    requires AllStatefulSets(obs)
    ensures Paired(RunEvents(obs)) <==> SuccessesAreOpen(obs)
  {
    hide StepResult, Lost, Starts, Succeeds, Paired, OpenStart;
    if obs == [] {
      NothingIsPaired();
    } else {
      var n := |obs| - 1;
      RunIsPairedIff(obs[..n]);
      SuccessesAreOpenSnoc(obs);
      var id := StepIs(obs, n);
      var so := RunEvents(obs[..n]);
      assert so + [] == so;
      OpenStartIsOpenRevision(obs[..n]);
      assert |DEPLOY_STARTED| != |DEPLOY_SUCCEEDED|;
      StartDiverges(obs, n);
      PairedAppendIff(so, StartEvent(id, obs[n].obj.s));
      PairedAppendIff(so, SuccessEvent(id, obs[n].obj.s));
    }
  }

  /** Tracking gives pairing: no start that matters was lost. */
  lemma TrackingPairs(obs: seq<Observation>)
    requires AllStatefulSets(obs) && LostStartsAreOpen(obs)
    ensures Paired(RunEvents(obs))
  {
    hide RunEvents, Paired, Lost, Starts, OpenStart;
    RunTracksIff(obs);
    forall k: nat | k < |obs| && !Lost(obs, k) && Succeeds(obs, k)
      ensures OpenRevision(obs[..k]).Some?
    {
      assert obs[..(k - 1) + 1] == obs[..k] && Tracks(RunEvents(obs[..(k - 1) + 1]), obs[k - 1].obj.s);
      OpenStartIsOpenRevision(obs[..k]);
    }
    RunIsPairedIff(obs);
  }

  /** A start lost to a failed lookup leaves a success without a start. */
  lemma LostStartUnpairs()
    ensures var begun := StatefulSet("prod", "db", Some(1), "r2", "r1", 1);
            var unreadable: Store := map[Key(STATEFUL_SET, "prod", "db") := FetchError];
            var obs := [Observation(unreadable, OfStatefulSet(begun)),
                        Observation(map[], OfStatefulSet(begun.(currentRevision := "r2")))];
            AllStatefulSets(obs) && !LostStartsAreOpen(obs) && !Paired(RunEvents(obs))
  {
    hide RunEvents, Paired;
    var begun := StatefulSet("prod", "db", Some(1), "r2", "r1", 1);
    var unreadable: Store := map[Key(STATEFUL_SET, "prod", "db") := FetchError];
    var obs := [Observation(unreadable, OfStatefulSet(begun)),
                Observation(map[], OfStatefulSet(begun.(currentRevision := "r2")))];
    assert Lost(obs, 0) && Starts(obs, 0) && obs[..0] == [];
    assert obs[..1][..0] == [] && OpenRevision(obs[..1]) == None;
    assert !Lost(obs, 1) && Succeeds(obs, 1);
    RunIsPairedIff(obs);
  }

  // ----- Which rollouts are reported at all -----

  /** The rollout an observation is in the middle of, by its target revision. */
  function Rollout(s: StatefulSet): Option<string> {
    if s.updateRevision != "" && s.updateRevision != s.currentRevision then Some(s.updateRevision) else None
  }

  /** The observations at which a rollout, or another rollout, has just begun. */
  function Beginnings(obs: seq<Observation>): seq<bool>
    requires AllStatefulSets(obs)
  {
    seq(|obs|, i requires 0 <= i < |obs| =>
      Rollout(obs[i].obj.s).Some? && (i == 0 || Rollout(obs[i - 1].obj.s) != Rollout(obs[i].obj.s)))
  }

  function LostFlags(obs: seq<Observation>): seq<bool>
    requires AllStatefulSets(obs)
  {
    seq(|obs|, i requires 0 <= i < |obs| => Lost(obs, i))
  }

  lemma StartStepCount(obs: seq<Observation>, i: nat)
    requires AllStatefulSets(obs) && i < |obs|
    ensures CountWhere(OfKind(DEPLOY_STARTED), StepEvents(obs)[i])
            == if Beginnings(obs)[i] && !LostFlags(obs)[i] then 1 else 0
  {
    hide StepResult, Lost, CountWhere;
    var id := StepIs(obs, i);
    assert |DEPLOY_STARTED| != |DEPLOY_SUCCEEDED|;
    NoneCounted(OfKind(DEPLOY_STARTED));
    NoneCounted(OfKind(DEPLOY_SUCCEEDED));
    CountSingle(OfKind(DEPLOY_STARTED), StartEvent(id, obs[i].obj.s));
    CountSingle(OfKind(DEPLOY_STARTED), SuccessEvent(id, obs[i].obj.s));
  }

  /** Over any run of one StatefulSet, the DEPLOY_STARTED number the beginnings of rollouts exactly
      when none coincides with a failed lookup. */
  lemma StartsCountIff(obs: seq<Observation>)
    requires AllStatefulSets(obs)
    ensures CountWhere(OfKind(DEPLOY_STARTED), RunEvents(obs)) <= CountTrue(Beginnings(obs))
    ensures CountWhere(OfKind(DEPLOY_STARTED), RunEvents(obs)) == CountTrue(Beginnings(obs))
            <==> !LosesMark(Beginnings(obs), LostFlags(obs))
  {
    hide StepResult, RunEvents, Lost;
    RunEventsConcat(obs);
    forall i: nat | i < |obs|
      ensures CountWhere(OfKind(DEPLOY_STARTED), StepEvents(obs)[i])
              == if Beginnings(obs)[i] && !LostFlags(obs)[i] then 1 else 0
    {
      StartStepCount(obs, i);
    }
    CountsMarksIff(StepEvents(obs), Beginnings(obs), LostFlags(obs), OfKind(DEPLOY_STARTED));
  }

  // ----- Which finished rollouts are reported -----

  /** The observations at which the revisions have just come together. */
  function Convergences(obs: seq<Observation>): seq<bool>
    requires AllStatefulSets(obs)
  {
    seq(|obs|, i requires 0 <= i < |obs| =>
      && i > 0 && Diverged(obs[i - 1].obj.s)
      && obs[i].obj.s.updateRevision == obs[i].obj.s.currentRevision && obs[i].obj.s.updateRevision != "")
  }

  /** The notifications that cannot report one: the lookup fails, or a replica is not ready. */
  function SuccessMuted(obs: seq<Observation>): seq<bool>
    requires AllStatefulSets(obs)
  {
    seq(|obs|, i requires 0 <= i < |obs| =>
      Lost(obs, i) || obs[i].obj.s.readyReplicas != SpecReplicas(obs[i].obj.s.replicas))
  }

  lemma SuccessStepCount(obs: seq<Observation>, i: nat)
    requires AllStatefulSets(obs) && i < |obs|
    ensures CountWhere(OfKind(DEPLOY_SUCCEEDED), StepEvents(obs)[i])
            == if Convergences(obs)[i] && !SuccessMuted(obs)[i] then 1 else 0
  {
    hide StepResult, Lost, CountWhere;
    var id := StepIs(obs, i);
    assert |DEPLOY_STARTED| != |DEPLOY_SUCCEEDED|;
    NoneCounted(OfKind(DEPLOY_STARTED));
    NoneCounted(OfKind(DEPLOY_SUCCEEDED));
    CountSingle(OfKind(DEPLOY_SUCCEEDED), StartEvent(id, obs[i].obj.s));
    CountSingle(OfKind(DEPLOY_SUCCEEDED), SuccessEvent(id, obs[i].obj.s));
  }

  /** Over any run of one StatefulSet, the DEPLOY_SUCCEEDED number the convergences exactly when
      none coincides with a failed lookup or a replica that is not ready: a success missed at that
      moment is never made up for. */
  lemma SuccessesCountIff(obs: seq<Observation>)
    requires AllStatefulSets(obs)
    ensures CountWhere(OfKind(DEPLOY_SUCCEEDED), RunEvents(obs)) <= CountTrue(Convergences(obs))
    ensures CountWhere(OfKind(DEPLOY_SUCCEEDED), RunEvents(obs)) == CountTrue(Convergences(obs))
            <==> !LosesMark(Convergences(obs), SuccessMuted(obs))
  {
    hide StepResult, RunEvents, Lost;
    RunEventsConcat(obs);
    forall i: nat | i < |obs|
      ensures CountWhere(OfKind(DEPLOY_SUCCEEDED), StepEvents(obs)[i])
              == if Convergences(obs)[i] && !SuccessMuted(obs)[i] then 1 else 0
    {
      SuccessStepCount(obs, i);
    }
    CountsMarksIff(StepEvents(obs), Convergences(obs), SuccessMuted(obs), OfKind(DEPLOY_SUCCEEDED));
  }

  lemma OneOfThree()
    ensures CountTrue([false, true, false]) == 1
  {
    assert [false, true, false][..2] == [false, true] && [false, true][..1] == [false] && [false][..0] == [];
    assert CountTrue([false]) == 0 && CountTrue([false, true]) == 1;
  }

  /** The revisions come together before the last replica is ready: the rollout finishes, every
      lookup works, and no success is reported. */
  lemma LateReadinessIsNotReported()
    ensures var begun := StatefulSet("prod", "db", Some(3), "r2", "r1", 2);
            var met := begun.(currentRevision := "r2");
            var obs := [Observation(map[], OfStatefulSet(begun)), Observation(map[], OfStatefulSet(met)),
                        Observation(map[], OfStatefulSet(met.(readyReplicas := 3)))];
            && AllStatefulSets(obs) && CountTrue(Convergences(obs)) == 1
            && CountWhere(OfKind(DEPLOY_SUCCEEDED), RunEvents(obs)) == 0
  {
    hide RunEvents;
    var begun := StatefulSet("prod", "db", Some(3), "r2", "r1", 2);
    var met := begun.(currentRevision := "r2");
    var obs := [Observation(map[], OfStatefulSet(begun)), Observation(map[], OfStatefulSet(met)),
                Observation(map[], OfStatefulSet(met.(readyReplicas := 3)))];
    assert Convergences(obs) == [false, true, false];
    OneOfThree();
    assert Convergences(obs)[1] && SuccessMuted(obs)[1];
    assert LosesMark(Convergences(obs), SuccessMuted(obs));
    SuccessesCountIff(obs);
  }

}
