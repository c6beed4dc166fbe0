/** Rotation as a step system: edits of the Secret and of the one config, their watch
notifications, the work queue and a worker whose reads, rotation and status write are
separate steps. Reads, list calls and writes may fail; a write also fails when the config
changed since it was read. */
module RotationProtocol {
  import opened Wire
  import opened Rotation

  /** `version` changes with every write of the object. */
  datatype Config = Config(version: nat, spec: Spec, status: Status)

  datatype Worker =
    | Idle
    | Started
    | HasConfig(c: Config)
    | HasSecret(c: Config, read: Read)
    | HasRotated(c: Config, read: Read)

  datatype State = State(
    secrets: map<string, map<string, string>>,
    config: Option<Config>,
    clients: Clients,
    configNotice: bool,          // a config event not yet turned into a request
    secretNotices: set<string>,  // Secrets with an event not yet turned into requests
    queued: bool,                // a request is queued, or scheduled after an error
    worker: Worker,
    // History: never read by the operator.
    seen: Read,                  // what the last rotation had read
    missed: bool,                // a Secret event was lost to a failed list since the last reconcile began
    revoked: bool)               // the clients were dropped on a revoked key since the last rotation

  datatype Step =
    | EditSecret(name: string, data: Option<map<string, string>>)
    | EditSpec(spec: Spec)
    | CreateConfig(spec: Spec)
    | DeleteConfig
    | Touch                                    // periodic requeue or resync
    | DeliverConfig
    | DeliverSecret(secret: string, listOk: bool)
    | Pop
    | ReadConfig(ok: bool)
    | ReadSecret(ok: bool)
    | RotateClients
    | WriteStatus(ok: bool, now: int)
    | KeyRevoked

  /** The operator starts with bootstrap credentials and an unseen config. */
  function InitState(secrets: map<string, map<string, string>>, spec: Spec, key: string, workspace: string): State {
    State(secrets, Some(Config(0, spec, Status("", "", None))), Rotated(key, workspace), true, {}, false, Idle,
          Missing, false, false)
  }

  predicate Enabled(s: State, st: Step) {
    match st
    case EditSecret(_, _) => true
    case EditSpec(_) => s.config.Some?
    case CreateConfig(_) => s.config.None?
    case DeleteConfig => s.config.Some?
    case Touch => true
    case DeliverConfig => s.configNotice
    case DeliverSecret(name, _) => name in s.secretNotices
    case Pop => s.queued && s.worker.Idle?
    case ReadConfig(_) => s.worker.Started?
    case ReadSecret(_) => s.worker.HasConfig?
    case RotateClients => s.worker.HasSecret?
    case WriteStatus(_, _) => s.worker.HasRotated?
    case KeyRevoked => true
  }

  /** A working read of the Secret the spec names. */
  function SecretNow(s: State, spec: Spec): Read {
    if spec.secretName in s.secrets then Data(s.secrets[spec.secretName]) else Missing
  }

  predicate Concerns(s: State, secret: string) {
    s.config.Some? && s.config.value.spec.secretName == secret
  }

  /** A failed or conflicting write, and a reconcile that could not read the Secret, are retried.
      A write that changes the status is itself a config event. */
  function AfterWrite(s: State, ok: bool, now: int): State
    requires s.worker.HasRotated?
  {
    var c, read := s.worker.c, s.worker.read;
    if !ok || s.config != Some(c) then s.(worker := Idle, queued := true)
    else
      var status := StatusFor(c.spec, read, c.status, now);
      s.(worker := Idle,
         config := Some(Config(c.version + 1, c.spec, status)),
         configNotice := s.configNotice || status != c.status,
         queued := s.queued || read.Unreadable?)
  }

  function Apply(s: State, st: Step): State
    requires Enabled(s, st)
  {
    match st
    case EditSecret(name, data) =>
      s.(secrets := if data.Some? then s.secrets[name := data.value] else s.secrets - {name},
         secretNotices := s.secretNotices + {name})
    case EditSpec(spec) =>
      s.(config := Some(s.config.value.(version := s.config.value.version + 1, spec := spec)), configNotice := true)
    case CreateConfig(spec) => s.(config := Some(Config(0, spec, Status("", "", None))), configNotice := true)
    case DeleteConfig => s.(config := None, configNotice := true)
    case Touch => s.(queued := true)
    case DeliverConfig => s.(configNotice := false, queued := true)
    case DeliverSecret(name, listOk) =>
      s.(secretNotices := s.secretNotices - {name},
         queued := s.queued || (listOk && Concerns(s, name)),
         missed := s.missed || (!listOk && Concerns(s, name)))
    case Pop => s.(queued := false, worker := Started, missed := false)
    case ReadConfig(ok) =>
      if !ok then s.(worker := Idle, queued := true)
      else if s.config.None? then s.(worker := Idle)
      else s.(worker := HasConfig(s.config.value))
    case ReadSecret(ok) =>
      s.(worker := HasSecret(s.worker.c, if ok then SecretNow(s, s.worker.c.spec) else Unreadable))
    case RotateClients =>
      s.(clients := ClientsFor(s.worker.c.spec, s.worker.read),
         worker := HasRotated(s.worker.c, s.worker.read),
         seen := s.worker.read,
         revoked := false)
    case WriteStatus(ok, now) => AfterWrite(s, ok, now)
    case KeyRevoked => s.(clients := Rotated("", s.clients.workspaceID), revoked := true)
  }

  // ----- Invariant -----

  /** Some notification or request will still lead to a reconcile that starts later. */
  predicate EventPending(s: State) {
    s.configNotice || s.queued || (s.config.Some? && s.config.value.spec.secretName in s.secretNotices)
  }

  /** The same, or one should have. */
  predicate WorkPending(s: State) {
    EventPending(s) || s.missed
  }

  predicate ClientsMatch(s: State, spec: Spec, read: Read) {
    s.revoked || s.clients == ClientsFor(spec, read)
  }

  /** The clients and the phase are those of the current spec and the current Secret. */
  predicate Synced(s: State)
    requires s.config.Some?
  {
    var spec, status := s.config.value.spec, s.config.value.status;
    var read := SecretNow(s, spec);
    && ClientsMatch(s, spec, read)
    && status.phase == (if KeyFor(spec, read) != "" then RUNNING else DEGRADED)
  }

  predicate ReadIsCurrent(s: State, c: Config, read: Read) {
    s.config == Some(c) && (read.Unreadable? || read == SecretNow(s, c.spec))
  }

  /** What the worker has read and done so far still fits the current objects. */
  predicate OnTrack(s: State)
    requires s.config.Some?
  {
    match s.worker
    case Idle => Synced(s)
    case Started => true
    case HasConfig(c) => s.config == Some(c)
    case HasSecret(c, read) => ReadIsCurrent(s, c, read)
    case HasRotated(c, read) => ReadIsCurrent(s, c, read) && ClientsMatch(s, c.spec, read)
  }

  /** While the config exists, either work is pending or the worker is on track. */
  predicate Inv(s: State) {
    && Unmixed(s.clients)
    && (s.config.Some? ==> WorkPending(s) || OnTrack(s))
  }

  lemma StepKeepsInv(s: State, st: Step)
    requires Inv(s) && Enabled(s, st)
    ensures Inv(Apply(s, st))
  {
  }

  /** The clients are those of the spec and of what the last rotation had read. */
  predicate ActedOn(s: State, spec: Spec) {
    ClientsMatch(s, spec, s.seen)
  }

  /** Lost Secret events or not: while no config event or request is pending, the clients and, at
      rest, the phase follow what was last read. */
  predicate SeenInv(s: State) {
    s.config.Some? && !s.configNotice && !s.queued ==>
      var c := s.config.value;
      match s.worker
      case Idle => ActedOn(s, c.spec) && c.status.phase == (if KeyFor(c.spec, s.seen) != "" then RUNNING else DEGRADED)
      case Started => true
      case HasConfig(d) => d == c
      case HasSecret(d, _) => d == c
      case HasRotated(d, read) => d == c && s.seen == read && ActedOn(s, c.spec)
  }

  lemma StepKeepsSeenInv(s: State, st: Step)
    requires SeenInv(s) && Enabled(s, st)
    ensures SeenInv(Apply(s, st))
  {
  }

  // ----- Runs -----

  predicate Runs(s: State, steps: seq<Step>)
    decreases |steps|
  {
    steps == [] || (Enabled(s, steps[0]) && Runs(Apply(s, steps[0]), steps[1..]))
  }

  function After(s: State, steps: seq<Step>): State
    requires Runs(s, steps)
    decreases |steps|
  {
    if steps == [] then s else After(Apply(s, steps[0]), steps[1..])
  }

  ghost predicate Reachable(s: State) {
    exists secrets, spec, key, workspace, steps ::
      && Runs(InitState(secrets, spec, key, workspace), steps)
      && s == After(InitState(secrets, spec, key, workspace), steps)
  }

  lemma {:induction false} RunKeepsInv(s: State, steps: seq<Step>)
    requires Inv(s) && SeenInv(s) && Runs(s, steps)
    ensures Inv(After(s, steps)) && SeenInv(After(s, steps))
    decreases |steps|
  {
    hide Enabled, Apply, Inv, SeenInv;
    if steps == [] {
    } else {
      StepKeepsInv(s, steps[0]);
      StepKeepsSeenInv(s, steps[0]);
      RunKeepsInv(Apply(s, steps[0]), steps[1..]);
    }
  }

  lemma ReachableInv(s: State)
    requires Reachable(s)
    ensures Inv(s) && SeenInv(s)
  {
    var secrets, spec, key, workspace, steps :|
      && Runs(InitState(secrets, spec, key, workspace), steps)
      && s == After(InitState(secrets, spec, key, workspace), steps);
    RunKeepsInv(InitState(secrets, spec, key, workspace), steps);
  }

  /** Nothing is left to do until the next edit or the periodic requeue. */
  predicate AtRest(s: State) {
    s.worker.Idle? && !EventPending(s)
  }

  /** At rest, and no Secret event was lost on the way. */
  predicate Quiet(s: State) {
    AtRest(s) && !s.missed
  }

  /** Whenever the config exists, no work is pending and no key was revoked since the last
      rotation: the phase is Running exactly when the Secret holds a key, and then all three
      clients hold that key and the spec's workspace; otherwise all three drop. */
  lemma QuietMeansConverged(s: State)
    requires Reachable(s) && s.config.Some? && Quiet(s) && !s.revoked
    ensures var spec := s.config.value.spec;
            var key := KeyFor(spec, SecretNow(s, spec));
            && (s.config.value.status.phase == RUNNING <==> key != "")
            && (key != "" ==> s.clients == Clients(Http(key), Http(key), Http(key), spec.workspaceID))
            && (key == "" ==> s.clients == Clients(Dropping, Dropping, Dropping, ""))
  {
    ReachableInv(s);
    assert RUNNING[0] == 'R' && DEGRADED[0] == 'D';
  }

  /** The phase and the clients are those that the Secret calls for. */
  predicate Converged(s: State)
    requires s.config.Some?
  {
    var spec := s.config.value.spec;
    && s.clients == ClientsFor(spec, SecretNow(s, spec))
    && (s.config.value.status.phase == RUNNING <==> KeyFor(spec, SecretNow(s, spec)) != "")
  }

  /** With the worker idle and no config event or request pending, lost Secret events or not: the
      operator is converged exactly when the key in the Secret is the one last read, and it can
      only differ from it after a Secret event that was lost or is not delivered yet. */
  lemma IdleConvergedIff(s: State)
    requires Reachable(s) && s.config.Some? && s.worker.Idle? && !s.configNotice && !s.queued && !s.revoked
    ensures var spec := s.config.value.spec;
            && (Converged(s) <==> KeyFor(spec, s.seen) == KeyFor(spec, SecretNow(s, spec)))
            && (!Converged(s) ==> s.missed || spec.secretName in s.secretNotices)
            && s.clients == ClientsFor(spec, s.seen)
            && (s.config.value.status.phase == RUNNING <==> KeyFor(spec, s.seen) != "")
  {
    ReachableInv(s);
    assert RUNNING[0] == 'R' && DEGRADED[0] == 'D';
  }

  /** The three clients never come from different rotations, revoked keys included. */
  lemma ClientsNeverMix(s: State)
    requires Reachable(s)
    ensures Unmixed(s.clients)
  {
    ReachableInv(s);
  }

  /** The time of the last reconciliation only moves with a status write that reports Running. */
  lemma LastReconciliationMovesOnlyOnRunning(s: State, st: Step)
    requires Enabled(s, st) && s.config.Some? && Apply(s, st).config.Some?
    ensures var before, after := s.config.value.status, Apply(s, st).config.value.status;
            before.lastReconciliation != after.lastReconciliation ==>
              st.WriteStatus? && after.phase == RUNNING && after.lastReconciliation == Some(st.now)
  {
  }

  /** Only users edit the Secret and the spec: no step of the operator, failing or not, does. */
  lemma OperatorKeepsSpec(s: State, st: Step)
    requires Enabled(s, st) && !st.EditSecret? && !st.EditSpec? && !st.CreateConfig? && !st.DeleteConfig?
    ensures var s' := Apply(s, st);
            && s'.secrets == s.secrets && s'.config.Some? == s.config.Some?
            && (s.config.Some? ==> s'.config.value.spec == s.config.value.spec)
            && (s'.config != s.config ==> st.WriteStatus?)
  {
    hide StatusFor, ClientsFor, SecretNow, Rotated, Concerns;
    if st.WriteStatus? {
      assert Apply(s, st) == AfterWrite(s, st.ok, st.now);
    } else {
      assert Apply(s, st).config == s.config;
    }
  }

  /** Each read and write may fail. A failed config read or status write leaves everything but the
      queue as it was and asks for another reconcile; so does a write to a config that has changed. */
  lemma FailuresAreRetried(s: State, now: int)
    ensures s.worker.Started? ==>
              Enabled(s, ReadConfig(false)) && Apply(s, ReadConfig(false)) == s.(worker := Idle, queued := true)
    ensures s.worker.HasRotated? ==>
              Enabled(s, WriteStatus(false, now)) && Apply(s, WriteStatus(false, now)) == s.(worker := Idle, queued := true)
    ensures s.worker.HasRotated? && s.config != Some(s.worker.c) ==>
              Enabled(s, WriteStatus(true, now)) && Apply(s, WriteStatus(true, now)) == s.(worker := Idle, queued := true)
  {
  }

  /** A Secret event asks for a reconcile exactly when the config refers to that Secret and the
      list works, and is forgotten otherwise. */
  lemma SecretEventQueuesIff(s: State, secret: string, listOk: bool)
    requires secret in s.secretNotices && !s.queued
    ensures Enabled(s, DeliverSecret(secret, listOk))
    ensures var s' := Apply(s, DeliverSecret(secret, listOk));
            && (s'.queued <==> listOk && s.config.Some? && s.config.value.spec.secretName == secret)
            && s'.secretNotices == s.secretNotices - {secret} && s'.clients == s.clients && s'.config == s.config
  {
  }

  /** A revoked key drops all three clients at once and keeps the workspace. */
  lemma RevocationDrops(s: State)
    ensures Enabled(s, KeyRevoked)
    ensures Apply(s, KeyRevoked).clients == Clients(Dropping, Dropping, Dropping, s.clients.workspaceID)
    ensures Apply(s, KeyRevoked).config == s.config && Apply(s, KeyRevoked).secrets == s.secrets
  {
  }

  /** A Secret that cannot be read drops the clients, is reported as such and is tried again. */
  lemma UnreadableSecretDegrades(s: State, now: int)
    requires s.worker.HasConfig? && s.config == Some(s.worker.c)
    ensures var steps := [ReadSecret(false), RotateClients, WriteStatus(true, now)];
            && Runs(s, steps)
            && var s' := After(s, steps);
               && s'.clients == Clients(Dropping, Dropping, Dropping, "") && s'.queued && s'.worker.Idle?
               && s'.config.Some? && s'.config.value.status.phase == "Degraded"
               && s'.config.value.status.reason == "ReadError"
               && s'.config.value.status.lastReconciliation == s.config.value.status.lastReconciliation
  {
    var a, b, c := ReadSecret(false), RotateClients, WriteStatus(true, now);
    var s1 := Apply(s, a);
    var s2 := Apply(s1, b);
    var s3 := Apply(s2, c);
    assert Runs(s3, []) && After(s3, []) == s3;
    assert [c][1..] == [] && Runs(s2, [c]) && After(s2, [c]) == s3;
    assert [b, c][1..] == [c] && Runs(s1, [b, c]) && After(s1, [b, c]) == s3;
    assert [a, b, c][1..] == [b, c];
  }

  // ----- When a write is itself an event -----

  /** A successful write leaves no config event exactly when the stored status already says the
      same: for a Running one, when it also carries the very time that is written. */
  lemma WriteIsSilentIff(s: State, now: int)
    requires s.worker.HasRotated? && s.config == Some(s.worker.c) && !s.configNotice
    ensures var c, read := s.worker.c, s.worker.read;
            !Apply(s, WriteStatus(true, now)).configNotice <==>
            if KeyFor(c.spec, read) != ""
            then c.status.phase == RUNNING && c.status.reason == RECONCILED && c.status.lastReconciliation == Some(now)
            else c.status.phase == DEGRADED
                 && c.status.reason == (match read
                                        case Missing => SECRET_NOT_FOUND
                                        case Unreadable => READ_ERROR
                                        case Data(_) => INVALID_API_KEY)
  {
  }

  /** Steps the operator takes by itself when reads, lists and writes work. */
  predicate Works(st: Step) {
    match st
    case Touch => true
    case DeliverConfig => true
    case DeliverSecret(_, listOk) => listOk
    case Pop => true
    case ReadConfig(ok) => ok
    case ReadSecret(ok) => ok
    case RotateClients => true
    case WriteStatus(ok, _) => ok
    case _ => false
  }

  /** The Secret holds a key for the config. */
  predicate HasKey(s: State) {
    s.config.Some? && KeyFor(s.config.value.spec, SecretNow(s, s.config.value.spec)) != ""
  }

  /** A status write carries a time other than the recorded one. */
  predicate ClockMoved(s: State, st: Step)
    requires s.config.Some?
  {
    st.WriteStatus? ==> s.config.value.status.lastReconciliation != Some(st.now)
  }

  /** A key is present, no Secret event was lost, and something is left to do. */
  predicate Restless(s: State) {
    Inv(s) && HasKey(s) && !s.missed && !AtRest(s)
  }

  /** The worker is about to repeat a degraded status that it owes to an outdated read. */
  predicate RepeatsDegraded(s: State) {
    && s.worker.HasRotated? && s.config == Some(s.worker.c) && !EventPending(s)
    && var c, read := s.worker.c, s.worker.read;
       && KeyFor(c.spec, read) == "" && !read.Unreadable?
       && c.status.phase == DEGRADED
       && c.status.reason == if read.Missing? then SECRET_NOT_FOUND else INVALID_API_KEY
  }

  /** With a key present and a moving clock, a working step leads to rest exactly when it writes
      once more a degraded status that an outdated read calls for; that takes a lost event. */
  lemma WorkingStepRestsIff(s: State, st: Step)
    requires Inv(s) && HasKey(s) && !AtRest(s) && Enabled(s, st) && Works(st) && ClockMoved(s, st)
    ensures AtRest(Apply(s, st)) <==> st.WriteStatus? && RepeatsDegraded(s)
    ensures RepeatsDegraded(s) ==> s.missed
  {
    hide ClientsFor, ClientsMatch;
  }

  lemma WorkingStepStaysRestless(s: State, st: Step)
    requires Restless(s) && Enabled(s, st) && Works(st) && ClockMoved(s, st)
    ensures Restless(Apply(s, st))
  {
    StepKeepsInv(s, st);
  }

  /** Every step works, and every status write meets a clock that has moved. */
  predicate MovingRun(s: State, steps: seq<Step>)
    decreases |steps|
  {
    steps == [] ||
    (&& s.config.Some? && Enabled(s, steps[0]) && Works(steps[0]) && ClockMoved(s, steps[0])
     && MovingRun(Apply(s, steps[0]), steps[1..]))
  }

  /** With a key present, no Secret event lost and a clock that moves between status writes, no
      run of working steps ever reaches rest: each Running write is an event that asks for the next reconcile. */
  lemma {:induction false} NeverRests(s: State, steps: seq<Step>)
    requires Restless(s) && MovingRun(s, steps)
    ensures Runs(s, steps) && Restless(After(s, steps))
    decreases |steps|
  {
    hide Enabled, Apply, Works, ClockMoved, Restless;
    if steps == [] {
    } else {
      WorkingStepStaysRestless(s, steps[0]);
      NeverRests(Apply(s, steps[0]), steps[1..]);
    }
  }

  lemma RestlessMeans(s: State)
    requires Restless(s)
    ensures s.config.Some? && !AtRest(s)
  {
  }

  /** Rest is reached by working steps only through a write that repeats the recorded time. */
  lemma {:induction false} RestNeedsRepeatedTime(s: State, steps: seq<Step>) returns (i: nat)
    requires Restless(s) && Runs(s, steps) && AtRest(After(s, steps))
    requires forall k :: 0 <= k < |steps| ==> Works(steps[k])
    ensures i < |steps| && Runs(s, steps[..i]) && After(s, steps[..i]).config.Some? && steps[i].WriteStatus?
    ensures After(s, steps[..i]).config.value.status.lastReconciliation == Some(steps[i].now)
    decreases |steps|
  {
    hide Enabled, Apply, Works, Restless;
    RestlessMeans(s);
    assert steps != [] && Works(steps[0]);
    if !ClockMoved(s, steps[0]) {
      i := 0;
    } else {
      WorkingStepStaysRestless(s, steps[0]);
      var k := RestNeedsRepeatedTime(Apply(s, steps[0]), steps[1..]);
      i := k + 1;
      assert steps[..i][1..] == steps[1..][..k];
    }
  }

  /** The state after one undisturbed reconcile. */
  function Reconciled(s: State, now: int): State
    requires s.config.Some?
  {
    var c := s.config.value;
    var read := SecretNow(s, c.spec);
    var status := StatusFor(c.spec, read, c.status, now);
    s.(queued := false,
       missed := false,
       revoked := false,
       worker := Idle,
       clients := ClientsFor(c.spec, read),
       seen := read,
       config := Some(Config(c.version + 1, c.spec, status)),
       configNotice := s.configNotice || status != c.status)
  }

  /** Its five steps, each enabled after the one before, with the config untouched until the write. */
  lemma ReconcileSteps(s: State, now: int)
    requires s.config.Some? && s.worker.Idle? && s.queued
    ensures Enabled(s, Pop)
    ensures var s1 := Apply(s, Pop);
            Enabled(s1, ReadConfig(true)) && s1.config == s.config &&
            var s2 := Apply(s1, ReadConfig(true));
            Enabled(s2, ReadSecret(true)) && s2.config == s.config &&
            var s3 := Apply(s2, ReadSecret(true));
            Enabled(s3, RotateClients) && s3.config == s.config &&
            var s4 := Apply(s3, RotateClients);
            Enabled(s4, WriteStatus(true, now)) && s4.config == s.config &&
            Apply(s4, WriteStatus(true, now)) == Reconciled(s, now)
  {
  }

  lemma MovingStep(s: State, st: Step, rest: seq<Step>)
    requires s.config.Some? && Enabled(s, st) && Works(st) && ClockMoved(s, st) && MovingRun(Apply(s, st), rest)
    ensures MovingRun(s, [st] + rest)
  {
    assert ([st] + rest)[1..] == rest;
  }

  lemma JustMoves(s: State, st: Step)
    requires s.config.Some? && Enabled(s, st) && Works(st) && ClockMoved(s, st)
    ensures MovingRun(s, [st]) && Runs(s, [st]) && After(s, [st]) == Apply(s, st)
  {
    assert [st][1..] == [];
    assert Runs(Apply(s, st), []) && MovingRun(Apply(s, st), []);
  }

  /** Idle with an undelivered config event, last reconciled before `now`. */
  predicate Poised(s: State, now: int) {
    && s.worker.Idle? && s.configNotice && HasKey(s)
    && (s.config.value.status.lastReconciliation.Some? ==> s.config.value.status.lastReconciliation.value < now)
  }

  /** Delivering the event, reconciling and writing at `now` leads to where it started. */
  lemma TurnIsPoised(s: State, now: int)
    requires Poised(s, now)
    ensures Poised(Reconciled(Apply(s, DeliverConfig), now), now + 1)
  {
  }

  lemma ReconcileMoves(s: State, now: int, rest: seq<Step>) returns (steps: seq<Step>)
    requires s.config.Some? && s.worker.Idle? && s.queued && s.config.value.status.lastReconciliation != Some(now)
    requires MovingRun(Reconciled(s, now), rest)
    ensures MovingRun(s, steps) && |steps| == 5 + |rest|
  {
    hide MovingRun, Enabled, Apply, Reconciled;
    ReconcileSteps(s, now);
    var s1 := Apply(s, Pop);
    var s2 := Apply(s1, ReadConfig(true));
    var s3 := Apply(s2, ReadSecret(true));
    var s4 := Apply(s3, RotateClients);
    MovingStep(s4, WriteStatus(true, now), rest);
    steps := [WriteStatus(true, now)] + rest;
    MovingStep(s3, RotateClients, steps);
    steps := [RotateClients] + steps;
    MovingStep(s2, ReadSecret(true), steps);
    steps := [ReadSecret(true)] + steps;
    MovingStep(s1, ReadConfig(true), steps);
    steps := [ReadConfig(true)] + steps;
    MovingStep(s, Pop, steps);
    steps := [Pop] + steps;
  }

  /** From such a state the operator can reconcile n times, once per tick of the clock. */
  lemma {:induction false} TurnsMove(s: State, from: int, n: nat) returns (steps: seq<Step>)
    requires Poised(s, from)
    ensures MovingRun(s, steps) && |steps| == 6 * n
    decreases n
  {
    if n == 0 {
      steps := [];
    } else {
      TurnIsPoised(s, from);
      var rest := TurnsMove(Reconciled(Apply(s, DeliverConfig), from), from + 1, n - 1);
      steps := ReconcileMoves(Apply(s, DeliverConfig), from, rest);
      MovingStep(s, DeliverConfig, steps);
      steps := [DeliverConfig] + steps;
    }
  }

  /** From startup with a good Secret, for every n, a run of 6n working steps, one reconcile per
      tick of the clock, after which the operator has still not come to rest. */
  lemma StartedOperatorChurns(n: nat) returns (steps: seq<Step>)
    ensures var s := InitState(map["creds" := map["api" := "key"]], Spec("creds", "api", "ws", 0), "", "");
            && |steps| == 6 * n && MovingRun(s, steps) && Runs(s, steps) && !AtRest(After(s, steps))
  {
    hide MovingRun;
    var s := InitState(map["creds" := map["api" := "key"]], Spec("creds", "api", "ws", 0), "", "");
    steps := TurnsMove(s, 0, n);
    assert Restless(s);
    NeverRests(s, steps);
  }

  // ----- Without a key, or while the clock stands still, every schedule comes to rest -----

  /** How far the worker is from idle. */
  function Remaining(w: Worker): nat {
    match w
    case Idle => 0
    case HasRotated(_, _) => 1
    case HasSecret(_, _) => 2
    case HasConfig(_) => 3
    case Started => 4
  }

  function NextWorkerStep(w: Worker, now: int): Step
    requires !w.Idle?
  {
    match w
    case HasRotated(_, _) => WriteStatus(true, now)
    case HasSecret(_, _) => RotateClients
    case HasConfig(_) => ReadSecret(true)
    case Started => ReadConfig(true)
  }

  /** Working steps other than the periodic requeue; with a key, all status writes carry `now`. */
  predicate Serves(st: Step, keyed: bool, now: int) {
    Works(st) && !st.Touch? && (keyed && st.WriteStatus? ==> st.now == now)
  }

  /** The status that a fresh reconcile at `now` would write. */
  function Target(s: State, now: int): Status
    requires s.config.Some?
  {
    var c := s.config.value;
    StatusFor(c.spec, SecretNow(s, c.spec), c.status, now)
  }

  /** What the worker has read is not what it would read now. */
  predicate Stale(s: State) {
    match s.worker
    case Idle => false
    case Started => false
    case HasConfig(c) => s.config != Some(c)
    case HasSecret(c, read) => s.config != Some(c) || read != SecretNow(s, c.spec)
    case HasRotated(c, read) => s.config != Some(c) || read != SecretNow(s, c.spec)
  }

  /** An upper bound on the number of steps to rest. */
  function Rank(s: State, now: int): nat
    requires s.config.Some?
  {
    (if Stale(s) then 30 else 0) + (if s.config.value.status != Target(s, now) then 10 else 0)
    + (if s.configNotice then 7 else 0) + 7 * |s.secretNotices| + (if s.queued then 6 else 0) + Remaining(s.worker)
  }

  lemma FreshWriteHitsTarget(s: State, at: int, now: int)
    requires s.config.Some? && s.worker.HasRotated? && (HasKey(s) ==> at == now) && !Stale(s)
    ensures var s' := AfterWrite(s, true, at);
            && s'.config.Some? && s'.config.value.status == Target(s, now) == Target(s', now)
            && s'.configNotice == (s.configNotice || s.config.value.status != Target(s, now))
            && (s'.queued ==> s.queued)
  {
  }

  lemma WriteDescends(s: State, at: int, now: int)
    requires s.config.Some? && s.worker.HasRotated? && (HasKey(s) ==> at == now)
    ensures var s' := AfterWrite(s, true, at);
            s'.config.Some? && Rank(s', now) < Rank(s, now) && HasKey(s') == HasKey(s) && s'.missed == s.missed
  {
    if Stale(s) {
      hide StatusFor, KeyFor, Target;
    } else {
      FreshWriteHitsTarget(s, at, now);
      hide StatusFor, KeyFor, Target;
    }
  }

  /** Delivering and starting: the worker's reads and the objects stay as they are. */
  lemma DeliveryDescends(s: State, st: Step, now: int)
    requires s.config.Some? && Enabled(s, st) && Works(st) && (st.DeliverConfig? || st.DeliverSecret? || st.Pop?)
    ensures var s' := Apply(s, st);
            s'.config == s.config && s'.secrets == s.secrets && Rank(s', now) < Rank(s, now)
  {
    hide KeyFor, StatusFor;
    if st.DeliverSecret? {
      assert |s.secretNotices - {st.secret}| == |s.secretNotices| - 1;
    }
  }

  /** Reading and rotating: what is read is current. */
  lemma ReadingDescends(s: State, st: Step, now: int)
    requires s.config.Some? && Enabled(s, st) && Works(st) && (st.ReadConfig? || st.ReadSecret? || st.RotateClients?)
    ensures var s' := Apply(s, st);
            s'.config == s.config && s'.secrets == s.secrets && Rank(s', now) < Rank(s, now)
  {
    hide KeyFor, StatusFor, ClientsFor;
  }

  lemma ServingStepDescends(s: State, st: Step, keyed: bool, now: int)
    requires s.config.Some? && Enabled(s, st) && Serves(st, keyed, now) && (HasKey(s) ==> keyed)
    ensures Apply(s, st).config.Some? && Rank(Apply(s, st), now) < Rank(s, now)
    ensures HasKey(Apply(s, st)) == HasKey(s) && (!s.missed ==> !Apply(s, st).missed)
  {
    hide Rank, KeyFor, StatusFor, ClientsFor;
    if st.WriteStatus? {
      WriteDescends(s, st.now, now);
    } else if st.DeliverConfig? || st.DeliverSecret? || st.Pop? {
      DeliveryDescends(s, st, now);
    } else {
      ReadingDescends(s, st, now);
    }
  }

  predicate ServingRun(s: State, steps: seq<Step>, keyed: bool, now: int) {
    Runs(s, steps) && forall i :: 0 <= i < |steps| ==> Serves(steps[i], keyed, now)
  }

  ghost predicate Served(s: State, keyed: bool, now: int) {
    forall st :: Enabled(s, st) ==> !Serves(st, keyed, now)
  }

  lemma ServedMeansRest(s: State, keyed: bool, now: int)
    requires Served(s, keyed, now) && s.config.Some?
    ensures AtRest(s)
  {
    if !s.worker.Idle? {
      var st := NextWorkerStep(s.worker, now);
      assert Enabled(s, st) && Serves(st, keyed, now);
    } else {
      assert !Enabled(s, DeliverConfig) && !Enabled(s, Pop);
      assert !Enabled(s, DeliverSecret(s.config.value.spec.secretName, true));
    }
  }

  /** Without edits and with reads, lists and writes working, every schedule ends after at most
      Rank steps, and when nothing is left to do the operator is at rest: without a key always,
      with one as long as the clock reading stays the same. */
  lemma {:induction false} EveryScheduleRests(s: State, steps: seq<Step>, now: int)
    requires s.config.Some? && ServingRun(s, steps, HasKey(s), now)
    ensures |steps| <= Rank(s, now)
    ensures Served(After(s, steps), HasKey(s), now) ==> AtRest(After(s, steps))
    ensures !s.missed ==> !After(s, steps).missed
    decreases |steps|
  {
    hide Enabled, Apply, Rank, HasKey, Serves, Served, AtRest;
    if steps == [] {
      if Served(s, HasKey(s), now) {
        ServedMeansRest(s, HasKey(s), now);
      }
    } else {
      ServingStepDescends(s, steps[0], HasKey(s), now);
      EveryScheduleRests(Apply(s, steps[0]), steps[1..], now);
    }
  }

  /** Working steps whose status writes all carry the one time `now`. */
  predicate Operates(st: Step, now: int) {
    Works(st) && (st.WriteStatus? ==> st.now == now)
  }

  predicate OperatesTo(s: State, steps: seq<Step>, now: int, s': State) {
    && Runs(s, steps) && After(s, steps) == s'
    && forall i :: 0 <= i < |steps| ==> Operates(steps[i], now)
  }

  ghost predicate Leads(s: State, now: int, s': State) {
    exists steps :: OperatesTo(s, steps, now, s')
  }

  lemma LeadsNowhere(s: State, now: int)
    ensures Leads(s, now, s)
  {
    assert OperatesTo(s, [], now, s);
  }

  lemma LeadsByStep(s: State, st: Step, now: int, s': State)
    requires Enabled(s, st) && Operates(st, now) && Leads(Apply(s, st), now, s')
    ensures Leads(s, now, s')
  {
    var steps :| OperatesTo(Apply(s, st), steps, now, s');
    assert ([st] + steps)[1..] == steps;
    assert OperatesTo(s, [st] + steps, now, s');
  }

  /** A missed event or a revoked key has a reconcile ahead that makes up for it. */
  predicate Repaired(s: State) {
    && (s.missed ==> s.queued)
    && (s.revoked ==> s.queued || Remaining(s.worker) >= 2)
  }

  lemma ServingStepRepairs(s: State, st: Step, now: int)
    requires s.config.Some? && Repaired(s) && Enabled(s, st) && Serves(st, true, now)
    ensures var s' := Apply(s, st);
            Repaired(s') && s'.secrets == s.secrets && s'.config.Some? && s'.config.value.spec == s.config.value.spec
  {
  }

  lemma ServedAndRepaired(s: State, now: int)
    requires s.config.Some? && Repaired(s) && Served(s, true, now)
    ensures Quiet(s) && s.secretNotices == {} && !s.revoked
  {
    assert !Enabled(s, Pop) || !s.worker.Idle?;
    if !s.worker.Idle? {
      var st := NextWorkerStep(s.worker, now);
      assert Enabled(s, st) && Serves(st, true, now);
    } else {
      ServedMeansRest(s, true, now);
      forall name | name in s.secretNotices
        ensures false
      {
        assert Enabled(s, DeliverSecret(name, true));
      }
    }
  }

  lemma {:induction false} RepairedLeadsToRest(s: State, now: int) returns (s': State)
    requires s.config.Some? && Repaired(s)
    ensures Leads(s, now, s') && Quiet(s') && s'.secretNotices == {} && !s'.revoked
    ensures s'.secrets == s.secrets && s'.config.Some? && s'.config.value.spec == s.config.value.spec
    decreases Rank(s, now)
  {
    hide Leads, Enabled, Apply, Rank, Repaired, Quiet;
    if Served(s, true, now) {
      s' := s;
      LeadsNowhere(s, now);
      ServedAndRepaired(s, now);
    } else {
      var st :| Enabled(s, st) && Serves(st, true, now);
      ServingStepDescends(s, st, true, now);
      ServingStepRepairs(s, st, now);
      s' := RepairedLeadsToRest(Apply(s, st), now);
      LeadsByStep(s, st, now, s');
    }
  }

  /** From every state with a config, without further edits, with reads, lists and writes
      working and all status writes at one clock reading, a requeue leads the operator to rest;
      there QuietMeansConverged applies. NeverRests shows that the clock reading cannot be
      dropped. */
  lemma OperatorCanComeToRest(s: State, now: int) returns (s': State)
    requires s.config.Some?
    ensures Leads(s, now, s') && Quiet(s') && s'.secretNotices == {} && !s'.revoked
    ensures s'.secrets == s.secrets && s'.config.Some? && s'.config.value.spec == s.config.value.spec
  {
    hide Leads;
    s' := RepairedLeadsToRest(Apply(s, Touch), now);
    LeadsByStep(s, Touch, now, s');
  }

  /** A second reconcile at the same time writes the same status, so it causes no event. */
  lemma ReconcileIsIdempotent(s: State, now: int)
    requires s.config.Some? && !s.configNotice
    ensures var r := Reconciled(s, now);
            Reconciled(r.(configNotice := false, queued := true), now)
            == r.(configNotice := false, config := Some(r.config.value.(version := r.config.value.version + 1)))
  {
  }

  // ----- What a failed list costs -----

  lemma {:induction false} RunSnoc(s: State, steps: seq<Step>, st: Step)
    requires Runs(s, steps) && Enabled(After(s, steps), st)
    ensures Runs(s, steps + [st]) && After(s, steps + [st]) == Apply(After(s, steps), st)
    decreases |steps|
  {
    if steps == [] {
      assert [st][1..] == [];
      assert steps + [st] == [st];
    } else {
      RunSnoc(Apply(s, steps[0]), steps[1..], st);
      assert (steps + [st])[1..] == steps[1..] + [st];
    }
  }

  lemma ReachableStep(s: State, st: Step)
    requires Reachable(s) && Enabled(s, st)
    ensures Reachable(Apply(s, st))
  {
    var secrets, spec, key, workspace, steps :|
      && Runs(InitState(secrets, spec, key, workspace), steps)
      && s == After(InitState(secrets, spec, key, workspace), steps);
    RunSnoc(InitState(secrets, spec, key, workspace), steps, st);
  }

  lemma {:induction false} ReachableRun(s: State, steps: seq<Step>)
    requires Reachable(s) && Runs(s, steps)
    ensures Reachable(After(s, steps))
    decreases |steps|
  {
    if steps == [] {
    } else {
      ReachableStep(s, steps[0]);
      ReachableRun(Apply(s, steps[0]), steps[1..]);
    }
  }

  lemma StartIsReachable(secrets: map<string, map<string, string>>, spec: Spec, key: string, workspace: string)
    ensures Reachable(InitState(secrets, spec, key, workspace))
  {
    var s := InitState(secrets, spec, key, workspace);
    assert Runs(s, []) && After(s, []) == s;
  }

  lemma RestIsReachable(s: State, now: int, s': State)
    requires Reachable(s) && Leads(s, now, s')
    ensures Reachable(s')
  {
    hide Reachable;
    var steps :| OperatesTo(s, steps, now, s');
    ReachableRun(s, steps);
  }

  /** A Secret event lost to a failed list can leave the old key in use at rest. */
  lemma FailedListLeavesStaleKey() returns (s: State)
    ensures Reachable(s) && s.config.Some? && AtRest(s) && !s.revoked && s.missed && !Converged(s)
    ensures s.clients.ingest == Http("old") && KeyFor(s.config.value.spec, SecretNow(s, s.config.value.spec)) == "new"
  {
    hide Reachable;
    var spec := Spec("creds", "api", "ws", 0);
    var s0 := InitState(map["creds" := map["api" := "old"]], spec, "", "");
    StartIsReachable(map["creds" := map["api" := "old"]], spec, "", "");
    var rest := OperatorCanComeToRest(s0, 1);
    RestIsReachable(s0, 1, rest);
    QuietMeansConverged(rest);
    var edited := Apply(rest, EditSecret("creds", Some(map["api" := "new"])));
    ReachableStep(rest, EditSecret("creds", Some(map["api" := "new"])));
    s := Apply(edited, DeliverSecret("creds", false));
    ReachableStep(edited, DeliverSecret("creds", false));
  }

  lemma ReachableReconcile(s: State, now: int)
    requires Reachable(s) && s.config.Some? && s.worker.Idle? && s.queued
    ensures Reachable(Reconciled(s, now))
  {
    hide Reachable, Enabled, Apply, Reconciled;
    ReconcileSteps(s, now);
    var s1 := Apply(s, Pop);
    ReachableStep(s, Pop);
    var s2 := Apply(s1, ReadConfig(true));
    ReachableStep(s1, ReadConfig(true));
    var s3 := Apply(s2, ReadSecret(true));
    ReachableStep(s2, ReadSecret(true));
    var s4 := Apply(s3, RotateClients);
    ReachableStep(s3, RotateClients);
    ReachableStep(s4, WriteStatus(true, now));
  }

  /** A request, the reads that find no Secret, then the Secret, whose event is lost. */
  lemma SecretArrivesUnseen(s: State) returns (s': State)
    requires Reachable(s) && s.worker.Idle? && s.queued && !s.configNotice && s.secrets == map[] && s.secretNotices == {}
    requires s.config.Some? && s.config.value.spec == Spec("creds", "api", "ws", 0)
    ensures Reachable(s') && s'.worker == HasSecret(s.config.value, Missing) && s'.config == s.config
    ensures s'.secrets == map["creds" := map["api" := "key"]] && s'.secretNotices == {}
    ensures !s'.queued && !s'.configNotice && s'.missed
  {
    hide Reachable;
    var s1 := Apply(s, Pop);
    ReachableStep(s, Pop);
    var s2 := Apply(s1, ReadConfig(true));
    ReachableStep(s1, ReadConfig(true));
    var s3 := Apply(s2, ReadSecret(true));
    ReachableStep(s2, ReadSecret(true));
    var s4 := Apply(s3, EditSecret("creds", Some(map["api" := "key"])));
    ReachableStep(s3, EditSecret("creds", Some(map["api" := "key"])));
    s' := Apply(s4, DeliverSecret("creds", false));
    ReachableStep(s4, DeliverSecret("creds", false));
  }

  /** A second reconcile that read no Secret, then the key arrives and its event is lost: the
      operator comes to rest although a key is present and no write repeats a time. */
  lemma LostEventAllowsRest() returns (s: State, steps: seq<Step>)
    ensures Reachable(s) && Inv(s) && HasKey(s) && s.missed && !AtRest(s)
    ensures MovingRun(s, steps) && Runs(s, steps) && AtRest(After(s, steps))
  {
    hide Reachable, Inv;
    var spec := Spec("creds", "api", "ws", 0);
    var s0 := InitState(map[], spec, "", "");
    StartIsReachable(map[], spec, "", "");
    ReachableStep(s0, DeliverConfig);
    var degraded := Reconciled(Apply(s0, DeliverConfig), 1);
    ReachableReconcile(Apply(s0, DeliverConfig), 1);
    ReachableStep(degraded, DeliverConfig);
    s := SecretArrivesUnseen(Apply(degraded, DeliverConfig));
    ReachableInv(s);
    var rotated := Apply(s, RotateClients);
    JustMoves(rotated, WriteStatus(true, 7));
    MovingStep(s, RotateClients, [WriteStatus(true, 7)]);
    steps := [RotateClients] + [WriteStatus(true, 7)];
    assert steps[1..] == [WriteStatus(true, 7)];
  }
}
