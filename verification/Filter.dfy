/** The severity floor with its always-pass kinds. */
module Filter {
  import opened Sequences
  import opened Wire

  const LEVEL_TRACE := 0
  const LEVEL_DEBUG := 1
  const LEVEL_INFO := 2
  const LEVEL_WARNING := 3
  const LEVEL_ERROR := 4
  const LEVEL_FATAL := 5

  function ParseSeverity(s: string): int {
    if s == TRACE then LEVEL_TRACE
    else if s == DEBUG then LEVEL_DEBUG
    else if s == INFO then LEVEL_INFO
    else if s == WARNING then LEVEL_WARNING
    else if s == ERROR then LEVEL_ERROR
    else if s == FATAL then LEVEL_FATAL
    else LEVEL_WARNING
  }

  predicate IsTier1(kind: string) {
    kind in {POD_CRASH, OOM_KILL, EVICTION, SCHEDULE_FAIL, IMAGE_PULL_FAIL, NODE_PRESSURE, HPA_SCALE}
  }

  predicate Accept(minSeverity: int, ev: Event) {
    || DomainOf(ev.kind) == Deploying
    || IsTier1(ev.kind)
    || ParseSeverity(ev.severity) >= minSeverity
  }

  function Acceptor(minSeverity: int): Event -> bool {
    ev => Accept(minSeverity, ev)
  }

  /** The accepted events, in order. */
  function Accepted(minSeverity: int, events: seq<Event>): seq<Event> {
    Keep(Acceptor(minSeverity), events)
  }

  lemma AcceptedPrefix(minSeverity: int, events: seq<Event>, i: nat)
    requires i < |events|
    ensures Accepted(minSeverity, events[..i + 1]) ==
            Accepted(minSeverity, events[..i]) + if Accept(minSeverity, events[i]) then [events[i]] else []
  {
    hide Accept;
    assert events[..i + 1][..i] == events[..i];
  }

  lemma NothingAccepted(minSeverity: int)
    ensures Accepted(minSeverity, []) == []
  {
  }

  lemma Tier1IsAccepted(minSeverity: int, ev: Event)
    ensures IsTier1(ev.kind) ==> Accept(minSeverity, ev)
  {
  }

  /** `picks` lists, in increasing order, positions of `whole` that spell out `part`. */
  ghost predicate Picks<T>(picks: seq<nat>, part: seq<T>, whole: seq<T>) {
    && |picks| == |part|
    && (forall i :: 0 <= i < |picks| ==> picks[i] < |whole| && part[i] == whole[picks[i]])
    && (forall i, j :: 0 <= i < j < |picks| ==> picks[i] < picks[j])
  }

  ghost predicate Subsequence<T>(part: seq<T>, whole: seq<T>) {
    exists picks: seq<nat> :: Picks(picks, part, whole)
  }

  lemma PicksSkip<T>(picks: seq<nat>, part: seq<T>, whole: seq<T>, x: T)
    requires Picks(picks, part, whole)
    ensures Picks(picks, part, whole + [x])
  {
  }

  lemma PicksKeep<T>(picks: seq<nat>, part: seq<T>, whole: seq<T>, x: T)
    requires Picks(picks, part, whole)
    ensures Picks(picks + [|whole|], part + [x], whole + [x])
  {
  }

  /** The kept elements are those at exactly the satisfying positions, in their order. */
  lemma {:induction false} KeepExactly<T>(p: T -> bool, xs: seq<T>) returns (picks: seq<nat>)
    ensures Picks(picks, Keep(p, xs), xs)
    ensures forall i: nat :: i < |xs| ==> (i in picks <==> p(xs[i]))
  {
    if xs == [] {
      picks := [];
    } else {
      var n := |xs| - 1;
      var init, x := xs[..n], xs[n];
      assert xs == init + [x];
      picks := KeepExactly(p, init);
      assert n !in picks;
      if p(x) {
        PicksKeep(picks, Keep(p, init), init, x);
        picks := picks + [n];
      } else {
        PicksSkip(picks, Keep(p, init), init, x);
      }
    }
  }

  lemma {:induction false} StrongerKeepsLess<T(!new)>(p: T -> bool, q: T -> bool, xs: seq<T>)
    requires forall x :: q(x) ==> p(x)
    ensures Subsequence(Keep(q, xs), Keep(p, xs))
    ensures Keep(q, Keep(p, xs)) == Keep(q, xs)
  {
    if xs == [] {
      assert Picks([], Keep(q, xs), Keep(p, xs));
    } else {
      var init, x := xs[..|xs| - 1], xs[|xs| - 1];
      StrongerKeepsLess(p, q, init);
      var part, whole := Keep(q, init), Keep(p, init);
      var picks: seq<nat> :| Picks(picks, part, whole);
      if p(x) {
        assert (whole + [x])[..|whole|] == whole;
        if q(x) {
          PicksKeep(picks, part, whole, x);
        } else {
          PicksSkip(picks, part, whole, x);
        }
      }
    }
  }

  /** Raising the threshold only removes events. */
  lemma HigherThresholdShrinks(low: int, high: int, events: seq<Event>)
    requires low <= high
    ensures Subsequence(Accepted(high, events), Accepted(low, events))
    ensures Accepted(high, Accepted(low, events)) == Accepted(high, events)
  {
    StrongerKeepsLess(Acceptor(low), Acceptor(high), events);
  }

  /** Mildest first. */
  const SEVERITIES: seq<string> := [TRACE, DEBUG, INFO, WARNING, ERROR, FATAL]

  lemma SeveritiesDiffer()
    ensures forall i, j :: 0 <= i < j < |SEVERITIES| ==> SEVERITIES[i] != SEVERITIES[j]
  {
    assert TRACE[0] == 't' && DEBUG[0] == 'd' && INFO[0] == 'i' && WARNING[0] == 'w' && ERROR[0] == 'e' && FATAL[0] == 'f';
  }

  lemma LevelIsPosition(s: string, i: nat)
    requires i < |SEVERITIES| && if s in SEVERITIES then s == SEVERITIES[i] else SEVERITIES[i] == WARNING
    ensures ParseSeverity(s) == i
  {
    SeveritiesDiffer();
    if s !in SEVERITIES {
      assert i == 3;
      assert s != SEVERITIES[0] && s != SEVERITIES[1] && s != SEVERITIES[2] && s != SEVERITIES[4] && s != SEVERITIES[5];
    }
  }

  /** A named severity passes a named threshold exactly when it is not milder, and an unknown
      name on either side counts as a warning; always-pass kinds aside. */
  lemma ThresholdByName(ev: Event, i: nat, minimum: string, j: nat)
    requires DomainOf(ev.kind) != Deploying && !IsTier1(ev.kind) && i < |SEVERITIES| && j < |SEVERITIES|
    requires if ev.severity in SEVERITIES then ev.severity == SEVERITIES[i] else SEVERITIES[i] == WARNING
    requires if minimum in SEVERITIES then minimum == SEVERITIES[j] else SEVERITIES[j] == WARNING
    ensures Accept(ParseSeverity(minimum), ev) <==> j <= i
  {
    hide DomainOf, IsTier1;
    SeveritiesDiffer();
    LevelIsPosition(ev.severity, i);
    LevelIsPosition(minimum, j);
  }

  /** The domain of every kind with one of the four known prefixes. */
  lemma DomainByPrefix(rest: string)
    ensures DomainOf("K8S_" + rest) == DomainOf("CLOUD_" + rest) == Infrastructure
    ensures DomainOf("DEPLOY_" + rest) == Deploying
    ensures DomainOf("INCIDENT_" + rest) == Incident
  {
    assert ("K8S_" + rest)[..4] == "K8S_" && ("CLOUD_" + rest)[..6] == "CLOUD_";
    var d, i := "DEPLOY_" + rest, "INCIDENT_" + rest;
    assert d[..7] == "DEPLOY_" && d[0] == 'D' && i[..9] == "INCIDENT_" && i[0] == 'I';
    assert "K8S_"[0] == 'K' && "CLOUD_"[0] == 'C' && "DEPLOY_"[0] == 'D';
  }

  lemma DeployKindsHaveDeployDomain(kind: string)
    requires kind in {DEPLOY_STARTED, DEPLOY_SUCCEEDED, DEPLOY_FAILED, DEPLOY_CANCELLED, DEPLOY_ROLLED_BACK}
    ensures DomainOf(kind) == Deploying
  {
    assert kind[..7] == "DEPLOY_";
    assert kind[..4] == "DEPL" && kind[..6] == "DEPLOY";
  }

  lemma LifecycleKindsAreInfrastructure(kind: string)
    requires kind in {POD_STARTED, POD_TERMINATED, DEPLOY_ROLLOUT}
    ensures DomainOf(kind) == Infrastructure && !IsTier1(kind) && SeverityForKind(kind) == INFO
  {
    assert kind[..4] == "K8S_";
  }

  /** For events with the severity the mappers assign, the filter only ever silences pod
      lifecycle and rollout progress, and it does so exactly above the info level. */
  lemma MappedEventPasses(minSeverity: int, ev: Event)
    requires ev.severity == SeverityForKind(ev.kind) && ev.kind in MAPPED_KINDS
    ensures Accept(minSeverity, ev) <==>
            minSeverity <= LEVEL_INFO || ev.kind !in {POD_STARTED, POD_TERMINATED, DEPLOY_ROLLOUT}
  {
    if ev.kind in {POD_STARTED, POD_TERMINATED, DEPLOY_ROLLOUT} {
      LifecycleKindsAreInfrastructure(ev.kind);
    } else if !IsTier1(ev.kind) {
      DeployKindsHaveDeployDomain(ev.kind);
    }
  }
}
