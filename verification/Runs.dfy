/** Runs of notifications about one object: an add, then updates, each dispatched against the
object seen before. The store read by the resolver may differ at every notification. */
module Runs {
  import opened Sequences
  import opened Text
  import opened Wire
  import opened Identity
  import opened Mapper

  datatype Observation = Observation(store: Store, obj: Watched)

  function Previous(obs: seq<Observation>, i: nat): Option<Watched>
    requires i < |obs|
  {
    if i == 0 then None else Some(obs[i - 1].obj)
  }

  function StepResult(obs: seq<Observation>, i: nat): Mapped
    requires i < |obs|
  {
    Dispatch(obs[i].store, Previous(obs, i), Some(obs[i].obj))
  }

  /** An error drops the whole notification. */
  function EventsOf(m: Mapped): seq<Event> {
    if m.MapFailed? then [] else m.events
  }

  function RunEvents(obs: seq<Observation>): seq<Event> {
    if obs == [] then []
    else RunEvents(obs[..|obs| - 1]) + EventsOf(StepResult(obs, |obs| - 1))
  }

  lemma PrefixSteps(obs: seq<Observation>, n: nat)
    requires n <= |obs|
    ensures forall i :: 0 <= i < n ==> StepResult(obs[..n], i) == StepResult(obs, i)
  {
    assert forall i :: 0 <= i < n ==> obs[..n][i] == obs[i];
  }

  // ----- Resyncs -----

  lemma RevisionLessIrreflexive(a: string)
    ensures !RevisionLess(a, a)
  {
    LexLessIrreflexive(a);
  }

  lemma RepeatedDeploymentIsQuiet(id: string, d: Deployment)
    ensures DeployEvents(id, Some(d), d) == []
  {
    RevisionLessIrreflexive(Lookup(d.annotations, REVISION));
  }

  lemma {:induction false} RepeatedNodeIsQuiet(n: Node, whats: seq<string>)
    ensures PressureEvents(Some(n), n, whats) == []
  {
    if whats == [] {
    } else {
      RepeatedNodeIsQuiet(n, whats[..|whats| - 1]);
    }
  }

  lemma RepeatIsQuiet(store: Store, x: Watched)
    ensures EventsOf(Dispatch(store, Some(x), Some(x))) == []
  {
    match x
    case OfDeployment(d) =>
      forall id {
        RepeatedDeploymentIsQuiet(id, d);
      }
    case OfNode(n) => RepeatedNodeIsQuiet(n, PRESSURES + [NOT_READY]);
    case _ =>
  }

  /** The run without the notifications that repeat the object before them. */
  function Destutter(obs: seq<Observation>): seq<Observation> {
    if |obs| <= 1 then obs
    else
      var n := |obs| - 1;
      if obs[n].obj == obs[n - 1].obj then Destutter(obs[..n]) else Destutter(obs[..n]) + [obs[n]]
  }

  lemma {:induction false} DestutterKeepsLast(obs: seq<Observation>)
    requires obs != []
    ensures Destutter(obs) != [] && Destutter(obs)[|Destutter(obs)| - 1].obj == obs[|obs| - 1].obj
  {
    if |obs| <= 1 {
    } else {
      DestutterKeepsLast(obs[..|obs| - 1]);
    }
  }

  /** What a run emits depends only on the run without repetitions. */
  lemma {:induction false} StutterInsensitive(obs: seq<Observation>)
    ensures RunEvents(obs) == RunEvents(Destutter(obs))
  {
    if |obs| <= 1 {
    } else {
      var n := |obs| - 1;
      var init, short := obs[..n], Destutter(obs[..n]);
      StutterInsensitive(init);
      DestutterKeepsLast(init);
      if obs[n].obj == obs[n - 1].obj {
        RepeatIsQuiet(obs[n].store, obs[n].obj);
      } else {
        assert (short + [obs[n]])[..|short|] == short;
        assert StepResult(short + [obs[n]], |short|) == StepResult(obs, n);
      }
    }
  }

  lemma DestutterSnoc(obs: seq<Observation>, o: Observation)
    requires obs != []
    ensures Destutter(obs + [o]) == if o.obj == obs[|obs| - 1].obj then Destutter(obs) else Destutter(obs) + [o]
  {
    assert (obs + [o])[..|obs|] == obs;
  }

  lemma {:induction false} DestutterDropsInserted(pre: seq<Observation>, x: Observation, r: Observation, post: seq<Observation>)
    requires r.obj == x.obj
    ensures Destutter(pre + [x] + [r] + post) == Destutter(pre + [x] + post)
  {
    hide Destutter;
    if post == [] {
      assert pre + [x] + [r] + post == pre + [x] + [r] && pre + [x] + post == pre + [x];
      DestutterSnoc(pre + [x], r);
    } else {
      var init, o := post[..|post| - 1], post[|post| - 1];
      DestutterDropsInserted(pre, x, r, init);
      var a, b := pre + [x] + [r] + init, pre + [x] + init;
      assert pre + [x] + [r] + post == a + [o] && pre + [x] + post == b + [o];
      assert a[|a| - 1].obj == b[|b| - 1].obj;
      DestutterSnoc(a, o);
      DestutterSnoc(b, o);
    }
  }

  /** Inserting a resync (x, x) anywhere, under any store, changes nothing that is emitted. */
  lemma ResyncChangesNothing(pre: seq<Observation>, x: Observation, r: Observation, post: seq<Observation>)
    requires r.obj == x.obj
    ensures RunEvents(pre + [x] + [r] + post) == RunEvents(pre + [x] + post)
  {
    DestutterDropsInserted(pre, x, r, post);
    StutterInsensitive(pre + [x] + [r] + post);
    StutterInsensitive(pre + [x] + post);
  }

  // ----- Edges -----

  /** Each value that differs from the one before it, the first one compared with `from`. */
  function Compress<T(==)>(xs: seq<T>, from: T): seq<T> {
    if xs == [] then []
    else
      var n := |xs| - 1;
      var before := if n == 0 then from else xs[n - 1];
      if xs[n] == before then Compress(xs[..n], from) else Compress(xs[..n], from) + [xs[n]]
  }

  function LastOr<T>(xs: seq<T>, default: T): T {
    if xs == [] then default else xs[|xs| - 1]
  }

  lemma {:induction false} CompressKeepsLast<T>(xs: seq<T>, from: T)
    ensures LastOr(Compress(xs, from), from) == LastOr(xs, from)
  {
    if xs == [] {
    } else {
      CompressKeepsLast(xs[..|xs| - 1], from);
    }
  }

  function CountTrue(marks: seq<bool>): nat {
    if marks == [] then 0 else CountTrue(marks[..|marks| - 1]) + if marks[|marks| - 1] then 1 else 0
  }

  /** Positions that are true while the one before is not; the first counts when true. */
  function Rising(flags: seq<bool>): seq<bool> {
    seq(|flags|, i requires 0 <= i < |flags| => flags[i] && (i == 0 || !flags[i - 1]))
  }

  function StepEvents(obs: seq<Observation>): seq<seq<Event>> {
    seq(|obs|, i requires 0 <= i < |obs| => EventsOf(StepResult(obs, i)))
  }

  lemma {:induction false} RunEventsConcat(obs: seq<Observation>)
    ensures RunEvents(obs) == Concat(StepEvents(obs))
  {
    hide StepResult;
    if obs == [] {
    } else {
      var n := |obs| - 1;
      RunEventsConcat(obs[..n]);
      PrefixSteps(obs, n);
      assert StepEvents(obs)[..n] == StepEvents(obs[..n]);
    }
  }

  /** Event number i of the run was emitted by notification a. */
  predicate EmittedAt(obs: seq<Observation>, i: nat, a: nat) {
    a < |obs| && |RunEvents(obs[..a])| <= i < |RunEvents(obs[..a + 1])|
  }

  lemma {:induction false} EventHasStep(obs: seq<Observation>, i: nat) returns (a: nat)
    requires i < |RunEvents(obs)|
    ensures EmittedAt(obs, i, a)
    ensures var at, events := i - |RunEvents(obs[..a])|, EventsOf(StepResult(obs, a));
            at < |events| && events[at] == RunEvents(obs)[i]
  {
    hide StepResult;
    var n := |obs| - 1;
    if i >= |RunEvents(obs[..n])| {
      a := n;
      assert obs[..n + 1] == obs;
    } else {
      a := EventHasStep(obs[..n], i);
      PrefixSteps(obs, n);
      assert obs[..n][..a] == obs[..a] && obs[..n][..a + 1] == obs[..a + 1];
    }
  }

  lemma {:induction false} RunEventsGrow(obs: seq<Observation>, a: nat, b: nat)
    requires a <= b <= |obs|
    ensures |RunEvents(obs[..a])| <= |RunEvents(obs[..b])|
  {
    hide StepResult;
    if a == b {
    } else {
      RunEventsGrow(obs, a, b - 1);
      assert obs[..b][..b - 1] == obs[..b - 1];
    }
  }

  function OfKind(kind: string): Event -> bool {
    (ev: Event) => ev.kind == kind
  }

  predicate LosesMark(marks: seq<bool>, lost: seq<bool>) {
    exists i :: 0 <= i < |marks| && i < |lost| && marks[i] && lost[i]
  }

  lemma LosesMarkSnoc(marks: seq<bool>, lost: seq<bool>)
    requires |marks| == |lost| && marks != []
    ensures var n := |marks| - 1;
            LosesMark(marks, lost) <==> LosesMark(marks[..n], lost[..n]) || (marks[n] && lost[n])
  {
    var n := |marks| - 1;
    if LosesMark(marks[..n], lost[..n]) {
      var i :| 0 <= i < n && marks[..n][i] && lost[..n][i];
      assert marks[i] && lost[i];
    }
    if LosesMark(marks, lost) {
      var i :| 0 <= i < |marks| && marks[i] && lost[i];
      if i < n {
        assert marks[..n][i] && lost[..n][i];
      }
    }
  }

  /** When every step emits one matching event exactly if it is marked and not lost, the whole
      emits one per mark exactly when no marked step is lost. */
  lemma {:induction false} CountsMarksIff<T>(steps: seq<seq<T>>, marks: seq<bool>, lost: seq<bool>, p: T -> bool)
    requires |steps| == |marks| == |lost|
    requires forall i: nat :: i < |steps| ==> CountWhere(p, steps[i]) == if marks[i] && !lost[i] then 1 else 0
    ensures CountWhere(p, Concat(steps)) <= CountTrue(marks)
    ensures CountWhere(p, Concat(steps)) == CountTrue(marks) <==> !LosesMark(marks, lost)
  {
    if steps == [] {
    } else {
      var n := |steps| - 1;
      CountsMarksIff(steps[..n], marks[..n], lost[..n], p);
      CountWhereAppend(p, Concat(steps[..n]), steps[n]);
      LosesMarkSnoc(marks, lost);
    }
  }

  /** The values `f` reads off the events, in order. */
  function Extract<T>(f: Event -> Option<T>, events: seq<Event>): seq<T> {
    if events == [] then []
    else
      var rest := Extract(f, events[..|events| - 1]);
      match f(events[|events| - 1])
      case Some(x) => rest + [x]
      case None => rest
  }

  lemma {:induction false} ExtractAppend<T>(f: Event -> Option<T>, a: seq<Event>, b: seq<Event>)
    ensures Extract(f, a + b) == Extract(f, a) + Extract(f, b)
  {
    if b == [] {
      assert a + b == a;
    } else {
      ExtractAppend(f, a, b[..|b| - 1]);
      assert (a + b)[..|a + b| - 1] == a + b[..|b| - 1];
    }
  }

  lemma ExtractSingle<T>(f: Event -> Option<T>, ev: Event)
    ensures Extract(f, [ev]) == match f(ev) case Some(x) => [x] case None => []
  {
    var one := [ev];
    assert one[..|one| - 1] == [];
    assert Extract(f, one[..|one| - 1]) == [];
  }

  predicate Changes<T(==)>(xs: seq<T>, from: T, i: nat)
    requires i < |xs|
  {
    xs[i] != if i == 0 then from else xs[i - 1]
  }

  function ExtractEach<T>(f: Event -> Option<T>, steps: seq<seq<Event>>): seq<seq<T>> {
    seq(|steps|, i requires 0 <= i < |steps| => Extract(f, steps[i]))
  }

  lemma {:induction false} ExtractConcat<T>(f: Event -> Option<T>, steps: seq<seq<Event>>)
    ensures Extract(f, Concat(steps)) == Concat(ExtractEach(f, steps))
  {
    if steps == [] {
    } else {
      var n := |steps| - 1;
      ExtractConcat(f, steps[..n]);
      ExtractAppend(f, Concat(steps[..n]), steps[n]);
      assert ExtractEach(f, steps)[..n] == ExtractEach(f, steps[..n]);
    }
  }

  /** Step i contributes its value exactly when the value changed and the step was not lost. */
  predicate ReportsChanges<T(==)>(values: seq<seq<T>>, xs: seq<T>, from: T, lost: seq<bool>) {
    && |values| == |xs| == |lost|
    && forall i: nat {:trigger values[i]} :: i < |xs| ==> values[i] == if Changes(xs, from, i) && !lost[i] then [xs[i]] else []
  }

  lemma CompressPrefix<T>(xs: seq<T>, from: T, n: nat)
    requires n < |xs|
    ensures Compress(xs[..n + 1], from) == Compress(xs[..n], from) + if Changes(xs, from, n) then [xs[n]] else []
  {
    assert xs[..n + 1][..n] == xs[..n];
  }

  lemma {:induction false} ReportsNoMore<T>(values: seq<seq<T>>, xs: seq<T>, from: T, lost: seq<bool>, n: nat)
    requires ReportsChanges(values, xs, from, lost) && n <= |xs|
    ensures |Concat(values[..n])| <= |Compress(xs[..n], from)|
  {
    if n == 0 {
    } else {
      ReportsNoMore(values, xs, from, lost, n - 1);
      ConcatPrefix(values, n - 1);
      CompressPrefix(xs, from, n - 1);
    }
  }

  lemma {:induction false} LostChangeShortens<T>(values: seq<seq<T>>, xs: seq<T>, from: T, lost: seq<bool>, i: nat, n: nat)
    requires ReportsChanges(values, xs, from, lost) && i < n <= |xs| && lost[i] && Changes(xs, from, i)
    ensures |Concat(values[..n])| < |Compress(xs[..n], from)|
  {
    hide Concat, Compress, Changes;
    assert values[n - 1] == if Changes(xs, from, n - 1) && !lost[n - 1] then [xs[n - 1]] else [];
    ConcatPrefix(values, n - 1);
    CompressPrefix(xs, from, n - 1);
    if i == n - 1 {
      ReportsNoMore(values, xs, from, lost, n - 1);
    } else {
      LostChangeShortens(values, xs, from, lost, i, n - 1);
    }
  }

  predicate LosesChange<T(==)>(xs: seq<T>, from: T, lost: seq<bool>)
    requires |lost| == |xs|
  {
    exists i: nat {:trigger lost[i]} :: i < |xs| && lost[i] && Changes(xs, from, i)
  }

  lemma {:induction false} ReportedIsCompressed<T>(values: seq<seq<T>>, xs: seq<T>, from: T, lost: seq<bool>, n: nat)
    requires ReportsChanges(values, xs, from, lost) && !LosesChange(xs, from, lost) && n <= |xs|
    ensures Concat(values[..n]) == Compress(xs[..n], from)
  {
    if n == 0 {
    } else {
      ReportedIsCompressed(values, xs, from, lost, n - 1);
      ConcatPrefix(values, n - 1);
      CompressPrefix(xs, from, n - 1);
    }
  }

  /** The reported values are the compressed values exactly when no changing step was lost. */
  lemma ReportedIsCompressedIff<T>(f: Event -> Option<T>, steps: seq<seq<Event>>, xs: seq<T>, from: T, lost: seq<bool>)
    requires ReportsChanges(ExtractEach(f, steps), xs, from, lost)
    ensures Extract(f, Concat(steps)) == Compress(xs, from) <==> !LosesChange(xs, from, lost)
  {
    ExtractConcat(f, steps);
    var values, n := ExtractEach(f, steps), |xs|;
    assert values[..n] == values && xs[..n] == xs;
    if LosesChange(xs, from, lost) {
      var i: nat :| i < |xs| && lost[i] && Changes(xs, from, i);
      LostChangeShortens(values, xs, from, lost, i, n);
    } else {
      ReportedIsCompressed(values, xs, from, lost, n);
    }
  }
}
