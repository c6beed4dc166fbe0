/** Any number of enqueuers and the one flush loop, interleaved step by step.

Taking the mutex, touching the buffer, releasing the mutex, the non-blocking send and
the receive are separate steps, so every interleaving of the goroutines is a run here. */
module BatcherProtocol {
  import opened Sequences
  import opened Wire
  import opened Batching

  datatype Enqueuer =
    | Idle
    | Calling(events: seq<Event>)     // before mu.Lock
    | Admitting(events: seq<Event>)   // holds mu, has not looked at the buffer
    | Appended(size: nat)             // holds mu, events appended
    | Signalling(size: nat)           // mu released, size not yet compared with the threshold
    | Shedding(count: nat)            // mu released after finding the buffer full, drops not yet counted

  datatype Flusher =
    | Selecting
    | Committed(drain: bool)                       // a select case was taken, before mu.Lock
    | Inspecting(drain: bool)                      // holds mu
    | Swapped(drain: bool, batch: seq<Event>)      // holds mu, buffer replaced
    | Sending(drain: bool, batch: seq<Event>)      // mu released, request in flight
    | Stopped                                      // Start returned

  datatype Holder = Nobody | EnqueuerHolds(id: nat) | FlusherHolds

  datatype Call = Call(caller: nat, offered: seq<Event>, admitted: seq<Event>)

  datatype Request = Request(caller: nat, events: seq<Event>)

  datatype Outcome = Outcome(batch: seq<Event>, delivered: bool)

  datatype State = State(
    maxBatch: nat,
    holder: Holder,
    buffer: seq<Event>,
    token: bool,
    cancelled: bool,
    enqueuers: seq<Enqueuer>,
    flusher: Flusher,
    dropped: nat,             // the buffer_full counter
    // History: never read by the goroutines.
    requests: seq<Request>,   // non-empty Enqueue calls in the order they were made
    calls: seq<Call>,         // Enqueue calls in the order their admission was decided
    batches: seq<seq<Event>>, // batches in the order they were taken
    outcomes: seq<Outcome>,   // what became of the batches already sent
    cancelMark: nat,          // events admitted when the context was cancelled
    drainMark: nat)           // events admitted when the final drain looked at the buffer

  datatype Step =
    | Offer(t: nat, events: seq<Event>)
    | Lock(t: nat)
    | Append(t: nat)
    | Unlock(t: nat)
    | UnlockFull(t: nat)
    | CountShed(t: nat)
    | TrySend(t: nat)
    | Cancel
    | SelectDone
    | SelectTick
    | SelectToken
    | FlushLock
    | FlushSwap
    | FlushSkip
    | FlushUnlock
    | FlushReturn(delivered: bool)

  /** The admitted events, in the order in which the calls were decided. */
  function AdmittedLog(calls: seq<Call>): seq<Event> {
    if calls == [] then [] else AdmittedLog(calls[..|calls| - 1]) + calls[|calls| - 1].admitted
  }

  function TotalOffered(calls: seq<Call>): nat {
    if calls == [] then 0 else TotalOffered(calls[..|calls| - 1]) + |calls[|calls| - 1].offered|
  }

  function ShedOf(e: Enqueuer): nat {
    if e.Shedding? then e.count else 0
  }

  function PendingShed(es: seq<Enqueuer>): nat {
    if es == [] then 0 else PendingShed(es[..|es| - 1]) + ShedOf(es[|es| - 1])
  }

  function InitState(n: nat, maxBatch: nat): State {
    State(maxBatch, Nobody, [], false, false, seq(n, _ => Idle), Selecting, 0, [], [], [], [], 0, 0)
  }

  predicate Enabled(s: State, st: Step) {
    match st
    case Offer(t, events) => t < |s.enqueuers| && s.enqueuers[t].Idle?
    case Lock(t) => t < |s.enqueuers| && s.enqueuers[t].Calling? && s.holder == Nobody
    case Append(t) =>
      t < |s.enqueuers| && s.enqueuers[t].Admitting? && |s.buffer| < BUFFER_DROP_THRESHOLD
    case UnlockFull(t) =>
      t < |s.enqueuers| && s.enqueuers[t].Admitting? && |s.buffer| >= BUFFER_DROP_THRESHOLD
    case Unlock(t) => t < |s.enqueuers| && s.enqueuers[t].Appended?
    case CountShed(t) => t < |s.enqueuers| && s.enqueuers[t].Shedding?
    case TrySend(t) => t < |s.enqueuers| && s.enqueuers[t].Signalling?
    case Cancel => !s.cancelled
    case SelectDone => s.flusher.Selecting? && s.cancelled
    case SelectTick => s.flusher.Selecting?
    case SelectToken => s.flusher.Selecting? && s.token
    case FlushLock => s.flusher.Committed? && s.holder == Nobody
    case FlushSwap => s.flusher.Inspecting? && s.buffer != []
    case FlushSkip => s.flusher.Inspecting? && s.buffer == []
    case FlushUnlock => s.flusher.Swapped?
    case FlushReturn(_) => s.flusher.Sending?
  }

  function Admit(s: State, t: nat): State
    requires t < |s.enqueuers| && s.enqueuers[t].Admitting?
  {
    var events := s.enqueuers[t].events;
    var n := AdmitCount(|s.buffer|, |events|);
    var buffer := s.buffer + events[..n];
    s.(buffer := buffer,
       dropped := s.dropped + (|events| - n),
       enqueuers := s.enqueuers[t := Appended(|buffer|)],
       calls := s.calls + [Call(t, events, events[..n])])
  }

  function AfterFlush(drain: bool): Flusher {
    if drain then Stopped else Selecting
  }

  function Apply(s: State, st: Step): State
    requires Enabled(s, st)
  {
    match st
    case Offer(t, events) =>
      if events == [] then s
      else s.(enqueuers := s.enqueuers[t := Calling(events)], requests := s.requests + [Request(t, events)])
    case Lock(t) =>
      s.(holder := EnqueuerHolds(t), enqueuers := s.enqueuers[t := Admitting(s.enqueuers[t].events)])
    case Append(t) => Admit(s, t)
    case Unlock(t) =>
      s.(holder := Nobody, enqueuers := s.enqueuers[t := Signalling(s.enqueuers[t].size)])
    case UnlockFull(t) =>
      var events := s.enqueuers[t].events;
      s.(holder := Nobody,
         enqueuers := s.enqueuers[t := Shedding(|events|)],
         calls := s.calls + [Call(t, events, [])])
    case CountShed(t) =>
      s.(dropped := s.dropped + s.enqueuers[t].count, enqueuers := s.enqueuers[t := Idle])
    case TrySend(t) =>
      s.(token := s.token || s.enqueuers[t].size >= s.maxBatch, enqueuers := s.enqueuers[t := Idle])
    case Cancel => s.(cancelled := true, cancelMark := |AdmittedLog(s.calls)|)
    case SelectDone => s.(flusher := Committed(true))
    case SelectTick => s.(flusher := Committed(false))
    case SelectToken => s.(flusher := Committed(false), token := false)
    case FlushLock => s.(holder := FlusherHolds, flusher := Inspecting(s.flusher.drain))
    case FlushSwap =>
      s.(flusher := Swapped(s.flusher.drain, s.buffer),
         buffer := [],
         batches := s.batches + [s.buffer],
         drainMark := if s.flusher.drain then |AdmittedLog(s.calls)| else s.drainMark)
    case FlushSkip =>
      s.(holder := Nobody,
         flusher := AfterFlush(s.flusher.drain),
         drainMark := if s.flusher.drain then |AdmittedLog(s.calls)| else s.drainMark)
    case FlushUnlock => s.(holder := Nobody, flusher := Sending(s.flusher.drain, s.flusher.batch))
    case FlushReturn(delivered) =>
      s.(flusher := AfterFlush(s.flusher.drain),
         outcomes := s.outcomes + [Outcome(s.flusher.batch, delivered)])
  }

  // ----- Invariants -----

  predicate Holding(e: Enqueuer) {
    e.Admitting? || e.Appended?
  }

  /** At most one goroutine is inside a critical section. */
  predicate MutexInv(s: State) {
    && (forall t :: 0 <= t < |s.enqueuers| ==> (Holding(s.enqueuers[t]) <==> s.holder == EnqueuerHolds(t)))
    && (s.holder.EnqueuerHolds? ==> s.holder.id < |s.enqueuers|)
    && ((s.flusher.Inspecting? || s.flusher.Swapped?) <==> s.holder == FlusherHolds)
  }

  /** Batches taken, in order, followed by the buffer, are the admitted events. */
  predicate FlowInv(s: State) {
    && (forall i :: 0 <= i < |s.calls| ==> s.calls[i].admitted <= s.calls[i].offered)
    && |s.buffer| <= BUFFER_DROP_THRESHOLD
    && Concat(s.batches) + s.buffer == AdmittedLog(s.calls)
  }

  predicate AccountInv(s: State) {
    TotalOffered(s.calls) == |AdmittedLog(s.calls)| + s.dropped + PendingShed(s.enqueuers)
  }

  function InFlight(f: Flusher): seq<seq<Event>> {
    if f.Swapped? || f.Sending? then [f.batch] else []
  }

  function OutcomeBatches(os: seq<Outcome>): seq<seq<Event>> {
    seq(|os|, i requires 0 <= i < |os| => os[i].batch)
  }

  predicate BatchesInv(s: State) {
    && s.batches == OutcomeBatches(s.outcomes) + InFlight(s.flusher)
    && forall i :: 0 <= i < |s.batches| ==> 0 < |s.batches[i]| <= BUFFER_DROP_THRESHOLD
  }

  predicate WillSignal(e: Enqueuer, maxBatch: nat) {
    (e.Appended? || e.Signalling?) && e.size >= maxBatch
  }

  predicate SomeoneWillSignal(s: State) {
    exists t :: 0 <= t < |s.enqueuers| && WillSignal(s.enqueuers[t], s.maxBatch)
  }

  predicate FlushCommitted(f: Flusher) {
    f.Committed? || f.Inspecting?
  }

  predicate WakeupInv(s: State) {
    && 0 < s.maxBatch
    && (|s.buffer| >= s.maxBatch ==> s.token || SomeoneWillSignal(s) || FlushCommitted(s.flusher))
  }

  predicate Drained(f: Flusher) {
    f.Stopped? || (f.Swapped? && f.drain) || (f.Sending? && f.drain)
  }

  predicate Draining(f: Flusher) {
    Drained(f) || (FlushCommitted(f) && f.drain)
  }

  predicate DrainInv(s: State) {
    && (Draining(s.flusher) ==> s.cancelled)
    && (s.cancelled ==> s.cancelMark <= |AdmittedLog(s.calls)|)
    && (Drained(s.flusher) ==>
          s.cancelMark <= s.drainMark <= |AdmittedLog(s.calls)| && |Concat(s.batches)| == s.drainMark)
  }

  predicate Inv(s: State) {
    MutexInv(s) && FlowInv(s) && AccountInv(s) && BatchesInv(s) && WakeupInv(s) && DrainInv(s)
  }

  // ----- Lemmas about the logs -----

  lemma CallsSnoc(calls: seq<Call>, c: Call)
    ensures AdmittedLog(calls + [c]) == AdmittedLog(calls) + c.admitted
    ensures TotalOffered(calls + [c]) == TotalOffered(calls) + |c.offered|
  {
    assert (calls + [c])[..|calls|] == calls;
  }

  lemma {:induction false} PendingShedUpdate(es: seq<Enqueuer>, t: nat, e: Enqueuer)
    requires t < |es|
    ensures PendingShed(es[t := e]) + ShedOf(es[t]) == PendingShed(es) + ShedOf(e)
  {
    var n := |es| - 1;
    if t == n {
      assert es[t := e][..n] == es[..n];
    } else {
      assert es[t := e][..n] == es[..n][t := e];
      PendingShedUpdate(es[..n], t, e);
    }
  }

  // ----- Every step keeps every invariant -----

  lemma StepKeepsMutex(s: State, st: Step)
    requires MutexInv(s) && Enabled(s, st)
    ensures MutexInv(Apply(s, st))
  {
  }

  lemma AppendKeepsFlow(s: State, t: nat)
    requires FlowInv(s) && Enabled(s, Append(t))
    ensures FlowInv(Apply(s, Append(t)))
  {
    hide AdmittedLog, Concat;
    var events := s.enqueuers[t].events;
    var n := AdmitCount(|s.buffer|, |events|);
    CallsSnoc(s.calls, Call(t, events, events[..n]));
    assert Concat(s.batches) + (s.buffer + events[..n]) == Concat(s.batches) + s.buffer + events[..n];
  }

  lemma ShedKeepsFlow(s: State, t: nat)
    requires FlowInv(s) && Enabled(s, UnlockFull(t))
    ensures FlowInv(Apply(s, UnlockFull(t)))
  {
    hide AdmittedLog, Concat;
    CallsSnoc(s.calls, Call(t, s.enqueuers[t].events, []));
  }

  lemma StepKeepsFlow(s: State, st: Step)
    requires FlowInv(s) && Enabled(s, st)
    ensures FlowInv(Apply(s, st))
  {
    hide AdmittedLog, Concat;
    match st
    case Append(t) => AppendKeepsFlow(s, t);
    case UnlockFull(t) => ShedKeepsFlow(s, t);
    case FlushSwap => ConcatSnoc(s.batches, s.buffer);
    case _ =>
      assert Apply(s, st).calls == s.calls && Apply(s, st).batches == s.batches && Apply(s, st).buffer == s.buffer;
  }

  lemma StepKeepsAccount(s: State, st: Step)
    requires AccountInv(s) && Enabled(s, st)
    ensures AccountInv(Apply(s, st))
  {
    hide AdmittedLog, TotalOffered, PendingShed;
    if st.Offer? || st.Lock? || st.Append? || st.Unlock? || st.UnlockFull? || st.CountShed? || st.TrySend? {
      PendingShedUpdate(s.enqueuers, st.t, Apply(s, st).enqueuers[st.t]);
    }
    match st
    case Append(t) =>
      var events := s.enqueuers[t].events;
      CallsSnoc(s.calls, Call(t, events, events[..AdmitCount(|s.buffer|, |events|)]));
    case UnlockFull(t) =>
      CallsSnoc(s.calls, Call(t, s.enqueuers[t].events, []));
    case _ =>
  }

  lemma OutcomesSnoc(os: seq<Outcome>, o: Outcome)
    ensures OutcomeBatches(os + [o]) == OutcomeBatches(os) + [o.batch]
  {
  }

  lemma StepKeepsBatches(s: State, st: Step)
    requires FlowInv(s) && BatchesInv(s) && Enabled(s, st)
    ensures BatchesInv(Apply(s, st))
  {
    hide Concat, AdmittedLog, OutcomeBatches;
    match st
    case FlushReturn(delivered) => OutcomesSnoc(s.outcomes, Outcome(s.flusher.batch, delivered));
    case _ =>
  }

  lemma StepKeepsWakeup(s: State, st: Step)
    requires Inv(s) && Enabled(s, st)
    ensures WakeupInv(Apply(s, st))
  {
    var s' := Apply(s, st);
    if |s.buffer| >= s.maxBatch && SomeoneWillSignal(s) {
      var t :| 0 <= t < |s.enqueuers| && WillSignal(s.enqueuers[t], s.maxBatch);
      assert s'.token || FlushCommitted(s'.flusher) || |s'.buffer| == 0
          || WillSignal(s'.enqueuers[t], s'.maxBatch);
    }
    if st.Append? {
      assert WillSignal(s'.enqueuers[st.t], s'.maxBatch) || |s'.buffer| < s'.maxBatch;
    }
  }

  lemma StepKeepsDrain(s: State, st: Step)
    requires FlowInv(s) && DrainInv(s) && Enabled(s, st)
    ensures DrainInv(Apply(s, st))
  {
    match st
    case Append(t) =>
      var events := s.enqueuers[t].events;
      CallsSnoc(s.calls, Call(t, events, events[..AdmitCount(|s.buffer|, |events|)]));
    case UnlockFull(t) =>
      CallsSnoc(s.calls, Call(t, s.enqueuers[t].events, []));
    case FlushSwap =>
      ConcatSnoc(s.batches, s.buffer);
    case _ =>
  }

  lemma StepKeepsInv(s: State, st: Step)
    requires Inv(s) && Enabled(s, st)
    ensures Inv(Apply(s, st))
  {
    StepKeepsMutex(s, st);
    StepKeepsFlow(s, st);
    StepKeepsAccount(s, st);
    StepKeepsBatches(s, st);
    StepKeepsWakeup(s, st);
    StepKeepsDrain(s, st);
  }

  // ----- Runs -----

  predicate Runs(s: State, steps: seq<Step>)
    decreases |steps|
  {
    steps == [] || (Enabled(s, steps[0]) && Runs(Apply(s, steps[0]), steps[1..]))
  }

  function After(s: State, steps: seq<Step>): State
    requires Runs(s, steps)
    decreases |steps|
  {
    if steps == [] then s else After(Apply(s, steps[0]), steps[1..])
  }

  ghost predicate Reachable(s: State) {
    exists n: nat, maxBatch: nat, steps ::
      0 < maxBatch && Runs(InitState(n, maxBatch), steps) && s == After(InitState(n, maxBatch), steps)
  }

  lemma {:induction false} NothingPending(n: nat)
    ensures PendingShed(seq(n, _ => Idle)) == 0
  {
    if n == 0 {
    } else {
      NothingPending(n - 1);
      assert seq(n, _ => Idle)[..n - 1] == seq(n - 1, _ => Idle);
    }
  }

  lemma {:induction false} RunKeepsInv(s: State, steps: seq<Step>)
    requires Inv(s) && Runs(s, steps)
    ensures Inv(After(s, steps))
    decreases |steps|
  {
    if steps == [] {
    } else {
      StepKeepsInv(s, steps[0]);
      RunKeepsInv(Apply(s, steps[0]), steps[1..]);
    }
  }

  lemma ReachableInv(s: State)
    requires Reachable(s)
    ensures Inv(s)
  {
    var n: nat, maxBatch: nat, steps :|
      0 < maxBatch && Runs(InitState(n, maxBatch), steps) && s == After(InitState(n, maxBatch), steps);
    NothingPending(n);
    RunKeepsInv(InitState(n, maxBatch), steps);
  }

  // ----- What every run guarantees -----

  /** A buffer at the threshold always has a token in the channel, an enqueuer about to send
      one, or a flush already on its way to the buffer. */
  lemma NoLostWakeup(s: State)
    requires Reachable(s) && |s.buffer| >= s.maxBatch
    ensures s.token || SomeoneWillSignal(s) || FlushCommitted(s.flusher)
  {
    ReachableInv(s);
  }

  /** First in, first out, nothing lost or invented between admission and the batches; each
      call admits a prefix of what it offered; only the buffer_full counter explains the rest. */
  lemma FifoConservation(s: State)
    requires Reachable(s)
    ensures Concat(s.batches) + s.buffer == AdmittedLog(s.calls)
    ensures forall i :: 0 <= i < |s.calls| ==> s.calls[i].admitted <= s.calls[i].offered
    ensures TotalOffered(s.calls) == |AdmittedLog(s.calls)| + s.dropped + PendingShed(s.enqueuers)
    ensures |s.buffer| <= BUFFER_DROP_THRESHOLD
  {
    ReachableInv(s);
  }

  /** Every batch was sent at most once: it is the one in flight or has exactly one outcome. */
  lemma BatchesSentOnce(s: State)
    requires Reachable(s)
    ensures s.batches == OutcomeBatches(s.outcomes) + InFlight(s.flusher)
    ensures forall i :: 0 <= i < |s.batches| ==> 0 < |s.batches[i]| <= BUFFER_DROP_THRESHOLD
  {
    ReachableInv(s);
  }

  lemma MutualExclusion(s: State, t: nat, u: nat)
    requires Reachable(s) && t < |s.enqueuers| && u < |s.enqueuers|
    requires Holding(s.enqueuers[t])
    ensures Holding(s.enqueuers[u]) ==> t == u
    ensures !s.flusher.Inspecting? && !s.flusher.Swapped?
  {
    ReachableInv(s);
  }

  /** When Start has returned, everything admitted before the cancellation was taken, and what
      is still buffered was admitted after the final drain looked. */
  lemma DrainGuarantee(s: State)
    requires Reachable(s) && s.flusher.Stopped?
    ensures s.cancelMark <= s.drainMark <= |AdmittedLog(s.calls)|
    ensures Concat(s.batches) == AdmittedLog(s.calls)[..s.drainMark]
    ensures s.buffer == AdmittedLog(s.calls)[s.drainMark..]
    ensures s.batches == OutcomeBatches(s.outcomes)
  {
    ReachableInv(s);
    assert AdmittedLog(s.calls)[..s.drainMark] == Concat(s.batches);
    assert s.batches == OutcomeBatches(s.outcomes) + [];
  }

  // ----- Each goroutine's own order -----

  /** What goroutine t asked for, call by call. */
  function RequestedBy(requests: seq<Request>, t: nat): seq<seq<Event>> {
    if requests == [] then []
    else
      var rest, r := RequestedBy(requests[..|requests| - 1], t), requests[|requests| - 1];
      if r.caller == t then rest + [r.events] else rest
  }

  /** The calls of goroutine t whose admission was decided, in that order. */
  function CallsBy(calls: seq<Call>, t: nat): seq<Call> {
    Keep((c: Call) => c.caller == t, calls)
  }

  function OfferedIn(calls: seq<Call>): seq<seq<Event>> {
    seq(|calls|, i requires 0 <= i < |calls| => calls[i].offered)
  }

  /** The call an enqueuer is in the middle of. */
  function Undecided(e: Enqueuer): seq<seq<Event>> {
    if e.Calling? || e.Admitting? then [e.events] else []
  }

  /** The decided calls of a goroutine, then the one it is in the middle of, are what it asked for. */
  predicate OwnOrder(s: State, t: nat)
    requires t < |s.enqueuers|
  {
    OfferedIn(CallsBy(s.calls, t)) + Undecided(s.enqueuers[t]) == RequestedBy(s.requests, t)
  }

  predicate OrderInv(s: State) {
    forall t :: 0 <= t < |s.enqueuers| ==> OwnOrder(s, t)
  }

  lemma RequestsSnoc(requests: seq<Request>, r: Request, t: nat)
    ensures RequestedBy(requests + [r], t) == RequestedBy(requests, t) + if r.caller == t then [r.events] else []
  {
    assert (requests + [r])[..|requests|] == requests;
  }

  lemma CallsBySnoc(calls: seq<Call>, c: Call, t: nat)
    ensures OfferedIn(CallsBy(calls + [c], t)) == OfferedIn(CallsBy(calls, t)) + if c.caller == t then [c.offered] else []
  {
    assert (calls + [c])[..|calls|] == calls;
  }

  lemma StepKeepsOwnOrder(s: State, st: Step, t: nat)
    requires t < |s.enqueuers| && OwnOrder(s, t) && Enabled(s, st)
    ensures t < |Apply(s, st).enqueuers| && OwnOrder(Apply(s, st), t)
  {
    hide CallsBy, OfferedIn, RequestedBy, AdmittedLog, AdmitCount;
    match st
    case Offer(u, events) => RequestsSnoc(s.requests, Request(u, events), t);
    case Append(u) =>
      var events := s.enqueuers[u].events;
      CallsBySnoc(s.calls, Call(u, events, events[..AdmitCount(|s.buffer|, |events|)]), t);
    case UnlockFull(u) => CallsBySnoc(s.calls, Call(u, s.enqueuers[u].events, []), t);
    case _ =>
  }

  lemma SameEnqueuers(s: State, st: Step)
    requires Enabled(s, st)
    ensures |Apply(s, st).enqueuers| == |s.enqueuers|
  {
  }

  lemma {:induction false} RunKeepsOrder(s: State, steps: seq<Step>)
    requires OrderInv(s) && Runs(s, steps)
    ensures OrderInv(After(s, steps))
    decreases |steps|
  {
    hide Enabled, Apply, OwnOrder;
    if steps == [] {
    } else {
      forall t | 0 <= t < |Apply(s, steps[0]).enqueuers|
        ensures OwnOrder(Apply(s, steps[0]), t)
      {
        SameEnqueuers(s, steps[0]);
        StepKeepsOwnOrder(s, steps[0], t);
      }
      RunKeepsOrder(Apply(s, steps[0]), steps[1..]);
    }
  }

  datatype Mark = Mark(caller: nat, event: Event)

  function Marked(caller: nat, events: seq<Event>): seq<Mark> {
    seq(|events|, i requires 0 <= i < |events| => Mark(caller, events[i]))
  }

  function Unmarked(marks: seq<Mark>): seq<Event> {
    seq(|marks|, i requires 0 <= i < |marks| => marks[i].event)
  }

  /** The admitted events, each with the goroutine it came from. */
  function MarkedLog(calls: seq<Call>): seq<Mark> {
    if calls == [] then []
    else MarkedLog(calls[..|calls| - 1]) + Marked(calls[|calls| - 1].caller, calls[|calls| - 1].admitted)
  }

  lemma {:induction false} UnmarkedLog(calls: seq<Call>)
    ensures Unmarked(MarkedLog(calls)) == AdmittedLog(calls)
  {
    if calls == [] {
    } else {
      UnmarkedLog(calls[..|calls| - 1]);
    }
  }

  function From(t: nat): Mark -> bool {
    (m: Mark) => m.caller == t
  }

  lemma {:induction false} KeepMarked(caller: nat, events: seq<Event>, t: nat)
    ensures Keep(From(t), Marked(caller, events)) == if caller == t then Marked(caller, events) else []
  {
    if events == [] {
    } else {
      var n := |events| - 1;
      KeepMarked(caller, events[..n], t);
      assert Marked(caller, events)[..n] == Marked(caller, events[..n]);
    }
  }

  lemma UnmarkedAppend(marks: seq<Mark>, caller: nat, events: seq<Event>)
    ensures Unmarked(marks + Marked(caller, events)) == Unmarked(marks) + events
    ensures Unmarked(marks + []) == Unmarked(marks)
  {
  }

  /** The part of the log that came from goroutine t is what its own calls admitted, in order. */
  lemma {:induction false} OwnPartOfLog(calls: seq<Call>, t: nat)
    ensures Unmarked(Keep(From(t), MarkedLog(calls))) == AdmittedLog(CallsBy(calls, t))
  {
    if calls == [] {
    } else {
      var n := |calls| - 1;
      var c, before := calls[n], MarkedLog(calls[..n]);
      OwnPartOfLog(calls[..n], t);
      KeepAppend(From(t), before, Marked(c.caller, c.admitted));
      KeepMarked(c.caller, c.admitted, t);
      CallsSnoc(CallsBy(calls[..n], t), c);
      UnmarkedAppend(Keep(From(t), before), c.caller, c.admitted);
    }
  }

  lemma ReachableOrder(s: State)
    requires Reachable(s)
    ensures OrderInv(s)
  {
    var n: nat, maxBatch: nat, steps :|
      0 < maxBatch && Runs(InitState(n, maxBatch), steps) && s == After(InitState(n, maxBatch), steps);
    RunKeepsOrder(InitState(n, maxBatch), steps);
  }

  /** In every reachable state and for every goroutine: among the batches taken and the buffer,
      its events are those its own calls admitted, in the order in which it made the calls, each
      a prefix of what the call offered. */
  lemma EachGoroutineInOrder(s: State, t: nat)
    requires Reachable(s) && t < |s.enqueuers|
    ensures Unmarked(MarkedLog(s.calls)) == Concat(s.batches) + s.buffer
    ensures Unmarked(Keep(From(t), MarkedLog(s.calls))) == AdmittedLog(CallsBy(s.calls, t))
    ensures OfferedIn(CallsBy(s.calls, t)) <= RequestedBy(s.requests, t)
    ensures forall c :: c in CallsBy(s.calls, t) ==> c.admitted <= c.offered
  {
    ReachableInv(s);
    UnmarkedLog(s.calls);
    OwnPartOfLog(s.calls, t);
    ReachableOrder(s);
    assert OwnOrder(s, t);
    KeptAreAll((c: Call) => c.caller == t, s.calls);
  }

  // ----- The signal is enough: no tick is needed -----

  predicate Quiet(st: Step) {
    !st.SelectTick? && !st.Offer? && !st.Cancel?
  }

  /** Steps an enqueuer still has to take before it is idle. */
  function StepsLeft(e: Enqueuer): nat {
    match e
    case Idle => 0
    case Calling(_) => 4
    case Admitting(_) => 3
    case Appended(_) => 2
    case Signalling(_) => 1
    case Shedding(_) => 1
  }

  function AllStepsLeft(es: seq<Enqueuer>): nat {
    if es == [] then 0 else AllStepsLeft(es[..|es| - 1]) + StepsLeft(es[|es| - 1])
  }

  lemma {:induction false} StepsLeftUpdate(es: seq<Enqueuer>, t: nat, e: Enqueuer)
    requires t < |es|
    ensures AllStepsLeft(es[t := e]) + StepsLeft(es[t]) == AllStepsLeft(es) + StepsLeft(e)
  {
    var n := |es| - 1;
    if t == n {
      assert es[t := e][..n] == es[..n];
    } else {
      assert es[t := e][..n] == es[..n][t := e];
      StepsLeftUpdate(es[..n], t, e);
    }
  }

  /** How far the flusher is from returning, if no more tokens come. */
  function FlusherWeight(f: Flusher): nat {
    match f
    case Stopped => 0
    case Sending(drain, _) => if drain then 1 else 6
    case Swapped(drain, _) => if drain then 2 else 7
    case Inspecting(drain) => if drain then 3 else 8
    case Committed(drain) => if drain then 4 else 9
    case Selecting => 5
  }

  /** An upper bound on the number of quiet steps that can follow. */
  function Rank(s: State): nat {
    7 * AllStepsLeft(s.enqueuers) + (if s.token then 6 else 0) + FlusherWeight(s.flusher)
  }

  lemma QuietStepDescends(s: State, st: Step)
    requires Enabled(s, st) && Quiet(st)
    ensures Rank(Apply(s, st)) < Rank(s)
  {
    hide AllStepsLeft;
    if st.Lock? || st.Append? || st.Unlock? || st.UnlockFull? || st.CountShed? || st.TrySend? {
      StepsLeftUpdate(s.enqueuers, st.t, Apply(s, st).enqueuers[st.t]);
    }
  }

  predicate QuietRun(s: State, steps: seq<Step>) {
    Runs(s, steps) && forall i :: 0 <= i < |steps| ==> Quiet(steps[i])
  }

  /** Only a tick, a new call or a cancellation could still happen. */
  ghost predicate Settled(s: State) {
    forall st :: Enabled(s, st) ==> !Quiet(st)
  }

  /** Without ticks, new calls and cancellations every run is finite, whatever the schedule. */
  lemma {:induction false} QuietRunsAreFinite(s: State, steps: seq<Step>)
    requires QuietRun(s, steps)
    ensures |steps| + Rank(After(s, steps)) <= Rank(s)
    decreases |steps|
  {
    hide Enabled, Apply, Rank, Quiet;
    if steps == [] {
    } else {
      QuietStepDescends(s, steps[0]);
      QuietRunsAreFinite(Apply(s, steps[0]), steps[1..]);
    }
  }

  /** Every state has a schedule that settles, so the bound below is about something. */
  lemma {:induction false} SomeScheduleSettles(s: State) returns (steps: seq<Step>)
    ensures QuietRun(s, steps) && Settled(After(s, steps))
    decreases Rank(s)
  {
    hide Enabled, Apply, Rank, Quiet;
    if Settled(s) {
      steps := [];
    } else {
      var st :| Enabled(s, st) && Quiet(st);
      QuietStepDescends(s, st);
      var rest := SomeScheduleSettles(Apply(s, st));
      steps := [st] + rest;
      assert steps[1..] == rest;
    }
  }

  /** Whoever holds the mutex can go on. */
  lemma HolderCanMove(s: State) returns (st: Step)
    requires MutexInv(s) && s.holder != Nobody
    ensures Enabled(s, st) && Quiet(st)
  {
    if s.holder.EnqueuerHolds? {
      var t := s.holder.id;
      assert Holding(s.enqueuers[t]);
      st := if s.enqueuers[t].Appended? then Unlock(t)
            else if |s.buffer| < BUFFER_DROP_THRESHOLD then Append(t) else UnlockFull(t);
    } else {
      st := if s.flusher.Swapped? then FlushUnlock else if s.buffer == [] then FlushSkip else FlushSwap;
    }
  }

  lemma SettledHolder(s: State)
    requires MutexInv(s) && Settled(s)
    ensures s.holder == Nobody
  {
    if s.holder != Nobody {
      var st := HolderCanMove(s);
    }
  }

  lemma SettledFlusher(s: State)
    requires MutexInv(s) && Settled(s)
    ensures s.flusher.Stopped? || (s.flusher.Selecting? && !s.token && !s.cancelled)
  {
    SettledHolder(s);
    assert !Enabled(s, SelectToken) && !Enabled(s, FlushLock) && !Enabled(s, FlushReturn(true));
    assert !Enabled(s, SelectDone);
  }

  /** A settled state has no call in progress, and Start has returned, or is not cancelled and
      waits on less than a full batch. */
  lemma SettledMeans(s: State)
    requires Inv(s) && Settled(s)
    ensures forall t :: 0 <= t < |s.enqueuers| ==> s.enqueuers[t].Idle?
    ensures s.flusher.Stopped? || (s.flusher.Selecting? && !s.token && !s.cancelled && |s.buffer| < s.maxBatch)
  {
    SettledFlusher(s);
    SettledHolder(s);
    forall t: nat | t < |s.enqueuers|
      ensures s.enqueuers[t].Idle?
    {
      assert !Holding(s.enqueuers[t]);
      assert !Enabled(s, Lock(t)) && !Enabled(s, CountShed(t)) && !Enabled(s, TrySend(t));
    }
    if SomeoneWillSignal(s) {
      var t :| 0 <= t < |s.enqueuers| && WillSignal(s.enqueuers[t], s.maxBatch);
      assert s.enqueuers[t].Idle?;
    }
  }

  /** A flush is due: the final drain has not looked yet, and it is cancelled, a full batch is
      buffered, or a select case was taken. */
  predicate FlushDue(s: State) {
    !Drained(s.flusher) && (s.cancelled || |s.buffer| >= s.maxBatch || FlushCommitted(s.flusher))
  }

  /** `log` is in batches, or a flush is due. */
  predicate Heading(s: State, log: seq<Event>) {
    log <= AdmittedLog(s.calls) && (log <= Concat(s.batches) || FlushDue(s))
  }

  lemma PrefixGrows(log: seq<Event>, whole: seq<Event>, more: seq<Event>)
    requires log <= whole
    ensures log <= whole + more
  {
  }

  lemma QuietStepHeads(s: State, st: Step, log: seq<Event>)
    requires FlowInv(s) && 0 < s.maxBatch && Enabled(s, st) && Quiet(st) && Heading(s, log)
    ensures Heading(Apply(s, st), log)
  {
    hide AdmittedLog, Concat;
    match st
    case Append(t) =>
      var events := s.enqueuers[t].events;
      var n := AdmitCount(|s.buffer|, |events|);
      CallsSnoc(s.calls, Call(t, events, events[..n]));
      PrefixGrows(log, AdmittedLog(s.calls), events[..n]);
    case UnlockFull(t) =>
      CallsSnoc(s.calls, Call(t, s.enqueuers[t].events, []));
    case FlushSwap =>
      ConcatSnoc(s.batches, s.buffer);
    case FlushSkip =>
      assert Concat(s.batches) + [] == Concat(s.batches);
    case _ =>
  }

  lemma {:induction false} QuietRunHeads(s: State, steps: seq<Step>, log: seq<Event>)
    requires Inv(s) && QuietRun(s, steps) && Heading(s, log)
    ensures Inv(After(s, steps)) && Heading(After(s, steps), log)
    decreases |steps|
  {
    hide MutexInv, FlowInv, AccountInv, BatchesInv, DrainInv, SomeoneWillSignal, Enabled, Apply, Heading, Quiet;
    if steps == [] {
    } else {
      QuietStepHeads(s, steps[0], log);
      StepKeepsInv(s, steps[0]);
      QuietRunHeads(Apply(s, steps[0]), steps[1..], log);
    }
  }

  /** Every schedule without ticks, new calls and cancellations ends after at most Rank(s) steps.
      Once nothing is left to do, less than a full batch remains or Start has returned, and if a
      flush was due at the start, everything admitted by then is in batches. */
  lemma EveryScheduleFlushes(s: State, steps: seq<Step>)
    requires Reachable(s) && QuietRun(s, steps)
    ensures |steps| <= Rank(s)
    ensures var s' := After(s, steps);
            Settled(s') ==>
              && (s'.flusher.Stopped? || |s'.buffer| < s'.maxBatch)
              && (FlushDue(s) ==> AdmittedLog(s.calls) <= Concat(s'.batches))
  {
    hide Settled, Enabled, Apply;
    ReachableInv(s);
    QuietRunsAreFinite(s, steps);
    RunKeepsInv(s, steps);
    var s' := After(s, steps);
    if Settled(s') {
      SettledMeans(s');
      if FlushDue(s) {
        assert Heading(s, AdmittedLog(s.calls));
        QuietRunHeads(s, steps, AdmittedLog(s.calls));
      }
    }
  }

  /** In particular a full batch can always be flushed without a tick. */
  lemma EagerFlushNeedsNoTick(s: State) returns (steps: seq<Step>)
    requires Reachable(s) && |s.buffer| >= s.maxBatch && !Drained(s.flusher)
    ensures QuietRun(s, steps) && |steps| <= Rank(s)
    ensures AdmittedLog(s.calls) <= Concat(After(s, steps).batches)
  {
    steps := SomeScheduleSettles(s);
    EveryScheduleFlushes(s, steps);
  }

  // ----- The tick and the final drain -----

  lemma StepThen(s: State, st: Step, steps: seq<Step>)
    requires Enabled(s, st) && Runs(Apply(s, st), steps)
    ensures Runs(s, [st] + steps) && After(s, [st] + steps) == After(Apply(s, st), steps)
  {
    assert ([st] + steps)[1..] == steps;
  }

  lemma JustStep(s: State, st: Step)
    requires Enabled(s, st)
    ensures Runs(s, [st]) && After(s, [st]) == Apply(s, st)
  {
    assert Runs(Apply(s, st), []);
    StepThen(s, st, []);
    assert [st] + [] == [st];
  }

  lemma {:induction false} RunSnoc(s: State, steps: seq<Step>, st: Step)
    requires Runs(s, steps) && Enabled(After(s, steps), st)
    ensures Runs(s, steps + [st]) && After(s, steps + [st]) == Apply(After(s, steps), st)
    decreases |steps|
  {
    hide Enabled, Apply;
    if steps == [] {
      JustStep(s, st);
      assert steps + [st] == [st];
    } else {
      RunSnoc(Apply(s, steps[0]), steps[1..], st);
      assert (steps + [st])[1..] == steps[1..] + [st];
    }
  }

  lemma ReachableStep(s: State, st: Step)
    requires Reachable(s) && Enabled(s, st)
    ensures Reachable(Apply(s, st))
  {
    var n: nat, maxBatch: nat, steps :|
      0 < maxBatch && Runs(InitState(n, maxBatch), steps) && s == After(InitState(n, maxBatch), steps);
    RunSnoc(InitState(n, maxBatch), steps, st);
  }

  /** Nothing admitted is forgotten. */
  lemma StepGrows(s: State, st: Step)
    requires Enabled(s, st)
    ensures AdmittedLog(s.calls) <= AdmittedLog(Apply(s, st).calls)
  {
    hide AdmittedLog;
    match st
    case Append(t) =>
      var events := s.enqueuers[t].events;
      CallsSnoc(s.calls, Call(t, events, events[..AdmitCount(|s.buffer|, |events|)]));
    case UnlockFull(t) => CallsSnoc(s.calls, Call(t, s.enqueuers[t].events, []));
    case _ =>
  }

  /** A flush that was committed and is no longer has looked at the buffer. */
  lemma CommitmentEnds(s: State, st: Step)
    requires FlowInv(s) && FlushCommitted(s.flusher) && Enabled(s, st) && !FlushCommitted(Apply(s, st).flusher)
    ensures AdmittedLog(s.calls) <= Concat(Apply(s, st).batches)
  {
    hide AdmittedLog, Concat;
    if st.FlushSwap? {
      ConcatSnoc(s.batches, s.buffer);
    } else {
      assert Concat(s.batches) + [] == Concat(s.batches);
    }
  }

  lemma QuietStepKeepsCancel(s: State, st: Step)
    requires Enabled(s, st) && Quiet(st)
    ensures Apply(s, st).cancelled == s.cancelled && Apply(s, st).cancelMark == s.cancelMark
  {
  }

  /** Without a token: from every reachable state in which the loop selects, a tick leads every
      schedule to take everything admitted so far. */
  lemma EveryTickFlushes(s: State, steps: seq<Step>)
    requires Reachable(s) && s.flusher.Selecting? && QuietRun(Apply(s, SelectTick), steps)
    ensures var s' := After(Apply(s, SelectTick), steps);
            Settled(s') ==> AdmittedLog(s.calls) <= Concat(s'.batches)
  {
    ReachableStep(s, SelectTick);
    EveryScheduleFlushes(Apply(s, SelectTick), steps);
  }

  /** A committed flush goes through without receiving a token. */
  lemma {:induction false} CommittedTakes(s: State) returns (steps: seq<Step>)
    requires Inv(s) && FlushCommitted(s.flusher)
    ensures QuietRun(s, steps) && forall i :: 0 <= i < |steps| ==> !steps[i].SelectToken?
    ensures AdmittedLog(s.calls) <= Concat(After(s, steps).batches)
    decreases Rank(s)
  {
    var st: Step;
    if s.holder != Nobody {
      st := HolderCanMove(s);
    } else {
      st := FlushLock;
    }
    var s' := Apply(s, st);
    StepKeepsInv(s, st);
    StepGrows(s, st);
    if FlushCommitted(s'.flusher) {
      QuietStepDescends(s, st);
      var rest := CommittedTakes(s');
      StepThen(s, st, rest);
      steps := [st] + rest;
    } else {
      CommitmentEnds(s, st);
      JustStep(s, st);
      steps := [st];
    }
  }

  /** From every reachable state in which the loop selects, the tick alone is enough. */
  lemma TickTakesBuffer(s: State) returns (steps: seq<Step>)
    requires Reachable(s) && s.flusher.Selecting?
    ensures Runs(s, steps) && forall i :: 0 <= i < |steps| ==> !steps[i].SelectToken?
    ensures AdmittedLog(s.calls) <= Concat(After(s, steps).batches)
  {
    ReachableInv(s);
    StepKeepsInv(s, SelectTick);
    var rest := CommittedTakes(Apply(s, SelectTick));
    StepThen(s, SelectTick, rest);
    steps := [SelectTick] + rest;
  }

  lemma {:induction false} QuietRunKeepsCancel(s: State, steps: seq<Step>)
    requires QuietRun(s, steps)
    ensures After(s, steps).cancelled == s.cancelled && After(s, steps).cancelMark == s.cancelMark
    decreases |steps|
  {
    hide Enabled, Apply, Quiet;
    if steps == [] {
    } else {
      QuietStepKeepsCancel(s, steps[0]);
      QuietRunKeepsCancel(Apply(s, steps[0]), steps[1..]);
    }
  }

  /** After a cancellation every schedule makes Start return, with everything admitted before the
      cancellation taken, and everything admitted until now if the final drain has not looked. */
  lemma CancellationDrains(s: State, steps: seq<Step>)
    requires Reachable(s) && s.cancelled && QuietRun(s, steps) && Settled(After(s, steps))
    ensures var s' := After(s, steps);
            && s'.flusher.Stopped?
            && s.cancelMark <= |Concat(s'.batches)|
            && Concat(s'.batches) <= AdmittedLog(s'.calls)
            && (!Drained(s.flusher) ==> AdmittedLog(s.calls) <= Concat(s'.batches))
  {
    hide Enabled, Apply, Settled;
    ReachableInv(s);
    RunKeepsInv(s, steps);
    SettledMeans(After(s, steps));
    QuietRunKeepsCancel(s, steps);
    EveryScheduleFlushes(s, steps);
  }

  /** From every reachable state Start can be made to return. */
  lemma StartCanReturn(s: State) returns (steps: seq<Step>)
    requires Reachable(s)
    ensures Runs(s, steps) && After(s, steps).flusher.Stopped?
  {
    if s.cancelled {
      steps := SomeScheduleSettles(s);
      CancellationDrains(s, steps);
    } else {
      ReachableStep(s, Cancel);
      var rest := SomeScheduleSettles(Apply(s, Cancel));
      CancellationDrains(Apply(s, Cancel), rest);
      StepThen(s, Cancel, rest);
      steps := [Cancel] + rest;
    }
  }

  // ----- The steps and the sequential methods -----

  lemma SoloAppend(s: State, t: nat) returns (steps: seq<Step>)
    requires t < |s.enqueuers| && s.enqueuers[t].Admitting? && |s.buffer| < BUFFER_DROP_THRESHOLD
    ensures Runs(s, steps)
    ensures var events := s.enqueuers[t].events;
            var n, s' := AdmitCount(|s.buffer|, |events|), After(s, steps);
            && s'.buffer == s.buffer + events[..n]
            && s'.dropped == s.dropped + (|events| - n)
            && s'.token == (s.token || |s'.buffer| >= s.maxBatch)
            && s'.enqueuers == s.enqueuers[t := Idle] && s'.holder == Nobody && s'.flusher == s.flusher
  {
    var s1 := Apply(s, Append(t));
    var s2 := Apply(s1, Unlock(t));
    JustStep(s2, TrySend(t));
    StepThen(s1, Unlock(t), [TrySend(t)]);
    StepThen(s, Append(t), [Unlock(t)] + [TrySend(t)]);
    assert Apply(s2, TrySend(t)).enqueuers == s.enqueuers[t := Idle];
    steps := [Append(t)] + ([Unlock(t)] + [TrySend(t)]);
  }

  lemma SoloShed(s: State, t: nat) returns (steps: seq<Step>)
    requires t < |s.enqueuers| && s.enqueuers[t].Admitting? && |s.buffer| >= BUFFER_DROP_THRESHOLD
    ensures Runs(s, steps)
    ensures var s' := After(s, steps);
            && s'.buffer == s.buffer && s'.dropped == s.dropped + |s.enqueuers[t].events| && s'.token == s.token
            && s'.enqueuers == s.enqueuers[t := Idle] && s'.holder == Nobody && s'.flusher == s.flusher
  {
    var s1 := Apply(s, UnlockFull(t));
    JustStep(s1, CountShed(t));
    StepThen(s, UnlockFull(t), [CountShed(t)]);
    assert Apply(s1, CountShed(t)).enqueuers == s.enqueuers[t := Idle];
    steps := [UnlockFull(t)] + [CountShed(t)];
  }

  /** An undisturbed Enqueue call, step by step, does to the buffer, the signal and the drop
      counter what Batcher.Enqueue promises, and leaves the rest as it was. */
  lemma SoloEnqueue(s: State, t: nat, events: seq<Event>) returns (steps: seq<Step>)
    requires t < |s.enqueuers| && s.enqueuers[t].Idle? && s.holder == Nobody
    ensures Runs(s, steps)
    ensures var n, s' := AdmitCount(|s.buffer|, |events|), After(s, steps);
            && s'.buffer == s.buffer + events[..n]
            && s'.dropped == s.dropped + (|events| - n)
            && s'.token == (s.token || (|events| > 0 && |s.buffer| < BUFFER_DROP_THRESHOLD && |s'.buffer| >= s.maxBatch))
            && s'.enqueuers == s.enqueuers && s'.holder == Nobody && s'.flusher == s.flusher
  {
    var s1 := Apply(s, Offer(t, events));
    if events == [] {
      steps := [Offer(t, events)];
      JustStep(s, Offer(t, events));
    } else {
      var s2 := Apply(s1, Lock(t));
      if |s.buffer| < BUFFER_DROP_THRESHOLD {
        steps := SoloAppend(s2, t);
      } else {
        steps := SoloShed(s2, t);
      }
      StepThen(s1, Lock(t), steps);
      StepThen(s, Offer(t, events), [Lock(t)] + steps);
      assert s2.enqueuers[t := Idle] == s.enqueuers;
      steps := [Offer(t, events)] + ([Lock(t)] + steps);
    }
  }
}
