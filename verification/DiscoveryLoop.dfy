/** The reconciliation loop: one poll of the services list per cycle. */
module DiscoveryLoop {
  import opened Sequences
  import opened Wire
  import opened Durations
  import opened Discovery

  datatype Gauges = Gauges(matched: nat, ghost_: nat, mismatched: nat, new_: nat)

  /** One cycle's answers: the services list, and the workload lists unless one failed. */
  datatype Poll = ListFailed | Listed(registered: seq<ServiceEntry>, workloads: Option<seq<Workload>>)

  datatype LoopState = LoopState(interval: Duration, backoff: Duration, gauges: Gauges)

  function GracePeriod(interval: Duration): Duration {
    Wrap64(interval + NEW_WORKLOAD_GRACE_EXTRA)
  }

  /** How many workloads get classification `cls`. */
  function CountOf(cls: Classification, ws: seq<Workload>, byID: map<string, ServiceEntry>, grace: int): nat {
    if ws == [] then 0
    else CountOf(cls, ws[..|ws| - 1], byID, grace) + if Classify(ws[|ws| - 1], byID, grace) == cls then 1 else 0
  }

  function GaugesFor(interval: Duration, registered: seq<ServiceEntry>, ws: seq<Workload>): Gauges {
    var byID, grace := Index(registered), GracePeriod(interval);
    Gauges(CountOf(Matched, ws, byID, grace), CountOf(Ghost, ws, byID, grace),
           CountOf(Mismatched, ws, byID, grace), CountOf(New, ws, byID, grace))
  }

  /** What one cycle does to the loop's state. */
  function Cycle(s: LoopState, p: Poll): LoopState {
    match p
    case ListFailed => s
    case Listed(registered, workloads) =>
      if registered == [] then s.(backoff := DoubledUpTo(MAX_BACKOFF, s.backoff))
      else
        match workloads
        case None => s.(backoff := s.interval)
        case Some(ws) => s.(backoff := s.interval, gauges := GaugesFor(s.interval, registered, ws))
  }

  // ----- The classes by their conditions -----

  /** The last entry registered under the id says whether the service is instrumented. */
  ghost predicate LastSays(registered: seq<ServiceEntry>, id: string, instrumented: bool) {
    exists k: nat :: IsLastEntry(registered, id, k) && registered[k].instrumented == instrumented
  }

  ghost function MatchedIn(registered: seq<ServiceEntry>): Workload -> bool {
    (w: Workload) => LastSays(registered, ServiceID(w), true)
  }

  ghost function GhostIn(registered: seq<ServiceEntry>): Workload -> bool {
    (w: Workload) => LastSays(registered, ServiceID(w), false)
  }

  ghost function MismatchedIn(registered: seq<ServiceEntry>, limit: int): Workload -> bool {
    (w: Workload) => ServiceID(w) !in IDs(registered) && w.age >= limit
  }

  ghost function NewIn(registered: seq<ServiceEntry>, limit: int): Workload -> bool {
    (w: Workload) => ServiceID(w) !in IDs(registered) && w.age < limit
  }

  /** The age below which a workload is new: the interval and 30 seconds, in 64 bits. */
  function AgeLimit(interval: Duration): int {
    var sum := interval + 30_000_000_000;
    if sum < 0x8000_0000_0000_0000 then sum else sum - 0x1_0000_0000_0000_0000
  }

  lemma {:induction false} CountsByCondition(registered: seq<ServiceEntry>, ws: seq<Workload>, limit: int)
    ensures CountOf(Matched, ws, Index(registered), limit) == CountWhere(MatchedIn(registered), ws)
    ensures CountOf(Ghost, ws, Index(registered), limit) == CountWhere(GhostIn(registered), ws)
    ensures CountOf(Mismatched, ws, Index(registered), limit) == CountWhere(MismatchedIn(registered, limit), ws)
    ensures CountOf(New, ws, Index(registered), limit) == CountWhere(NewIn(registered, limit), ws)
  {
    if ws == [] {
    } else {
      CountsByCondition(registered, ws[..|ws| - 1], limit);
      ClassifyByLastEntry(ws[|ws| - 1], registered, limit);
    }
  }

  /** A non-positive interval stands for the default. */
  function Effective(interval: Duration): Duration {
    if interval <= 0 then DEFAULT_INTERVAL else interval
  }

  function Start(interval: Duration): LoopState {
    LoopState(Effective(interval), Effective(interval), Gauges(0, 0, 0, 0))
  }

  /** The counting loop of a cycle. */
  method Tally(ws: seq<Workload>, byID: map<string, ServiceEntry>, ids: seq<string>, grace: int)
    returns (matched: nat, ghost_: nat, mismatched: nat, new_: nat)
    ensures matched == CountOf(Matched, ws, byID, grace)
    ensures ghost_ == CountOf(Ghost, ws, byID, grace)
    ensures mismatched == CountOf(Mismatched, ws, byID, grace)
    ensures new_ == CountOf(New, ws, byID, grace)
  {
    matched, ghost_, mismatched, new_ := 0, 0, 0, 0;
    for i := 0 to |ws|
      invariant matched == CountOf(Matched, ws[..i], byID, grace)
      invariant ghost_ == CountOf(Ghost, ws[..i], byID, grace)
      invariant mismatched == CountOf(Mismatched, ws[..i], byID, grace)
      invariant new_ == CountOf(New, ws[..i], byID, grace)
    {
      var cls, _ := ClassifyWithHint(ws[i], byID, ids, grace);
      assert ws[..i + 1][..i] == ws[..i];
      match cls
      case Matched => matched := matched + 1;
      case Ghost => ghost_ := ghost_ + 1;
      case Mismatched => mismatched := mismatched + 1;
      case New => new_ := new_ + 1;
    }
    assert ws[..|ws|] == ws;
  }

  class Reconciler {
    const interval: Duration
    var currentBackoff: Duration
    var matchedGauge: nat
    var ghostGauge: nat
    var mismatchedGauge: nat
    var newGauge: nat

    function View(): LoopState
      reads this
    {
      LoopState(interval, currentBackoff, Gauges(matchedGauge, ghostGauge, mismatchedGauge, newGauge))
    }

    constructor (interval: Duration)
      ensures View() == Start(interval)
    {
      var i := Effective(interval);
      this.interval := i;
      currentBackoff := i;
      matchedGauge, ghostGauge, mismatchedGauge, newGauge := 0, 0, 0, 0;
    }

    method RunOnce(p: Poll) returns (ok: bool)
      modifies this
      ensures View() == Cycle(old(View()), p)
      ensures !ok <==> p.ListFailed? || (p.registered != [] && p.workloads.None?)
      ensures if p.Listed? && p.registered != [] && p.workloads.Some? then
                && matchedGauge == CountWhere(MatchedIn(p.registered), p.workloads.value)
                && ghostGauge == CountWhere(GhostIn(p.registered), p.workloads.value)
                && mismatchedGauge == CountWhere(MismatchedIn(p.registered, AgeLimit(interval)), p.workloads.value)
                && newGauge == CountWhere(NewIn(p.registered, AgeLimit(interval)), p.workloads.value)
              else
                && matchedGauge == old(matchedGauge) && ghostGauge == old(ghostGauge)
                && mismatchedGauge == old(mismatchedGauge) && newGauge == old(newGauge)
    {
      if p.ListFailed? {
        return false;
      }
      if |p.registered| == 0 {
        currentBackoff := Wrap64(currentBackoff * 2);
        if currentBackoff > MAX_BACKOFF {
          currentBackoff := MAX_BACKOFF;
        }
        return true;
      }
      currentBackoff := interval;
      var byID, ids := BuildIndex(p.registered);
      if p.workloads.None? {
        return false;
      }
      var matched, ghost_, mismatched, new_ := Tally(p.workloads.value, byID, ids, GracePeriod(interval));
      CountsByCondition(p.registered, p.workloads.value, GracePeriod(interval));
      matchedGauge := matched;
      ghostGauge := ghost_;
      mismatchedGauge := mismatched;
      newGauge := new_;
      return true;
    }
  }

  // ----- Whole runs -----

  function RunAll(s: LoopState, polls: seq<Poll>): LoopState {
    if polls == [] then s else Cycle(RunAll(s, polls[..|polls| - 1]), polls[|polls| - 1])
  }

  /** Empty lists since the last non-empty one; failed lists do not count. */
  function EmptiesSinceReset(polls: seq<Poll>): nat {
    if polls == [] then 0
    else
      var before := EmptiesSinceReset(polls[..|polls| - 1]);
      match polls[|polls| - 1]
      case ListFailed => before
      case Listed(registered, _) => if registered == [] then before + 1 else 0
  }

  lemma {:induction false} BackoffAfterRun(interval: Duration, polls: seq<Poll>)
    ensures RunAll(Start(interval), polls).interval == Effective(interval)
    ensures RunAll(Start(interval), polls).backoff == Backoff(Effective(interval), MAX_BACKOFF, EmptiesSinceReset(polls))
  {
    if polls == [] {
    } else {
      BackoffAfterRun(interval, polls[..|polls| - 1]);
    }
  }

  /** The wait the documentation describes, after k empty lists in a row. */
  function DocumentedWait(interval: Duration, k: nat): int {
    if k == 0 then interval else CappedPower(interval, 1_800_000_000_000, k)
  }

  function Empties(k: nat): (polls: seq<Poll>)
    ensures EmptiesSinceReset(polls) == k
  {
    if k == 0 then []
    else
      var polls := Empties(k - 1);
      assert (polls + [Listed([], None)])[..|polls|] == polls;
      polls + [Listed([], None)]
  }

  /** After every run the wait is the interval, or min(interval * 2^k, 30 min) after k empty
      lists, exactly for intervals below 2^62 ns. */
  lemma WaitAfterEveryRunIff(interval: Duration)
    ensures (forall polls :: RunAll(Start(interval), polls).backoff
                             == DocumentedWait(Effective(interval), EmptiesSinceReset(polls)))
            <==> interval < TWO_62
  {
    var i := Effective(interval);
    BackoffScheduleIff(i, MAX_BACKOFF);
    if interval < TWO_62 {
      forall polls
        ensures RunAll(Start(interval), polls).backoff == DocumentedWait(i, EmptiesSinceReset(polls))
      {
        BackoffAfterRun(interval, polls);
      }
    } else {
      var bad: nat :| bad > 0 && Backoff(i, MAX_BACKOFF, bad) != CappedPower(i, MAX_BACKOFF, bad);
      BackoffAfterRun(interval, Empties(bad));
    }
  }

  /** The last cycle that got a non-empty services list and all workload lists. */
  function LastComplete(polls: seq<Poll>): Option<Poll> {
    if polls == [] then None
    else
      var p := polls[|polls| - 1];
      if p.Listed? && p.registered != [] && p.workloads.Some? then Some(p)
      else LastComplete(polls[..|polls| - 1])
  }

  lemma {:induction false} CountsPartition(ws: seq<Workload>, byID: map<string, ServiceEntry>, grace: int)
    ensures CountOf(Matched, ws, byID, grace) + CountOf(Ghost, ws, byID, grace)
          + CountOf(Mismatched, ws, byID, grace) + CountOf(New, ws, byID, grace) == |ws|
  {
    if ws == [] {
    } else {
      CountsPartition(ws[..|ws| - 1], byID, grace);
    }
  }

  /** The gauges always describe the last complete cycle, each its own class, together all of
      its workloads; failed and empty cycles leave them alone. */
  lemma {:induction false} GaugesAfterRun(interval: Duration, polls: seq<Poll>)
    ensures var g := RunAll(Start(interval), polls).gauges;
            match LastComplete(polls)
            case None => g == Gauges(0, 0, 0, 0)
            case Some(p) =>
              && p.Listed? && p.workloads.Some?
              && g == GaugesFor(Effective(interval), p.registered, p.workloads.value)
              && g.matched + g.ghost_ + g.mismatched + g.new_ == |p.workloads.value|
  {
    BackoffAfterRun(interval, polls);
    if polls == [] {
    } else {
      var p := polls[|polls| - 1];
      BackoffAfterRun(interval, polls[..|polls| - 1]);
      GaugesAfterRun(interval, polls[..|polls| - 1]);
      if p.Listed? && p.workloads.Some? {
        CountsPartition(p.workloads.value, Index(p.registered), GracePeriod(Effective(interval)));
      }
    }
  }

  /** After any run each gauge counts the workloads of the last complete cycle that meet its own
      condition: the last entry under the id is instrumented, or is not; the id is not registered
      and the workload is at least the interval and 30 seconds old, or is younger. */
  lemma GaugesCountClasses(interval: Duration, polls: seq<Poll>)
    requires LastComplete(polls).Some?
    ensures var g, p := RunAll(Start(interval), polls).gauges, LastComplete(polls).value;
            var limit := AgeLimit(if interval <= 0 then 300_000_000_000 else interval);
            && p.Listed? && p.workloads.Some?
            && g.matched == CountWhere(MatchedIn(p.registered), p.workloads.value)
            && g.ghost_ == CountWhere(GhostIn(p.registered), p.workloads.value)
            && g.mismatched == CountWhere(MismatchedIn(p.registered, limit), p.workloads.value)
            && g.new_ == CountWhere(NewIn(p.registered, limit), p.workloads.value)
  {
    GaugesAfterRun(interval, polls);
    var p := LastComplete(polls).value;
    CountsByCondition(p.registered, p.workloads.value, GracePeriod(Effective(interval)));
  }
}
