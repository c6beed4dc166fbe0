/** The ingest client's retry loop: capped, jittered exponential backoff against an attempt
ceiling and a deadline. The server, the jitter source, the clock and the caller's context
are arbitrary: `World` fixes what each of them does at attempt number i. */
module Retry {
  import opened Durations

  // ----- One attempt -----

  datatype Reply =
    | RequestNotBuilt
    | NetworkError
    | BodyUnreadable
    | Response(status: int, bodyEmpty: bool, bodyParses: bool)

  datatype Attempt = Accepted | Retryable | Permanent

  function DoRequest(reply: Reply): Attempt {
    match reply
    case RequestNotBuilt => Permanent
    case NetworkError => Retryable
    case BodyUnreadable => Retryable
    case Response(status, bodyEmpty, bodyParses) =>
      if status == 200 || status == 202 then
        if bodyEmpty || bodyParses then Accepted else Permanent
      else if status == 429 || status >= 500 then Retryable
      else Permanent
  }

  /** What an answer to the request counts as, in full. */
  predicate IsAccepted(reply: Reply) {
    reply.Response? && (reply.status == 200 || reply.status == 202) && (reply.bodyEmpty || reply.bodyParses)
  }

  predicate IsWorthRetry(reply: Reply) {
    || reply.NetworkError? || reply.BodyUnreadable?
    || (reply.Response? && (reply.status == 429 || reply.status >= 500))
  }

  /** Accepted, worth a retry, or else permanent: an unreadable 200 and a request that cannot be
      built are never retried. */
  lemma VerdictIs(reply: Reply)
    ensures DoRequest(reply) == Accepted <==> IsAccepted(reply)
    ensures DoRequest(reply) == Retryable <==> IsWorthRetry(reply)
    ensures DoRequest(reply) == Permanent <==> !IsAccepted(reply) && !IsWorthRetry(reply)
  {
  }

  /** The documented verdicts: 4xx other than 429 is permanent, 429, 5xx and network errors are
      worth a retry. */
  predicate DocumentedPermanent(reply: Reply) {
    reply.Response? && 400 <= reply.status < 500 && reply.status != 429
  }

  predicate DocumentedRetryable(reply: Reply) {
    || reply.NetworkError? || reply.BodyUnreadable?
    || (reply.Response? && (reply.status == 429 || 500 <= reply.status < 600))
  }

  /** The code gives the documented verdict exactly to network errors, to 200 and 202 with an
      empty or readable body, and to the statuses from 400 to 599. */
  lemma VerdictMatchesRuleIff(reply: Reply)
    ensures (&& (DoRequest(reply) == Permanent <==> DocumentedPermanent(reply))
             && (DoRequest(reply) == Retryable <==> DocumentedRetryable(reply)))
            <==> match reply
                 case RequestNotBuilt => false
                 case NetworkError => true
                 case BodyUnreadable => true
                 case Response(status, bodyEmpty, bodyParses) =>
                   (status in {200, 202} && (bodyEmpty || bodyParses)) || 400 <= status < 600
  {
  }

  /** A 204 is rejected for good, and so is a 304; the rule makes neither permanent. */
  lemma NoContentIsRejected()
    ensures DoRequest(Response(204, true, false)) == Permanent && !DocumentedPermanent(Response(204, true, false))
    ensures DoRequest(Response(304, true, false)) == Permanent && !DocumentedPermanent(Response(304, true, false))
  {
  }

  // ----- The world around the loop -----

  datatype World = World(
    start: int,                       // the clock when Flush computes its deadline
    reply: nat -> Reply,              // what attempt i gets
    took: nat -> nat,                 // how long attempt i takes
    jittered: (nat, int) -> int,      // a backoff, jittered and converted back, before attempt i
    overslept: nat -> nat,            // how much later than asked the timer before attempt i fires
    cancelledAsleep: nat -> bool,     // the context ends during the sleep before attempt i
    cancelledAfter: nat -> bool)      // the context has ended when attempt i returns

  /** `d` is within 20% of the backoff `b`, up to the conversion to whole nanoseconds. */
  predicate Within20Percent(b: int, d: int) {
    4 * b - 5 < 5 * d && 5 * d <= 6 * b
  }

  ghost predicate JitterInRange(w: World) {
    forall i, b :: b >= 0 ==> Within20Percent(b, w.jittered(i, b))
  }

  datatype Result = NilBatch | Success | Rejected | Cancelled | Exhausted

  datatype Settings = Settings(maxRetries: nat, initialBackoff: Duration, maxBackoff: Duration, maxRetryWindow: Duration)

  predicate GoodSettings(c: Settings) {
    0 < c.initialBackoff && 0 < c.maxBackoff && 0 < c.maxRetryWindow
  }

  /** The sleep asked for before attempt k + 1. */
  function SleepBefore(c: Settings, w: World, k: nat): int {
    Min(w.jittered(k + 1, Backoff(c.initialBackoff, c.maxBackoff, k)), c.maxBackoff)
  }

  /** The first n sleeps of the schedule. */
  function Sleeps(c: Settings, w: World, n: nat): (s: seq<int>)
    ensures |s| == n
  {
    if n == 0 then [] else Sleeps(c, w, n - 1) + [SleepBefore(c, w, n - 1)]
  }

  /** The first n attempts all fail in a way worth retrying, under a live context. */
  predicate KeepsGoing(w: World, n: nat) {
    n == 0 || (KeepsGoing(w, n - 1) && DoRequest(w.reply(n - 1)) == Retryable && !w.cancelledAfter(n - 1))
  }

  function Sum(xs: seq<int>): int {
    if xs == [] then 0 else Sum(xs[..|xs| - 1]) + xs[|xs| - 1]
  }

  function Max0(x: int): nat {
    if x < 0 then 0 else x
  }

  /** The clock just before the sleep that would precede attempt k + 1: start, plus all k + 1
      requests and k sleeps so far. A timer never fires early, and a non-positive one at once. */
  function ClockBefore(c: Settings, w: World, k: nat): int {
    if k == 0 then w.start + w.took(0)
    else ClockBefore(c, w, k - 1) + Max0(SleepBefore(c, w, k - 1)) + w.overslept(k) + w.took(k)
  }

  /** The sleep before attempt k + 1 would end after the deadline. */
  predicate PastDeadline(c: Settings, w: World, k: nat) {
    ClockBefore(c, w, k) + SleepBefore(c, w, k) > w.start + c.maxRetryWindow
  }

  /** The first n sleeps all fit before the deadline and end by the timer. */
  predicate SleepsThrough(c: Settings, w: World, n: nat) {
    n == 0 || (SleepsThrough(c, w, n - 1) && !PastDeadline(c, w, n - 1) && !w.cancelledAsleep(n))
  }

  /** What a run of the loop looks like from outside. */
  predicate Honest(c: Settings, w: World, res: Result, attempts: nat, sleeps: seq<int>) {
    // The ceiling, and at least one attempt.
    && 1 <= attempts <= c.maxRetries + 1
    // Nothing is sent after a success or a permanent error, nor past the deadline.
    && KeepsGoing(w, attempts - 1)
    && SleepsThrough(c, w, attempts - 1)
    && sleeps == Sleeps(c, w, |sleeps|)
    // One sleep between attempts, and at most one more, which was cancelled.
    && |sleeps| == attempts - (if res == Cancelled && !w.cancelledAfter(attempts - 1) then 0 else 1)
    // The verdict on the last attempt is the verdict of the call; giving up has two causes.
    && var last := DoRequest(w.reply(attempts - 1));
       match res
       case NilBatch => false
       case Success => last == Accepted
       case Rejected => last == Permanent
       case Cancelled =>
         && last == Retryable
         && (|| w.cancelledAfter(attempts - 1)
             || (attempts <= c.maxRetries && !PastDeadline(c, w, attempts - 1) && w.cancelledAsleep(attempts)))
       case Exhausted =>
         && last == Retryable && !w.cancelledAfter(attempts - 1)
         && (attempts == c.maxRetries + 1 || PastDeadline(c, w, attempts - 1))
  }

  lemma SumSnoc(xs: seq<int>, x: int)
    ensures Sum(xs + [x]) == Sum(xs) + x
  {
    assert (xs + [x])[..|xs|] == xs;
  }

  datatype Progress = Progress(now: int, backoff: Duration, sleeps: seq<int>)

  /** The loop is about to make attempt number k. */
  predicate AboutToTry(c: Settings, w: World, k: nat, p: Progress) {
    && k <= c.maxRetries && KeepsGoing(w, k) && SleepsThrough(c, w, k)
    && p.now + w.took(k) == ClockBefore(c, w, k)
    && p.backoff == Backoff(c.initialBackoff, c.maxBackoff, k)
    && p.sleeps == Sleeps(c, w, k)
    && Sum(p.sleeps) <= p.now - w.start && Sum(p.sleeps) <= c.maxRetryWindow
  }

  /** Attempt number k - 1 has failed in a way worth retrying. */
  predicate HasFailed(c: Settings, w: World, k: nat, p: Progress) {
    && 0 < k <= c.maxRetries + 1 && KeepsGoing(w, k) && SleepsThrough(c, w, k - 1)
    && p.now == ClockBefore(c, w, k - 1)
    && p.backoff == Backoff(c.initialBackoff, c.maxBackoff, k - 1)
    && p.sleeps == Sleeps(c, w, k - 1)
    && Sum(p.sleeps) <= p.now - w.start && Sum(p.sleeps) <= c.maxRetryWindow
  }

  lemma StartsTrying(c: Settings, w: World)
    requires GoodSettings(c)
    ensures AboutToTry(c, w, 0, Progress(w.start, c.initialBackoff, []))
  {
  }

  lemma TryIsHonest(c: Settings, w: World, k: nat, p: Progress)
    requires AboutToTry(c, w, k, p)
    ensures DoRequest(w.reply(k)) == Accepted ==> Honest(c, w, Success, k + 1, p.sleeps)
    ensures DoRequest(w.reply(k)) == Permanent ==> Honest(c, w, Rejected, k + 1, p.sleeps)
    ensures DoRequest(w.reply(k)) == Retryable && w.cancelledAfter(k) ==> Honest(c, w, Cancelled, k + 1, p.sleeps)
    ensures DoRequest(w.reply(k)) == Retryable && !w.cancelledAfter(k) ==>
              HasFailed(c, w, k + 1, p.(now := p.now + w.took(k)))
    ensures Sum(p.sleeps) <= c.maxRetryWindow
  {
    hide DoRequest, SleepBefore, PastDeadline, Backoff, Sum;
  }

  lemma StopIsHonest(c: Settings, w: World, k: nat, p: Progress)
    requires HasFailed(c, w, k, p)
    ensures k == c.maxRetries + 1 || PastDeadline(c, w, k - 1) ==> Honest(c, w, Exhausted, k, p.sleeps)
    ensures k <= c.maxRetries && !PastDeadline(c, w, k - 1) && w.cancelledAsleep(k) ==>
              Honest(c, w, Cancelled, k, Sleeps(c, w, k))
    ensures Sum(p.sleeps) <= c.maxRetryWindow
  {
    hide DoRequest, SleepBefore, PastDeadline, Backoff, Sum;
  }

  datatype Pause = Rested | TooLate | Interrupted

  /** The sleep before attempt k: draw the jitter, check the deadline, wait, double. */
  method Rest(c: Settings, w: World, k: nat, deadline: int, p: Progress) returns (pause: Pause, p': Progress)
    requires HasFailed(c, w, k, p) && k <= c.maxRetries && deadline == w.start + c.maxRetryWindow
    ensures pause == TooLate ==> PastDeadline(c, w, k - 1) && p' == p
    ensures pause == Interrupted ==>
              && !PastDeadline(c, w, k - 1) && w.cancelledAsleep(k)
              && p'.sleeps == Sleeps(c, w, k) && Sum(p'.sleeps) <= c.maxRetryWindow
    ensures pause == Rested ==> AboutToTry(c, w, k, p')
  {
    hide DoRequest, KeepsGoing;
    p' := p;
    var sleep := Min(w.jittered(k, p.backoff), c.maxBackoff);
    assert sleep == SleepBefore(c, w, k - 1);
    if p.now + sleep > deadline {
      pause := TooLate;
      return;
    }
    SumSnoc(p.sleeps, sleep);
    p' := p'.(sleeps := p.sleeps + [sleep]);
    if w.cancelledAsleep(k) {
      pause := Interrupted;
      return;
    }
    pause := Rested;
    var backoff := Wrap64(p.backoff * 2);
    if backoff > c.maxBackoff {
      backoff := c.maxBackoff;
    }
    p' := p'.(now := p.now + Max0(sleep) + w.overslept(k), backoff := backoff);
  }

  method RetryLoop(c: Settings, w: World) returns (res: Result, attempts: nat, sleeps: seq<int>)
    requires GoodSettings(c)
    ensures Honest(c, w, res, attempts, sleeps)
    ensures Sum(sleeps) <= c.maxRetryWindow
  {
    hide AboutToTry, HasFailed, Honest, Sleeps, Sum, PastDeadline, DoRequest;
    attempts := 0;
    var p := Progress(w.start, c.initialBackoff, []);
    var deadline := p.now + c.maxRetryWindow;
    var lastErr := false;
    StartsTrying(c, w);
    while attempts <= c.maxRetries
      invariant attempts <= c.maxRetries + 1
      invariant if attempts == 0 then AboutToTry(c, w, 0, p) else HasFailed(c, w, attempts, p)
      invariant lastErr == (attempts > 0)
    {
      if attempts > 0 {
        var pause, p' := Rest(c, w, attempts, deadline, p);
        StopIsHonest(c, w, attempts, p);
        if pause == TooLate {
          break;
        }
        p := p';
        if pause == Interrupted {
          return Cancelled, attempts, p.sleeps;
        }
      }
      TryIsHonest(c, w, attempts, p);
      var outcome := DoRequest(w.reply(attempts));
      p := p.(now := p.now + w.took(attempts));
      attempts := attempts + 1;
      if outcome == Accepted {
        return Success, attempts, p.sleeps;
      }
      lastErr := true;
      if outcome == Permanent {
        return Rejected, attempts, p.sleeps;
      }
      if w.cancelledAfter(attempts - 1) {
        return Cancelled, attempts, p.sleeps;
      }
    }
    assert lastErr;   // the loop never ends without an error to report
    StopIsHonest(c, w, attempts, p);
    return Exhausted, attempts, p.sleeps;
  }

  class HTTPClient {
    var maxRetries: nat
    var initialBackoff: Duration
    var maxBackoff: Duration
    var maxRetryWindow: Duration

    function Config(): Settings
      reads this
    {
      Settings(maxRetries, initialBackoff, maxBackoff, maxRetryWindow)
    }

    constructor ()
      ensures GoodSettings(Config())
      ensures Config() == Settings(5, SECOND / 2, 15 * SECOND, 60 * SECOND)
    {
      maxRetries := 5;
      initialBackoff := SECOND / 2;
      maxBackoff := 15 * SECOND;
      maxRetryWindow := 60 * SECOND;
    }

    /** A negative ceiling is ignored. */
    method WithMaxRetries(n: int)
      requires GoodSettings(Config())
      modifies this`maxRetries
      ensures GoodSettings(Config())
      ensures maxRetries == if n >= 0 then n else old(maxRetries)
    {
      if n >= 0 {
        maxRetries := n;
      }
    }

    /** Each non-positive duration is ignored on its own. */
    method WithRetryBackoff(initial: Duration, max: Duration, window: Duration)
      requires GoodSettings(Config())
      modifies this`initialBackoff, this`maxBackoff, this`maxRetryWindow
      ensures GoodSettings(Config())
      ensures initialBackoff == if initial > 0 then initial else old(initialBackoff)
      ensures maxBackoff == if max > 0 then max else old(maxBackoff)
      ensures maxRetryWindow == if window > 0 then window else old(maxRetryWindow)
    {
      if initial > 0 {
        initialBackoff := initial;
      }
      if max > 0 {
        maxBackoff := max;
      }
      if window > 0 {
        maxRetryWindow := window;
      }
    }

    /** Sends the batch, retrying. `attempts` counts requests made, `sleeps` the sleeps asked for. */
    method Flush(batchIsNil: bool, w: World) returns (res: Result, attempts: nat, sleeps: seq<int>)
      requires GoodSettings(Config())
      ensures batchIsNil ==> res == NilBatch && attempts == 0 && sleeps == []
      ensures !batchIsNil ==> Honest(Config(), w, res, attempts, sleeps) && Sum(sleeps) <= maxRetryWindow
    {
      if batchIsNil {
        return NilBatch, 0, [];
      }
      res, attempts, sleeps := RetryLoop(Config(), w);
    }
  }

  // ----- The description leaves one possibility -----

  lemma {:induction false} KeepsGoingPrefix(c: Settings, w: World, m: nat, n: nat)
    requires m <= n && KeepsGoing(w, n) && SleepsThrough(c, w, n)
    ensures KeepsGoing(w, m) && SleepsThrough(c, w, m)
  {
    if m < n {
      KeepsGoingPrefix(c, w, m, n - 1);
    }
  }

  lemma HonestStopsOnce(c: Settings, w: World, r1: Result, a1: nat, s1: seq<int>, r2: Result, a2: nat, s2: seq<int>)
    requires Honest(c, w, r1, a1, s1) && Honest(c, w, r2, a2, s2)
    ensures a1 >= a2
  {
    if a1 < a2 {
      KeepsGoingPrefix(c, w, a1, a2 - 1);
    }
  }

  /** For given settings and world there is one result, one number of attempts, one list of sleeps. */
  lemma HonestIsUnique(c: Settings, w: World, r1: Result, a1: nat, s1: seq<int>, r2: Result, a2: nat, s2: seq<int>)
    requires Honest(c, w, r1, a1, s1) && Honest(c, w, r2, a2, s2)
    ensures r1 == r2 && a1 == a2 && s1 == s2
  {
    HonestStopsOnce(c, w, r1, a1, s1, r2, a2, s2);
    HonestStopsOnce(c, w, r2, a2, s2, r1, a1, s1);
  }

  lemma {:induction false} SleepsAt(c: Settings, w: World, n: nat, k: nat)
    requires k < n
    ensures Sleeps(c, w, n)[k] == SleepBefore(c, w, k)
  {
    if k < n - 1 {
      SleepsAt(c, w, n - 1, k);
    }
  }

  lemma {:induction false} KeepsGoingMeansRetryable(w: World, n: nat, i: nat)
    requires KeepsGoing(w, n) && i < n
    ensures DoRequest(w.reply(i)) == Retryable
  {
    if i < n - 1 {
      KeepsGoingMeansRetryable(w, n - 1, i);
    }
  }

  /** Success, or a rejection, is returned exactly when the last attempt made ended that way; all
      earlier ones were retryable, so nothing follows either; and the k-th sleep is the capped,
      jittered value of the schedule. */
  lemma HonestMeans(c: Settings, w: World, res: Result, attempts: nat, sleeps: seq<int>)
    requires Honest(c, w, res, attempts, sleeps)
    ensures 1 <= attempts <= c.maxRetries + 1 && res != NilBatch
    ensures res == Success <==> DoRequest(w.reply(attempts - 1)) == Accepted
    ensures res == Rejected <==> DoRequest(w.reply(attempts - 1)) == Permanent
    ensures forall i: nat :: i < attempts - 1 ==> DoRequest(w.reply(i)) == Retryable
    ensures forall k: nat :: k < |sleeps| ==> sleeps[k] == SleepBefore(c, w, k)
  {
    forall i: nat | i < attempts - 1
      ensures DoRequest(w.reply(i)) == Retryable
    {
      KeepsGoingMeansRetryable(w, attempts - 1, i);
    }
    forall k: nat | k < |sleeps|
      ensures sleeps[k] == SleepBefore(c, w, k)
    {
      SleepsAt(c, w, |sleeps|, k);
    }
  }

  /** Attempt number k (from 0) is made exactly when the ceiling allows it and every attempt
      before it was worth a retry and slept through. */
  lemma AttemptMadeIff(c: Settings, w: World, res: Result, attempts: nat, sleeps: seq<int>, k: nat)
    requires Honest(c, w, res, attempts, sleeps)
    ensures k < attempts <==> k <= c.maxRetries && KeepsGoing(w, k) && SleepsThrough(c, w, k)
  {
    if k < attempts {
      KeepsGoingPrefix(c, w, k, attempts - 1);
    } else if k <= c.maxRetries && KeepsGoing(w, k) && SleepsThrough(c, w, k) {
      KeepsGoingPrefix(c, w, attempts, k);
    }
  }

  /** A second request is sent exactly when retries are allowed, the first answer is worth one,
      the context lives on, and the first sleep fits into the window. */
  lemma SecondAttemptIff(c: Settings, w: World, res: Result, attempts: nat, sleeps: seq<int>)
    requires Honest(c, w, res, attempts, sleeps)
    ensures attempts >= 2 <==>
            && c.maxRetries >= 1 && IsWorthRetry(w.reply(0)) && !w.cancelledAfter(0) && !w.cancelledAsleep(1)
            && w.took(0) + Min(w.jittered(1, c.initialBackoff), c.maxBackoff) <= c.maxRetryWindow
  {
    AttemptMadeIff(c, w, res, attempts, sleeps, 1);
    VerdictIs(w.reply(0));
    assert KeepsGoing(w, 0) && SleepsThrough(c, w, 0);
  }

  /** The result in terms of the last answer. */
  lemma ResultByReply(c: Settings, w: World, res: Result, attempts: nat, sleeps: seq<int>)
    requires Honest(c, w, res, attempts, sleeps)
    ensures res == Success <==> IsAccepted(w.reply(attempts - 1))
    ensures res == Rejected <==> !IsAccepted(w.reply(attempts - 1)) && !IsWorthRetry(w.reply(attempts - 1))
    ensures forall i: nat :: i < attempts - 1 ==> IsWorthRetry(w.reply(i))
  {
    HonestMeans(c, w, res, attempts, sleeps);
    VerdictIs(w.reply(attempts - 1));
    forall i: nat | i < attempts - 1
      ensures IsWorthRetry(w.reply(i))
    {
      VerdictIs(w.reply(i));
    }
  }

  // ----- Jitter -----

  lemma FloorInBand(b: nat, x: real)
    requires 0.8 * (b as real) <= x <= 1.2 * (b as real)
    ensures Within20Percent(b, x.Floor)
  {
    var d := x.Floor as real;
    assert d <= x < d + 1.0;
    assert 5.0 * d <= 6.0 * (b as real);
    assert (5 * x.Floor) as real == 5.0 * d && (6 * b) as real == 6.0 * (b as real);
    assert 4.0 * (b as real) - 5.0 < 5.0 * d;
    assert (4 * b - 5) as real == 4.0 * (b as real) - 5.0;
  }

  lemma Scale(x: real, y: real)
    requires x >= 0.0 && y >= 0.0
    ensures x * y >= 0.0
  {
  }

  /** The jittered backoff for a draw r. */
  function Jittered(b: int, r: real): int {
    (b as real * (1.0 + (r * 0.4 - 0.2))).Floor
  }

  /** For a draw in [0, 1) the formula keeps to the 20% band. */
  lemma JitterFormulaInRange(b: nat, r: real)
    requires 0.0 <= r < 1.0
    ensures Within20Percent(b, Jittered(b, r))
  {
    var x, f := b as real, 1.0 + (r * 0.4 - 0.2);
    Scale(x, f - 0.8);
    Scale(x, 1.2 - f);
    FloorInBand(b, x * f);
  }

  /** The jitter comes from the formula with draws in [0, 1). */
  ghost predicate DrawnFrom(w: World, draw: nat -> real) {
    && (forall i :: 0.0 <= draw(i) < 1.0)
    && (forall i, b: int :: b >= 0 ==> w.jittered(i, b) == Jittered(b, draw(i)))
  }

  lemma DrawsStayInRange(w: World, draw: nat -> real)
    requires DrawnFrom(w, draw)
    ensures JitterInRange(w)
  {
    hide Jittered;
    forall i, b: int | b >= 0
      ensures Within20Percent(b, w.jittered(i, b))
    {
      JitterFormulaInRange(b, draw(i));
    }
  }

  lemma ScheduleValue(c: Settings, k: nat)
    requires GoodSettings(c) && c.initialBackoff < TWO_62 && c.maxBackoff < TWO_62
    ensures var b := Backoff(c.initialBackoff, c.maxBackoff, k);
            b > 0 && Min(b, c.maxBackoff) == CappedPower(c.initialBackoff, c.maxBackoff, k)
  {
    DoublingsPositive(c.initialBackoff, k);
    if k > 0 {
      BackoffIsCappedPower(c.initialBackoff, c.maxBackoff, k);
    }
  }

  /** Below 2^62 ns, every sleep the loop asks for is within 20% of min(initial * 2^k, cap), and
      never above the cap. */
  lemma SleepsNearSchedule(c: Settings, w: World, res: Result, attempts: nat, sleeps: seq<int>, k: nat)
    requires GoodSettings(c) && c.initialBackoff < TWO_62 && c.maxBackoff < TWO_62 && JitterInRange(w)
    requires Honest(c, w, res, attempts, sleeps) && k < |sleeps|
    ensures 0 <= sleeps[k] <= c.maxBackoff
    ensures Within20Percent(CappedPower(c.initialBackoff, c.maxBackoff, k), sleeps[k])
  {
    hide Backoff, CappedPower, Honest;
    var b := Backoff(c.initialBackoff, c.maxBackoff, k);
    HonestMeans(c, w, res, attempts, sleeps);
    ScheduleValue(c, k);
    assert Within20Percent(b, w.jittered(k + 1, b));
  }
}
