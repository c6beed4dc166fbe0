/** The event buffer: tail-dropping admission, the one-slot flush signal and the swap. */
module Batching {
  import opened Wire

  const DEFAULT_MAX_BATCH_SIZE: nat := 1000
  const ABSOLUTE_MAX_BATCH_SIZE: nat := 10000
  const BUFFER_DROP_THRESHOLD: nat := ABSOLUTE_MAX_BATCH_SIZE * 100

  /** How many of `offered` events a buffer of length `current` takes. */
  function AdmitCount(current: nat, offered: nat): (n: nat)
    ensures n <= offered
    ensures current <= 1_000_000 ==> current + n <= 1_000_000
    ensures n < offered ==> current + n >= 1_000_000
  {
    if current >= BUFFER_DROP_THRESHOLD then 0
    else if offered > BUFFER_DROP_THRESHOLD - current then BUFFER_DROP_THRESHOLD - current
    else offered
  }

  datatype FlushReply = Sent(captureModeRequested: string) | FlushFailed

  class Batcher {
    var maxBatchSize: nat
    var buffer: seq<Event>
    var flushSignal: bool        // the one-slot channel holds a token
    var captureModeReq: string
    var bufferFullDrops: nat     // the buffer_full drop counter

    ghost predicate Valid()
      reads this
    {
      0 < maxBatchSize <= ABSOLUTE_MAX_BATCH_SIZE && |buffer| <= BUFFER_DROP_THRESHOLD
    }

    constructor ()
      ensures Valid() && buffer == [] && !flushSignal && captureModeReq == "" && bufferFullDrops == 0
      ensures maxBatchSize == 1000
    {
      maxBatchSize := DEFAULT_MAX_BATCH_SIZE;
      buffer := [];
      flushSignal := false;
      captureModeReq := "";
      bufferFullDrops := 0;
    }

    /** The option: non-positive values are ignored, large ones clamped. */
    method WithMaxBatchSize(n: int)
      requires Valid()
      modifies this`maxBatchSize
      ensures Valid()
      ensures n <= 0 ==> maxBatchSize == old(maxBatchSize)
      ensures n > 0 ==> maxBatchSize == if n > 10_000 then 10_000 else n
    {
      if n <= 0 {
        return;
      }
      var m := n;
      if m > ABSOLUTE_MAX_BATCH_SIZE {
        m := ABSOLUTE_MAX_BATCH_SIZE;
      }
      maxBatchSize := m;
    }

    /** A prefix of `events` joins the end of the buffer; the rest is counted as dropped. */
    method Enqueue(events: seq<Event>)
      requires Valid()
      modifies this`buffer, this`flushSignal, this`bufferFullDrops
      ensures Valid()
      ensures var n := AdmitCount(|old(buffer)|, |events|);
              && buffer == old(buffer) + events[..n]
              && bufferFullDrops == old(bufferFullDrops) + (|events| - n)
      ensures flushSignal == (old(flushSignal) ||
                              (|events| > 0 && |old(buffer)| < BUFFER_DROP_THRESHOLD && |buffer| >= maxBatchSize))
    {
      if |events| == 0 {
        return;
      }
      var current := |buffer|;
      if current >= BUFFER_DROP_THRESHOLD {
        bufferFullDrops := bufferFullDrops + |events|;
        return;
      }
      var available := BUFFER_DROP_THRESHOLD - current;
      var admitted := events;
      if |events| > available {
        admitted := events[..available];
        bufferFullDrops := bufferFullDrops + (|events| - available);
      }
      buffer := buffer + admitted;
      if |buffer| >= maxBatchSize {
        flushSignal := true;
      }
    }

    /** The whole buffer leaves as one batch; a failed batch is not put back. */
    method FlushNow(reply: FlushReply) returns (batch: seq<Event>, ok: bool)
      requires Valid()
      modifies this`buffer, this`captureModeReq
      ensures Valid()
      ensures batch == old(buffer) && buffer == []
      ensures ok == (batch == [] || reply.Sent?)
      ensures captureModeReq == if batch != [] && reply.Sent? && reply.captureModeRequested != ""
                                then reply.captureModeRequested else old(captureModeReq)
    {
      batch := buffer;
      ok := true;
      if |buffer| == 0 {
        return;
      }
      buffer := [];
      if reply.FlushFailed? {
        ok := false;
        return;
      }
      if reply.captureModeRequested != "" {
        captureModeReq := reply.captureModeRequested;
      }
    }
  }
}
