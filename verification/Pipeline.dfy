/** The informer handler: filter the mapped events in place, then hand them to the batcher. */
module Pipeline {
  import opened Wire
  import opened Filter
  import opened Batching

  const TIER1 := "tier1"
  const TIER2 := "tier2"

  class Handler {
    const minSeverity: int
    const batcher: Batcher
    var filtered: map<string, nat>    // the filtered-events counter, by tier label

    ghost predicate Valid()
      reads this, batcher
    {
      filtered.Keys == {TIER1, TIER2} && batcher.Valid()
    }

    constructor (minSeverity: int, batcher: Batcher)
      requires batcher.Valid()
      ensures Valid() && this.minSeverity == minSeverity && this.batcher == batcher
      ensures filtered == map[TIER1 := 0, TIER2 := 0]
    {
      this.minSeverity := minSeverity;
      this.batcher := batcher;
      filtered := map[TIER1 := 0, TIER2 := 0];
    }

    /** The loop over `events[:0]`: survivors are written through the slice being read.
        Writing stays behind reading, so what lies at or beyond `kept` is still the input. */
    method Compact(events: array<Event>) returns (kept: nat)
      requires filtered.Keys == {TIER1, TIER2}
      modifies events, this`filtered
      ensures kept <= events.Length
      ensures events[..kept] == Accepted(minSeverity, old(events[..]))
      ensures events[kept..] == old(events[kept..])
      ensures filtered == old(filtered)[TIER2 := old(filtered)[TIER2] + (events.Length - kept)]
    {
      hide Accept, Accepted, IsTier1;
      kept := 0;
      assert Accepted(minSeverity, old(events[..0])) == [] by {
        NothingAccepted(minSeverity);
      }
      for i := 0 to events.Length
        invariant kept <= i
        invariant events[..kept] == Accepted(minSeverity, old(events[..i]))
        invariant forall k :: kept <= k < events.Length ==> events[k] == old(events[k])
        invariant filtered == old(filtered)[TIER2 := old(filtered)[TIER2] + (i - kept)]
      {
        var ev := events[i];
        AcceptedPrefix(minSeverity, old(events[..]), i);
        assert old(events[..])[..i] == old(events[..i]) && old(events[..])[..i + 1] == old(events[..i + 1]);
        Tier1IsAccepted(minSeverity, ev);
        if Accept(minSeverity, ev) {
          events[kept] := ev;
          kept := kept + 1;
        } else {
          var tier := TIER2;
          if IsTier1(ev.kind) {
            tier := TIER1;
          }
          filtered := filtered[tier := filtered[tier] + 1];
        }
      }
      assert old(events[..events.Length]) == old(events[..]);
    }

    /** One informer notification. `mapped` is None when the mapper returned an error.
        Every mapped event is filtered as tier 2, buffered, or counted as a buffer_full drop. */
    method Emit(mapped: Option<array<Event>>)
      requires Valid()
      modifies this`filtered, batcher`buffer, batcher`flushSignal, batcher`bufferFullDrops
      modifies if mapped.Some? then {mapped.value} else {}
      ensures Valid()
      ensures mapped.None? ==>
                && filtered == old(filtered) && batcher.buffer == old(batcher.buffer)
                && batcher.flushSignal == old(batcher.flushSignal)
                && batcher.bufferFullDrops == old(batcher.bufferFullDrops)
      ensures mapped.Some? ==>
                var kept := Accepted(minSeverity, old(mapped.value[..]));
                var n := AdmitCount(|old(batcher.buffer)|, |kept|);
                && batcher.buffer == old(batcher.buffer) + kept[..n]
                && batcher.bufferFullDrops == old(batcher.bufferFullDrops) + (|kept| - n)
                && batcher.flushSignal == (old(batcher.flushSignal) ||
                                           (&& |kept| > 0 && |old(batcher.buffer)| < BUFFER_DROP_THRESHOLD
                                            && |batcher.buffer| >= batcher.maxBatchSize))
                && filtered[TIER1] == old(filtered[TIER1])
                && filtered[TIER2] == old(filtered[TIER2]) + (mapped.value.Length - |kept|)
    {
      if mapped.None? {
        return;
      }
      var events := mapped.value;
      if events.Length == 0 {
        return;
      }
      var kept := Compact(events);
      if kept == 0 {
        return;
      }
      batcher.Enqueue(events[..kept]);
    }
  }
}
