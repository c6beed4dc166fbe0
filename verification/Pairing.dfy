/** Starts and successes among emitted events. */
module Pairing {
  import opened Wire
  import opened Mapper

  /** The revision of the latest DEPLOY_STARTED since the last DEPLOY_SUCCEEDED. */
  function OpenStart(events: seq<Event>): Option<Attr> {
    if events == [] then None
    else
      var ev := events[|events| - 1];
      if ev.kind == DEPLOY_SUCCEEDED then None
      else if ev.kind == DEPLOY_STARTED then
        if REVISION_ATTR in ev.attributes then Some(ev.attributes[REVISION_ATTR]) else Some(Words(""))
      else OpenStart(events[..|events| - 1])
  }

  predicate HasOwnStart(events: seq<Event>, j: nat)
    requires j < |events|
  {
    exists i :: && 0 <= i < j && events[i].kind == DEPLOY_STARTED
                && forall k :: i < k < j ==> events[k].kind != DEPLOY_SUCCEEDED
  }

  /** Each DEPLOY_SUCCEEDED has a DEPLOY_STARTED before it, later than any other DEPLOY_SUCCEEDED before it. */
  predicate Paired(events: seq<Event>) {
    forall j :: 0 <= j < |events| && events[j].kind == DEPLOY_SUCCEEDED ==> HasOwnStart(events, j)
  }

  lemma {:induction false} OpenStartIsStart(events: seq<Event>)
    requires OpenStart(events).Some?
    ensures exists i :: && 0 <= i < |events| && events[i].kind == DEPLOY_STARTED
                        && forall k :: i < k < |events| ==> events[k].kind != DEPLOY_SUCCEEDED
  {
    var n := |events| - 1;
    if events[n].kind != DEPLOY_STARTED {
      OpenStartIsStart(events[..n]);
      var i :| && 0 <= i < n && events[..n][i].kind == DEPLOY_STARTED
               && forall k :: i < k < n ==> events[..n][k].kind != DEPLOY_SUCCEEDED;
      assert forall k :: 0 <= k < n ==> events[..n][k] == events[k];
      assert events[i].kind == DEPLOY_STARTED;
    }
  }

  lemma OwnStartStays(events: seq<Event>, ev: Event, j: nat)
    requires j < |events|
    ensures HasOwnStart(events + [ev], j) <==> HasOwnStart(events, j)
  {
    var more := events + [ev];
    assert forall i :: 0 <= i < |events| ==> more[i] == events[i];
    if HasOwnStart(events, j) {
      var i :| && 0 <= i < j && events[i].kind == DEPLOY_STARTED
               && forall k :: i < k < j ==> events[k].kind != DEPLOY_SUCCEEDED;
      assert more[i].kind == DEPLOY_STARTED;
    }
    if HasOwnStart(more, j) {
      var i :| && 0 <= i < j && more[i].kind == DEPLOY_STARTED
               && forall k :: i < k < j ==> more[k].kind != DEPLOY_SUCCEEDED;
      assert events[i].kind == DEPLOY_STARTED;
    }
  }

  lemma {:induction false} NoOpenStart(events: seq<Event>, i: nat)
    requires OpenStart(events).None? && i < |events| && events[i].kind == DEPLOY_STARTED
    ensures exists k :: i < k < |events| && events[k].kind == DEPLOY_SUCCEEDED
  {
    var n := |events| - 1;
    assert |DEPLOY_STARTED| != |DEPLOY_SUCCEEDED|;
    if events[n].kind != DEPLOY_SUCCEEDED {
      NoOpenStart(events[..n], i);
    }
  }

  lemma LastHasOwnStart(events: seq<Event>, ev: Event)
    ensures HasOwnStart(events + [ev], |events|) <==> OpenStart(events).Some?
  {
    var more := events + [ev];
    if OpenStart(events).Some? {
      OpenStartIsStart(events);
      var i :| && 0 <= i < |events| && events[i].kind == DEPLOY_STARTED
               && forall k :: i < k < |events| ==> events[k].kind != DEPLOY_SUCCEEDED;
      assert more[i].kind == DEPLOY_STARTED;
    } else {
      forall i: nat | i < |events| && more[i].kind == DEPLOY_STARTED
        ensures exists k :: i < k < |events| && more[k].kind == DEPLOY_SUCCEEDED
      {
        NoOpenStart(events, i);
        var k :| i < k < |events| && events[k].kind == DEPLOY_SUCCEEDED;
        assert more[k].kind == DEPLOY_SUCCEEDED;
      }
    }
  }

  /** Appending keeps the pairing exactly when a success finds an open start. */
  lemma PairedAppendIff(events: seq<Event>, ev: Event)
    ensures Paired(events + [ev]) <==>
            Paired(events) && (ev.kind == DEPLOY_SUCCEEDED ==> OpenStart(events).Some?)
  {
    var more := events + [ev];
    forall j: nat | j < |events|
      ensures HasOwnStart(more, j) <==> HasOwnStart(events, j)
      ensures more[j] == events[j]
    {
      OwnStartStays(events, ev, j);
    }
    LastHasOwnStart(events, ev);
    assert more[|events|] == ev;
  }

  lemma OpenStartAppend(events: seq<Event>, ev: Event)
    ensures OpenStart(events + [ev]) ==
            if ev.kind == DEPLOY_SUCCEEDED then None
            else if ev.kind == DEPLOY_STARTED then
              if REVISION_ATTR in ev.attributes then Some(ev.attributes[REVISION_ATTR]) else Some(Words(""))
            else OpenStart(events)
  {
    assert (events + [ev])[..|events|] == events;
  }

  lemma NothingIsPaired()
    ensures Paired([])
  {
  }
}
