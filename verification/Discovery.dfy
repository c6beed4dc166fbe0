/** Classification of workloads against the registered services, with the fuzzy hint. */
module Discovery {
  import opened Wire
  import opened Durations
  import opened Identity
  import opened EditDistance

  const FUZZY_MATCH_THRESHOLD := 2
  const DEFAULT_INTERVAL: Duration := 5 * MINUTE
  const NEW_WORKLOAD_GRACE_EXTRA: Duration := 30 * SECOND
  const MAX_BACKOFF: Duration := 30 * MINUTE

  datatype ServiceEntry = ServiceEntry(serviceID: string, instrumented: bool)

  datatype Classification = Matched | Ghost | Mismatched | New

  /** A listed workload; `age` is the time since its creation when it is classified. */
  datatype Workload = Workload(kind: string, namespace: string, name: string, annotations: map<string, string>, age: int)

  function ResolvedServiceID(annotations: map<string, string>, fallback: string): string {
    if SERVICE_ID_ANNOTATION in annotations && annotations[SERVICE_ID_ANNOTATION] != ""
    then annotations[SERVICE_ID_ANNOTATION]
    else fallback
  }

  function ServiceID(w: Workload): string {
    ResolvedServiceID(w.annotations, w.name)
  }

  // ----- Index of the registered services -----

  function IDs(registered: seq<ServiceEntry>): seq<string> {
    seq(|registered|, i requires 0 <= i < |registered| => registered[i].serviceID)
  }

  /** Lookup by id; a later entry replaces an earlier one with the same id. */
  function Index(registered: seq<ServiceEntry>): map<string, ServiceEntry> {
    if registered == [] then map[]
    else
      var s := registered[|registered| - 1];
      Index(registered[..|registered| - 1])[s.serviceID := s]
  }

  /** Position i holds the last entry registered under `id`. */
  predicate IsLastEntry(registered: seq<ServiceEntry>, id: string, i: nat) {
    && i < |registered| && registered[i].serviceID == id
    && forall j :: i < j < |registered| ==> registered[j].serviceID != id
  }

  /** Looking an id up finds the last entry registered under it. */
  lemma {:induction false} IndexFindsLast(registered: seq<ServiceEntry>, i: nat)
    requires i < |registered| && IsLastEntry(registered, registered[i].serviceID, i)
    ensures registered[i].serviceID in Index(registered)
    ensures Index(registered)[registered[i].serviceID] == registered[i]
  {
    var n := |registered| - 1;
    if i != n {
      assert registered[n].serviceID != registered[i].serviceID;
      IndexFindsLast(registered[..n], i);
    }
  }

  lemma {:induction false} RegisteredIsIndexed(registered: seq<ServiceEntry>, k: nat)
    requires k < |registered|
    ensures registered[k].serviceID in Index(registered)
  {
    if k != |registered| - 1 {
      RegisteredIsIndexed(registered[..|registered| - 1], k);
    }
  }

  /** Only registered ids are found. */
  lemma {:induction false} IndexedIsRegistered(registered: seq<ServiceEntry>, id: string) returns (k: nat)
    requires id in Index(registered)
    ensures k < |registered| && registered[k].serviceID == id
  {
    k := |registered| - 1;
    if registered[k].serviceID != id {
      k := IndexedIsRegistered(registered[..k], id);
    }
  }

  /** The loop that builds the lookup map and the candidate list. */
  method BuildIndex(registered: seq<ServiceEntry>) returns (byID: map<string, ServiceEntry>, ids: seq<string>)
    ensures byID == Index(registered)
    ensures ids == IDs(registered)
  {
    byID, ids := map[], [];
    for i := 0 to |registered|
      invariant byID == Index(registered[..i])
      invariant ids == IDs(registered[..i])
    {
      var s := registered[i];
      assert registered[..i + 1][..i] == registered[..i];
      byID := byID[s.serviceID := s];
      ids := ids + [s.serviceID];
    }
    assert registered[..|registered|] == registered;
  }

  // ----- The hint -----

  ghost function Dists(target: string, candidates: seq<string>): seq<nat> {
    seq(|candidates|, i requires 0 <= i < |candidates| => Dist(target, candidates[i]))
  }

  /** `ds[k]` is the least element and no earlier one equals it. */
  predicate FirstMinimum(ds: seq<nat>, k: nat) {
    && k < |ds|
    && (forall j :: 0 <= j < k ==> ds[j] > ds[k])
    && (forall j :: k <= j < |ds| ==> ds[j] >= ds[k])
  }

  /** `best` is the first candidate at minimum distance, and it is near enough. */
  ghost predicate IsSuggestion(target: string, candidates: seq<string>, maxDist: int, best: string) {
    exists k: nat :: && FirstMinimum(Dists(target, candidates), k)
                     && best == candidates[k] && Dist(target, best) <= maxDist
  }

  method FuzzyMatch(target: string, candidates: seq<string>, maxDist: int) returns (best: string, ok: bool)
    ensures ok ==> IsSuggestion(target, candidates, maxDist, best)
    ensures ok <==> exists j :: 0 <= j < |candidates| && Dist(target, candidates[j]) <= maxDist
    ensures !ok ==> best == ""
  {
    hide Dist, IsEditDistance;
    best := "";
    var bestDist := maxDist + 1;
    ghost var ds, at := Dists(target, candidates), 0;
    for i := 0 to |candidates|
      invariant bestDist <= maxDist + 1
      invariant forall j :: 0 <= j < i ==> ds[j] >= bestDist
      invariant bestDist <= maxDist ==>
                  && 0 <= at < i && best == candidates[at] && bestDist == ds[at]
                  && forall j :: 0 <= j < at ==> ds[j] > bestDist
    {
      var d := Levenshtein(target, candidates[i]);
      assert d == ds[i];
      if d < bestDist {
        bestDist := d;
        best := candidates[i];
        at := i;
      }
    }
    assert forall j :: 0 <= j < |candidates| ==> Dist(target, candidates[j]) == ds[j];
    if bestDist > maxDist {
      return "", false;
    }
    assert FirstMinimum(ds, at);
    return best, true;
  }

  function Classify(w: Workload, byID: map<string, ServiceEntry>, gracePeriod: int): Classification {
    if ServiceID(w) in byID then
      if byID[ServiceID(w)].instrumented then Matched else Ghost
    else if w.age < gracePeriod then New
    else Mismatched
  }

  lemma {:induction false} LastEntryExists(registered: seq<ServiceEntry>, id: string) returns (k: nat)
    requires id in IDs(registered)
    ensures IsLastEntry(registered, id, k)
  {
    k := |registered| - 1;
    if registered[k].serviceID != id {
      var i :| 0 <= i < |registered| && IDs(registered)[i] == id;
      assert IDs(registered[..k])[i] == id;
      k := LastEntryExists(registered[..k], id);
    }
  }

  /** The class in terms of the registered list: the last entry under the workload's id decides
      between matched and ghost, and without an entry the age decides. */
  lemma ClassifyByLastEntry(w: Workload, registered: seq<ServiceEntry>, grace: int)
    ensures var cls := Classify(w, Index(registered), grace);
            && (cls == Matched <==> exists k: nat :: IsLastEntry(registered, ServiceID(w), k) && registered[k].instrumented)
            && (cls == Ghost <==> exists k: nat :: IsLastEntry(registered, ServiceID(w), k) && !registered[k].instrumented)
            && (cls == New <==> ServiceID(w) !in IDs(registered) && w.age < grace)
            && (cls == Mismatched <==> ServiceID(w) !in IDs(registered) && w.age >= grace)
  {
    var id := ServiceID(w);
    assert forall k: nat :: k < |registered| ==> IDs(registered)[k] == registered[k].serviceID;
    if id in Index(registered) {
      var k := IndexedIsRegistered(registered, id);
      assert id in IDs(registered);
    }
    if id in IDs(registered) {
      var k := LastEntryExists(registered, id);
      IndexFindsLast(registered, k);
    }
  }

  /** Classification together with the hint that is logged for a mismatched workload. */
  method ClassifyWithHint(w: Workload, byID: map<string, ServiceEntry>, ids: seq<string>, gracePeriod: int)
    returns (cls: Classification, hint: Option<string>)
    ensures cls == Classify(w, byID, gracePeriod)
    ensures hint.Some? ==> cls == Mismatched && IsSuggestion(ServiceID(w), ids, 2, hint.value)
    ensures cls == Mismatched && hint.None? ==>
              forall j :: 0 <= j < |ids| ==> Dist(ServiceID(w), ids[j]) > 2
  {
    hint := None;
    var id := ServiceID(w);
    if id in byID {
      cls := if byID[id].instrumented then Matched else Ghost;
      return;
    }
    if w.age < gracePeriod {
      cls := New;
      return;
    }
    var suggestion, ok := FuzzyMatch(id, ids, FUZZY_MATCH_THRESHOLD);
    if ok {
      hint := Some(suggestion);
    }
    cls := Mismatched;
  }

  /** The workload after an administrator does what the hint says. */
  function Annotate(w: Workload, id: string): Workload {
    w.(annotations := w.annotations[SERVICE_ID_ANNOTATION := id])
  }

  predicate Recognised(c: Classification) {
    c == Matched || c == Ghost
  }

  /** A suggestion is one or two edits away, and following it makes the workload recognised
      exactly when it is non-empty or the workload's own name is registered. */
  lemma HintRepairsIff(w: Workload, registered: seq<ServiceEntry>, grace: int, hint: string)
    requires Classify(w, Index(registered), grace) == Mismatched
    requires IsSuggestion(ServiceID(w), IDs(registered), 2, hint)
    ensures Dist(ServiceID(w), hint) in {1, 2}
    ensures Recognised(Classify(Annotate(w, hint), Index(registered), grace))
            <==> hint != "" || w.name in Index(registered)
  {
    var k: nat :| FirstMinimum(Dists(ServiceID(w), IDs(registered)), k) && hint == IDs(registered)[k];
    RegisteredIsIndexed(registered, k);
    DistZeroIffEqual(ServiceID(w), hint);
  }

  /** A service registered under the empty id is suggested to a one-letter workload, and
      following that suggestion leaves the workload mismatched. */
  lemma EmptyHintRepairsNothing()
    ensures var w := Workload(DEPLOYMENT, "prod", "a", map[], 1000 * MINUTE);
            var registered := [ServiceEntry("", true)];
            && Classify(w, Index(registered), DEFAULT_INTERVAL) == Mismatched
            && IsSuggestion("a", IDs(registered), 2, "")
            && Classify(Annotate(w, ""), Index(registered), DEFAULT_INTERVAL) == Mismatched
  {
    var registered := [ServiceEntry("", true)];
    assert Dist("a", "") == 1;
    assert FirstMinimum(Dists("a", IDs(registered)), 0);
  }

  // ----- The topology loop's id for the same workload -----

  /** The id the topology report carries: resolved by key, errors ignored, name as fallback. */
  function TopologyID(store: Store, w: Workload): string {
    var id := match ResolveRef(store, w.kind, w.namespace, w.name)
              case Resolved(r) => r.serviceID
              case Failed => "";
    if id != "" then id else w.name
  }

  /** The two loops report the same id exactly when the cached object leads to the listed id, or
      the key cannot be read and the listed id is the name. */
  lemma TopologyAgreesIff(store: Store, w: Workload)
    requires Coherent(store) && w.kind in {DEPLOYMENT, STATEFUL_SET, DAEMON_SET} && w.name != ""
    ensures TopologyID(store, w) == ServiceID(w) <==>
            match Get(store, w.kind, w.namespace, w.name)
            case Found(o) => ResolvedServiceID(o.annotations, w.name) == ServiceID(w)
            case _ => ServiceID(w) == w.name
  {
  }

  /** In particular they agree when the cache holds the object that was listed. */
  lemma TopologyAgreesOnStored(store: Store, w: Workload, o: Object)
    requires Coherent(store) && w.kind in {DEPLOYMENT, STATEFUL_SET, DAEMON_SET} && w.name != ""
    requires Get(store, w.kind, w.namespace, w.name) == Found(o) && o.annotations == w.annotations
    ensures TopologyID(store, w) == ServiceID(w)
    ensures Resolve(store, o).Resolved? && Resolve(store, o).id.serviceID == ServiceID(w)
  {
    TopologyAgreesIff(store, w);
  }
}
