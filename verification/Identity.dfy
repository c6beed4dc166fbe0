/** Resolution of Kubernetes objects to service identities by walking owner references. */
module Identity {
  import opened Wire

  const SERVICE_ID_ANNOTATION := "incidentary.com/service-id"

  const POD := "Pod"
  const REPLICA_SET := "ReplicaSet"
  const DEPLOYMENT := "Deployment"
  const STATEFUL_SET := "StatefulSet"
  const DAEMON_SET := "DaemonSet"
  const NODE := "Node"

  datatype Source = NoSource | FromAnnotation | FromWorkloadName

  datatype ServiceIdentity = ServiceIdentity(
    serviceID: string, source: Source, ownerKind: string, ownerName: string, namespace: string)

  const UNRESOLVED := ServiceIdentity("", NoSource, "", "", "")

  datatype OwnerRef = OwnerRef(kind: string, name: string, controller: Option<bool>)

  datatype Object = Object(
    kind: string, namespace: string, name: string, annotations: map<string, string>, owners: seq<OwnerRef>)

  datatype Key = Key(kind: string, namespace: string, name: string)

  datatype Fetched = Found(obj: Object) | NotFound | FetchError

  /** The cached reader; a key that is absent is not found. */
  type Store = map<Key, Fetched>

  datatype Resolution = Resolved(id: ServiceIdentity) | Failed

  function Get(store: Store, kind: string, namespace: string, name: string): Fetched {
    var key := Key(kind, namespace, name);
    if key in store then store[key] else NotFound
  }

  function ResolveWorkload(kind: string, name: string, namespace: string, annotations: map<string, string>): ServiceIdentity {
    if SERVICE_ID_ANNOTATION in annotations && annotations[SERVICE_ID_ANNOTATION] != "" then
      ServiceIdentity(annotations[SERVICE_ID_ANNOTATION], FromAnnotation, kind, name, namespace)
    else
      ServiceIdentity(name, FromWorkloadName, kind, name, namespace)
  }

  function Own(o: Object): Resolution {
    Resolved(ResolveWorkload(o.kind, o.name, o.namespace, o.annotations))
  }

  function FirstController(refs: seq<OwnerRef>): Option<OwnerRef> {
    if refs == [] then None
    else if refs[0].controller == Some(true) then Some(refs[0])
    else FirstController(refs[1..])
  }

  /** The first reference marked as controller, else the first reference. */
  function ControllerOwner(refs: seq<OwnerRef>): Option<OwnerRef> {
    match FirstController(refs)
    case Some(r) => Some(r)
    case None => if refs == [] then None else Some(refs[0])
  }

  function ResolveFromReplicaSet(store: Store, rs: Object): Resolution {
    var owner := ControllerOwner(rs.owners);
    if owner.None? || owner.value.kind != DEPLOYMENT then
      Resolved(ResolveWorkload(REPLICA_SET, rs.name, rs.namespace, rs.annotations))
    else
      match Get(store, DEPLOYMENT, rs.namespace, owner.value.name)
      case Found(d) => Resolved(ResolveWorkload(DEPLOYMENT, d.name, d.namespace, d.annotations))
      case NotFound => Resolved(ResolveWorkload(REPLICA_SET, rs.name, rs.namespace, rs.annotations))
      case FetchError => Failed
  }

  function ResolveFromPod(store: Store, p: Object): Resolution {
    var owner := ControllerOwner(p.owners);
    var self := Resolved(ResolveWorkload(POD, p.name, p.namespace, p.annotations));
    if owner.None? then self
    else if owner.value.kind == REPLICA_SET then
      match Get(store, REPLICA_SET, p.namespace, owner.value.name)
      case Found(rs) => ResolveFromReplicaSet(store, rs)
      case NotFound => self
      case FetchError => Failed
    else if owner.value.kind == STATEFUL_SET || owner.value.kind == DAEMON_SET then
      var kind := owner.value.kind;
      match Get(store, kind, p.namespace, owner.value.name)
      case Found(w) => Resolved(ResolveWorkload(kind, w.name, w.namespace, w.annotations))
      case NotFound => Resolved(ResolveWorkload(kind, owner.value.name, p.namespace, map[]))
      case FetchError => Failed
    else self
  }

  function Resolve(store: Store, o: Object): Resolution {
    if o.kind in {DEPLOYMENT, STATEFUL_SET, DAEMON_SET} then
      Resolved(ResolveWorkload(o.kind, o.name, o.namespace, o.annotations))
    else if o.kind == REPLICA_SET then ResolveFromReplicaSet(store, o)
    else if o.kind == POD then ResolveFromPod(store, o)
    else Resolved(UNRESOLVED)
  }

  function ResolveRef(store: Store, kind: string, namespace: string, name: string): Resolution {
    if name == "" then Resolved(UNRESOLVED)
    else if kind in {DEPLOYMENT, STATEFUL_SET, DAEMON_SET, REPLICA_SET, POD} then
      match Get(store, kind, namespace, name)
      case NotFound => Resolved(UNRESOLVED)
      case FetchError => Failed
      case Found(o) =>
        if kind == REPLICA_SET then ResolveFromReplicaSet(store, o)
        else if kind == POD then ResolveFromPod(store, o)
        else Resolved(ResolveWorkload(kind, o.name, o.namespace, o.annotations))
    else if kind == NODE then Resolved(ServiceIdentity(name, FromWorkloadName, NODE, name, ""))
    else Resolved(UNRESOLVED)
  }

  // ----- Reference definition: climb from owner to owner -----

  /** Typed reads by key return the object with that kind, namespace and name. */
  ghost predicate Coherent(store: Store) {
    forall k :: k in store && store[k].Found? ==>
      k.name != "" && Key(store[k].obj.kind, store[k].obj.namespace, store[k].obj.name) == k
  }

  predicate Holds(store: Store, o: Object) {
    Get(store, o.kind, o.namespace, o.name) == Found(o)
  }

  /** Kinds a controller owner of `kind` may have for the walk to follow it. */
  function OwnerKinds(kind: string): set<string> {
    if kind == POD then {REPLICA_SET, STATEFUL_SET, DAEMON_SET}
    else if kind == REPLICA_SET then {DEPLOYMENT}
    else {}
  }

  function Rank(kind: string): nat {
    if kind == POD then 2 else if kind == REPLICA_SET then 1 else 0
  }

  /** Reading the owner of `o` that the walk would follow, if it has one. */
  function FetchOwner(store: Store, o: Object): Option<Fetched> {
    var owner := ControllerOwner(o.owners);
    if owner.Some? && owner.value.kind in OwnerKinds(o.kind)
    then Some(Get(store, owner.value.kind, o.namespace, owner.value.name))
    else None
  }

  /** The object one step up. A missing StatefulSet or DaemonSet still counts, under the name
      the Pod gives it; a missing ReplicaSet or Deployment does not. */
  function Parent(store: Store, o: Object): Option<Object> {
    match FetchOwner(store, o)
    case Some(Found(p)) => Some(p)
    case Some(NotFound) =>
      var owner := ControllerOwner(o.owners).value;
      if owner.kind in {STATEFUL_SET, DAEMON_SET} then Some(Object(owner.kind, o.namespace, owner.name, map[], []))
      else None
    case _ => None
  }

  /** Some read on the way up fails. */
  predicate PathBroken(store: Store, o: Object)
    requires Coherent(store)
    decreases Rank(o.kind)
  {
    || FetchOwner(store, o) == Some(FetchError)
    || (Parent(store, o).Some? && PathBroken(store, Parent(store, o).value))
  }

  /** The highest workload the owner references lead to. */
  function Top(store: Store, o: Object): Object
    requires Coherent(store)
    decreases Rank(o.kind)
  {
    match Parent(store, o)
    case Some(p) => Top(store, p)
    case None => o
  }

  /** The walk fails exactly when a read on the path fails; otherwise it answers with the top. */
  lemma {:induction false} ResolveReachesTop(store: Store, o: Object)
    requires Coherent(store) && o.kind in {DEPLOYMENT, STATEFUL_SET, DAEMON_SET, REPLICA_SET, POD}
    ensures Resolve(store, o) == if PathBroken(store, o) then Failed else Own(Top(store, o))
    decreases Rank(o.kind)
  {
    if Parent(store, o).Some? {
      ResolveReachesTop(store, Parent(store, o).value);
    }
  }

  /** Identity does not change along an owner edge. */
  lemma OwnerHasSameIdentity(store: Store, o: Object)
    requires Coherent(store) && Parent(store, o).Some?
    ensures Resolve(store, o) == Resolve(store, Parent(store, o).value)
  {
    ResolveReachesTop(store, o);
    ResolveReachesTop(store, Parent(store, o).value);
  }

  /** A Pod, its ReplicaSet and its Deployment share the Deployment's identity. */
  lemma PodReplicaSetDeploymentAgree(store: Store, pod: Object, rs: Object, d: Object)
    requires Coherent(store) && pod.kind == POD
    requires FetchOwner(store, pod) == Some(Found(rs)) && rs.kind == REPLICA_SET
    requires FetchOwner(store, rs) == Some(Found(d))
    ensures Resolve(store, pod) == Resolve(store, rs) == Resolve(store, d) == Own(d)
    ensures d.kind == DEPLOYMENT
  {
    OwnerHasSameIdentity(store, pod);
    OwnerHasSameIdentity(store, rs);
  }

  /** Resolving a stored object and resolving its key agree, except for Nodes. */
  lemma ResolveRefAgreesIff(store: Store, o: Object)
    requires Coherent(store) && Holds(store, o)
    ensures ResolveRef(store, o.kind, o.namespace, o.name) == Resolve(store, o) <==> o.kind != NODE
  {
  }

  /** Resolving a key, in full: a workload found is resolved like the object, one that is missing
      is no service, one that cannot be read is an error; a Node is named by its own name; an
      empty name and any other kind is no service. */
  lemma ResolveRefMeans(store: Store, kind: string, namespace: string, name: string)
    requires Coherent(store)
    ensures var nothing := Resolved(ServiceIdentity("", NoSource, "", "", ""));
            ResolveRef(store, kind, namespace, name) ==
            if name == "" then nothing
            else if kind in {"Deployment", "StatefulSet", "DaemonSet", "ReplicaSet", "Pod"} then
              (match Get(store, kind, namespace, name)
               case Found(o) => if PathBroken(store, o) then Failed else Own(Top(store, o))
               case NotFound => nothing
               case FetchError => Failed)
            else if kind == "Node" then Resolved(ServiceIdentity(name, FromWorkloadName, "Node", name, ""))
            else nothing
  {
    hide PathBroken, Top, Own;
    if kind in {"Deployment", "StatefulSet", "DaemonSet", "ReplicaSet", "Pod"} {
      match Get(store, kind, namespace, name)
      case Found(o) =>
        assert o.kind == kind;
        ResolveReachesTop(store, o);
      case _ =>
    }
  }

  /** A controller mark wins over position; without one the first reference is taken. */
  lemma {:induction false} ControllerOwnerIsFirstMarked(refs: seq<OwnerRef>)
    ensures ControllerOwner(refs).None? <==> refs == []
    ensures FirstController(refs).Some? <==> exists i :: 0 <= i < |refs| && refs[i].controller == Some(true)
    ensures FirstController(refs).Some? ==>
              exists i :: && 0 <= i < |refs| && refs[i].controller == Some(true)
                          && ControllerOwner(refs) == Some(refs[i])
                          && forall j :: 0 <= j < i ==> refs[j].controller != Some(true)
  {
    if refs != [] && refs[0].controller != Some(true) {
      var rest := refs[1..];
      ControllerOwnerIsFirstMarked(rest);
      if FirstController(rest).Some? {
        var i :| 0 <= i < |rest| && rest[i].controller == Some(true)
                 && ControllerOwner(rest) == Some(rest[i])
                 && forall j :: 0 <= j < i ==> rest[j].controller != Some(true);
        assert refs[i + 1] == rest[i];
        assert forall j :: 0 <= j < i + 1 ==> refs[j] == if j == 0 then refs[0] else rest[j - 1];
      }
      if exists i :: 0 <= i < |refs| && refs[i].controller == Some(true) {
        var i :| 0 <= i < |refs| && refs[i].controller == Some(true);
        assert rest[i - 1] == refs[i];
      }
    }
  }
}
