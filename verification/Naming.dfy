/** Which service each event names, and which way an autoscaler went. */
module Naming {
  import opened Sequences
  import opened Wire
  import opened Identity
  import opened Mapper
  import opened Runs
  import opened DeploymentRuns

  /** The service id that annotations call for, with the name of the object as the fallback. */
  function NameFrom(annotations: map<string, string>, name: string): string {
    if "incidentary.com/service-id" in annotations && annotations["incidentary.com/service-id"] != ""
    then annotations["incidentary.com/service-id"] else name
  }

  /** An object is named by its annotation, else by its own name, and reported as its own owner. */
  lemma OwnNames(o: Object)
    ensures Own(o).Resolved?
    ensures var id := Own(o).id;
            && id.serviceID == NameFrom(o.annotations, o.name)
            && id.ownerKind == o.kind && id.ownerName == o.name && id.namespace == o.namespace
            && (id.source == FromWorkloadName <==>
                "incidentary.com/service-id" !in o.annotations || o.annotations["incidentary.com/service-id"] == "")
  {
  }

  /** A Pod event is lost exactly with its owner path; otherwise it names the top of the path, or
      the Pod when that has no name. */
  lemma PodEventsNameTop(store: Store, was: Option<Pod>, n: Pod)
    requires Coherent(store) && n.meta.kind == POD
    ensures var result := FromPodStatusChange(store, was, n);
            && (result.MapFailed? ==> PathBroken(store, n.meta))
            && (result.Mapped? ==>
                  var top := Top(store, n.meta);
                  AllFrom(result.events, IdOr(NameFrom(top.annotations, top.name), n.meta.name)))
  {
    hide Resolve, Top, PathBroken;
    ResolveReachesTop(store, n.meta);
    OwnNames(Top(store, n.meta));
  }

  /** A Pod event says why: it started, or the reason of the first terminated container, or, when
      there is none, completed, OOMKilled or failed. */
  lemma PodEventsSay(store: Store, was: Option<Pod>, n: Pod)
    requires FromPodStatusChange(store, was, n).Mapped?
    ensures forall i :: 0 <= i < |FromPodStatusChange(store, was, n).events| ==>
              var ev := FromPodStatusChange(store, was, n).events[i];
              && "k8s.reason" in ev.attributes
              && ev.attributes["k8s.reason"] ==
                 Words(if n.phase == "Running" then "Started"
                       else if n.terminations != [] && n.terminations[0] != "" then n.terminations[0]
                       else if n.phase == "Succeeded" then "Completed"
                       else if "OOMKilled" in n.terminations then "OOMKilled" else "Failed")
  {
    hide Resolve;
    assert |POD_STARTED| == 15 && |POD_TERMINATED| == 18 && |OOM_KILL| == 12;
    assert "Running"[0] == 'R' && "Succeeded"[0] == 'S' && "Failed"[0] == 'F';
  }

  /** The annotations the cache has for an object; none when it has no such object. */
  function CachedAnnotations(store: Store, kind: string, namespace: string, name: string): map<string, string> {
    match Get(store, kind, namespace, name)
    case Found(o) => o.annotations
    case _ => map[]
  }

  /** StatefulSet and DaemonSet events name the service by the cached object. */
  lemma SetEventsNameCached(store: Store, was: Option<StatefulSet>, s: StatefulSet, before: Option<DaemonSet>, ds: DaemonSet)
    requires Coherent(store) && s.name != "" && ds.name != ""
    ensures var result := FromStatefulSetChange(store, was, s);
            result.Mapped? ==>
              AllFrom(result.events, NameFrom(CachedAnnotations(store, STATEFUL_SET, s.namespace, s.name), s.name))
    ensures var result := FromDaemonSetChange(store, before, ds);
            result.Mapped? ==>
              AllFrom(result.events, NameFrom(CachedAnnotations(store, DAEMON_SET, ds.namespace, ds.name), ds.name))
  {
    hide StatefulSetStarted, StatefulSetSucceeded, DaemonSetStarted, DaemonSetSucceeded;
  }

  /** Node events name the Node. */
  lemma {:induction false} NodeEventsNameNode(was: Option<Node>, n: Node, whats: seq<string>)
    ensures AllFrom(PressureEvents(was, n, whats), n.name)
  {
    hide TurnsUnhealthy;
    if whats == [] {
    } else {
      NodeEventsNameNode(was, n, whats[..|whats| - 1]);
    }
  }

  /** A scale event names the target, or the autoscaler when it has none, and says which way the
      replica count went and where to. */
  lemma ScaleEventsSay(was: Option<Autoscaler>, n: Autoscaler)
    ensures AllFrom(FromHPAScale(was, n), if n.target != "" then n.target else n.name)
    ensures forall i :: 0 <= i < |FromHPAScale(was, n)| ==>
              var ev := FromHPAScale(was, n)[i];
              && was.Some? && ev.kind == "K8S_HPA_SCALE"
              && "k8s.hpa.current_replicas" in ev.attributes && "k8s.reason" in ev.attributes
              && ev.attributes["k8s.hpa.current_replicas"] == Number(n.currentReplicas)
              && (ev.attributes["k8s.reason"] == Words("ScaleUp") <==> was.value.currentReplicas < n.currentReplicas)
              && (ev.attributes["k8s.reason"] == Words("ScaleDown") <==> n.currentReplicas < was.value.currentReplicas)
  {
    assert "ScaleUp"[5] == 'U' && "ScaleDown"[5] == 'D';
    assert |"k8s.reason"| != |"k8s.hpa.current_replicas"|;
  }

  lemma NodePressureIsNoFailure()
    ensures "K8S_NODE_PRESSURE" !in {"K8S_POD_CRASH", "K8S_OOM_KILL", "K8S_EVICTION", "K8S_SCHEDULE_FAIL", "K8S_IMAGE_PULL_FAIL"}
    ensures "DEPLOY_FAILED" !in {"K8S_POD_CRASH", "K8S_OOM_KILL", "K8S_EVICTION", "K8S_SCHEDULE_FAIL", "K8S_IMAGE_PULL_FAIL"}
  {
    assert "K8S_NODE_PRESSURE"[4] == 'N' && "K8S_POD_CRASH"[4] == 'P' && "K8S_OOM_KILL"[4] == 'O';
    assert "K8S_EVICTION"[4] == 'E' && "K8S_SCHEDULE_FAIL"[4] == 'S' && "K8S_IMAGE_PULL_FAIL"[4] == 'I';
    assert "DEPLOY_FAILED"[0] == 'D';
  }

  /** The severity of each kind that a mapper produces. */
  lemma SeverityByKind(kind: string)
    requires kind in MAPPED_KINDS
    ensures SeverityForKind(kind) == "error" <==>
            kind in {"K8S_POD_CRASH", "K8S_OOM_KILL", "K8S_EVICTION", "K8S_SCHEDULE_FAIL", "K8S_IMAGE_PULL_FAIL", "DEPLOY_FAILED"}
    ensures SeverityForKind(kind) == "warning" <==>
            kind in {"K8S_NODE_PRESSURE", "DEPLOY_CANCELLED", "DEPLOY_ROLLED_BACK"}
    ensures SeverityForKind(kind) in {"error", "warning", "info"}
  {
    assert "error"[0] == 'e' && "warning"[0] == 'w' && "info"[0] == 'i';
    KindsDistinct();
    NodePressureIsNoFailure();
  }
}
