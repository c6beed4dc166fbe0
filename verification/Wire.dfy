/** Wire-format events as the operator builds them.

An event keeps its kind, severity, service id and the attributes that the proved
properties mention; the fresh event id and the timestamps are left out. */
module Wire {
  import opened Text

  datatype Option<+T> = None | Some(value: T)

  datatype Attr = Words(text: string) | Number(number: int)

  datatype Event = Event(kind: string, severity: string, serviceID: string, attributes: map<string, Attr>)

  const POD_CRASH := "K8S_POD_CRASH"
  const OOM_KILL := "K8S_OOM_KILL"
  const EVICTION := "K8S_EVICTION"
  const SCHEDULE_FAIL := "K8S_SCHEDULE_FAIL"
  const IMAGE_PULL_FAIL := "K8S_IMAGE_PULL_FAIL"
  const NODE_PRESSURE := "K8S_NODE_PRESSURE"
  const HPA_SCALE := "K8S_HPA_SCALE"
  const POD_STARTED := "K8S_POD_STARTED"
  const POD_TERMINATED := "K8S_POD_TERMINATED"
  const DEPLOY_ROLLOUT := "K8S_DEPLOY_ROLLOUT"
  const DEPLOY_STARTED := "DEPLOY_STARTED"
  const DEPLOY_SUCCEEDED := "DEPLOY_SUCCEEDED"
  const DEPLOY_FAILED := "DEPLOY_FAILED"
  const DEPLOY_CANCELLED := "DEPLOY_CANCELLED"
  const DEPLOY_ROLLED_BACK := "DEPLOY_ROLLED_BACK"

  /** Every kind the mappers produce. */
  const MAPPED_KINDS: set<string> :=
    {POD_CRASH, OOM_KILL, EVICTION, SCHEDULE_FAIL, IMAGE_PULL_FAIL, NODE_PRESSURE, HPA_SCALE, POD_STARTED,
     POD_TERMINATED, DEPLOY_ROLLOUT, DEPLOY_STARTED, DEPLOY_SUCCEEDED, DEPLOY_FAILED, DEPLOY_CANCELLED,
     DEPLOY_ROLLED_BACK}

  const TRACE := "trace"
  const DEBUG := "debug"
  const INFO := "info"
  const WARNING := "warning"
  const ERROR := "error"
  const FATAL := "fatal"

  datatype Domain = Application | Infrastructure | Deploying | Incident

  function DomainOf(kind: string): Domain {
    if HasPrefix(kind, "K8S_") || HasPrefix(kind, "CLOUD_") then Infrastructure
    else if HasPrefix(kind, "DEPLOY_") then Deploying
    else if HasPrefix(kind, "INCIDENT_") then Incident
    else Application
  }

  /** The one severity the mappers give a kind. */
  function SeverityForKind(kind: string): string {
    if kind in [POD_CRASH, OOM_KILL, EVICTION, SCHEDULE_FAIL, IMAGE_PULL_FAIL] then ERROR
    else if kind == NODE_PRESSURE then WARNING
    else if kind in [HPA_SCALE, POD_STARTED, POD_TERMINATED, DEPLOY_ROLLOUT] then INFO
    else if kind in [DEPLOY_STARTED, DEPLOY_SUCCEEDED] then INFO
    else if kind == DEPLOY_FAILED then ERROR
    else WARNING
  }
}
