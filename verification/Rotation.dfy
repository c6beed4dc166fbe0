/** Credential rotation: Secret edits, the watch that maps them to the config, the reconcile
worker and the provider that hands out the outbound clients. */
module Rotation {
  import opened Sequences
  import opened Wire

  const RUNNING := "Running"
  const DEGRADED := "Degraded"
  const RECONCILED := "Reconciled"
  const SECRET_NOT_FOUND := "SecretNotFound"
  const INVALID_API_KEY := "InvalidAPIKey"
  const READ_ERROR := "ReadError"

  const REQUEUE_AFTER_ERROR := 30
  const DEFAULT_RECONCILIATION_INTERVAL := 300

  // ----- The provider -----

  datatype Client = Dropping | Http(apiKey: string)

  datatype Clients = Clients(ingest: Client, topology: Client, services: Client, workspaceID: string)

  /** All three clients come from one rotation. */
  predicate Unmixed(c: Clients) {
    c.ingest == c.topology == c.services
  }

  function Rotated(apiKey: string, workspaceID: string): Clients {
    var c := if apiKey == "" then Dropping else Http(apiKey);
    Clients(c, c, c, workspaceID)
  }

  class Provider {
    var ingest: Client
    var topology: Client
    var services: Client
    var workspaceID: string

    function View(): Clients
      reads this
    {
      Clients(ingest, topology, services, workspaceID)
    }

    constructor (ingest: Client, topology: Client, services: Client)
      ensures View() == Clients(ingest, topology, services, "")
    {
      this.ingest := ingest;
      this.topology := topology;
      this.services := services;
      workspaceID := "";
    }

    method Rotate(apiKey: string, workspace: string)
      modifies this
      ensures View() == Rotated(apiKey, workspace)
      ensures Unmixed(View())
    {
      var newIngest, newTopology, newServices := Dropping, Dropping, Dropping;
      if apiKey != "" {
        newIngest := Http(apiKey);
        newTopology := Http(apiKey);
        newServices := Http(apiKey);
      }
      ingest, topology, services := newIngest, newTopology, newServices;
      workspaceID := workspace;
    }

    /** Drops all three clients at once and keeps the workspace id. */
    method OnKeyRevoked()
      modifies this
      ensures View() == Rotated("", old(workspaceID))
    {
      ingest := Dropping;
      topology := Dropping;
      services := Dropping;
    }
  }

  // ----- One reconcile -----

  datatype Spec = Spec(secretName: string, secretKey: string, workspaceID: string, intervalSeconds: int)

  datatype Status = Status(phase: string, reason: string, lastReconciliation: Option<int>)

  /** What reading the referenced Secret gave. */
  datatype Read = Data(values: map<string, string>) | Missing | Unreadable

  /** The API key a read yields for the spec; "" when there is none. */
  function KeyFor(spec: Spec, read: Read): string {
    if read.Data? && spec.secretKey in read.values then read.values[spec.secretKey] else ""
  }

  function ClientsFor(spec: Spec, read: Read): Clients {
    var key := KeyFor(spec, read);
    Rotated(key, if key == "" then "" else spec.workspaceID)
  }

  function StatusFor(spec: Spec, read: Read, was: Status, now: int): Status {
    if KeyFor(spec, read) != "" then Status(RUNNING, RECONCILED, Some(now))
    else
      Status(DEGRADED,
             match read
             case Missing => SECRET_NOT_FOUND
             case Unreadable => READ_ERROR
             case Data(_) => INVALID_API_KEY,
             was.lastReconciliation)
  }

  function ReconciliationInterval(spec: Spec): int {
    if spec.intervalSeconds <= 0 then DEFAULT_RECONCILIATION_INTERVAL else spec.intervalSeconds
  }

  class ConfigObject {
    const spec: Spec
    var status: Status

    constructor (spec: Spec, status: Status)
      ensures this.spec == spec && this.status == status
    {
      this.spec := spec;
      this.status := status;
    }

    method MarkDegraded(reason: string) returns (requeueAfter: int)
      modifies this
      ensures status == Status(DEGRADED, reason, old(status.lastReconciliation))
      ensures requeueAfter == 30
    {
      status := status.(phase := DEGRADED, reason := reason);
      requeueAfter := REQUEUE_AFTER_ERROR;
    }

    /** The body of a reconcile once the config is fetched: rotate first, then the status. */
    method Reconcile(provider: Provider, read: Read, now: int) returns (requeueAfter: int)
      modifies this, provider
      ensures provider.View() == ClientsFor(spec, read)
      ensures status == StatusFor(spec, read, old(status), now)
      ensures if read.Data? && spec.secretKey in read.values && read.values[spec.secretKey] != "" then
                var key := Http(read.values[spec.secretKey]);
                && provider.ingest == provider.topology == provider.services == key
                && provider.workspaceID == spec.workspaceID
                && status == Status("Running", "Reconciled", Some(now))
                && requeueAfter == if spec.intervalSeconds <= 0 then 300 else spec.intervalSeconds
              else
                && provider.ingest == provider.topology == provider.services == Dropping
                && provider.workspaceID == ""
                && status.phase == "Degraded" && status.lastReconciliation == old(status.lastReconciliation)
                && status.reason == (match read
                                     case Missing => "SecretNotFound"
                                     case Unreadable => "ReadError"
                                     case Data(_) => "InvalidAPIKey")
                && requeueAfter == 30
    {
      if !read.Data? {
        provider.Rotate("", "");
        if read.Missing? {
          requeueAfter := MarkDegraded(SECRET_NOT_FOUND);
        } else {
          requeueAfter := MarkDegraded(READ_ERROR);
        }
        return;
      }
      if spec.secretKey !in read.values || |read.values[spec.secretKey]| == 0 {
        provider.Rotate("", "");
        requeueAfter := MarkDegraded(INVALID_API_KEY);
        return;
      }
      provider.Rotate(read.values[spec.secretKey], spec.workspaceID);
      status := Status(RUNNING, RECONCILED, Some(now));
      requeueAfter := ReconciliationInterval(spec);
    }
  }

  // ----- The Secret watch -----

  datatype Named = Named(name: string, spec: Spec)

  function References(secret: string): Named -> bool {
    (cfg: Named) => cfg.spec.secretName == secret
  }

  /** The configs of the namespace to reconcile for a Secret event; none when the list fails. */
  method FindConfigsForSecret(listed: Option<seq<Named>>, secret: string) returns (reqs: seq<Named>)
    ensures reqs == if listed.None? then [] else Keep(References(secret), listed.value)
    ensures listed.Some? ==> forall cfg :: cfg in reqs <==> cfg in listed.value && cfg.spec.secretName == secret
  {
    reqs := [];
    if listed.None? {
      return;
    }
    for i := 0 to |listed.value|
      invariant reqs == Keep(References(secret), listed.value[..i])
    {
      assert listed.value[..i + 1][..i] == listed.value[..i];
      if listed.value[i].spec.secretName == secret {
        reqs := reqs + [listed.value[i]];
      }
    }
    assert listed.value[..|listed.value|] == listed.value;
    KeptAreAll(References(secret), listed.value);
  }
}
