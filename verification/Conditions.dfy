/** Conditions read by position: what the first condition of a type says. */
module Conditions {
  import opened Wire
  import opened Mapper

  /** Position i holds the first condition of type t. */
  predicate FirstIs(conds: seq<Condition>, t: string, i: nat) {
    i < |conds| && conds[i].ctype == t && forall j :: 0 <= j < i ==> conds[j].ctype != t
  }

  ghost predicate Present(conds: seq<Condition>, t: string) {
    exists i: nat :: FirstIs(conds, t, i)
  }

  ghost predicate StatusOf(conds: seq<Condition>, t: string, status: string) {
    exists i: nat :: FirstIs(conds, t, i) && conds[i].status == status
  }

  ghost predicate ReasonOf(conds: seq<Condition>, t: string, reason: string) {
    exists i: nat :: FirstIs(conds, t, i) && conds[i].reason == reason
  }

  lemma {:induction false} FirstIsFound(conds: seq<Condition>, t: string, i: nat)
    requires FirstIs(conds, t, i)
    ensures FindCondition(conds, t) == Some(conds[i])
  {
    if i == 0 {
    } else {
      assert conds[0].ctype != t;
      FirstIsFound(conds[1..], t, i - 1);
    }
  }

  lemma {:induction false} FoundIsFirst(conds: seq<Condition>, t: string) returns (i: nat)
    requires FindCondition(conds, t).Some?
    ensures FirstIs(conds, t, i)
  {
    if conds[0].ctype == t {
      i := 0;
    } else {
      var k := FoundIsFirst(conds[1..], t);
      i := k + 1;
    }
  }

  /** The search finds the first condition of its type, and nothing exactly when there is none. */
  lemma FindConditionMeans(conds: seq<Condition>, t: string)
    ensures FindCondition(conds, t).Some? <==> Present(conds, t)
    ensures forall status :: HasStatus(FindCondition(conds, t), status) <==> StatusOf(conds, t, status)
    ensures forall reason :: HasReason(FindCondition(conds, t), reason) <==> ReasonOf(conds, t, reason)
  {
    forall i: nat | FirstIs(conds, t, i)
      ensures FindCondition(conds, t) == Some(conds[i])
    {
      FirstIsFound(conds, t, i);
    }
    if FindCondition(conds, t).Some? {
      var i := FoundIsFirst(conds, t);
    }
  }

  /** The rollout status by the first Progressing condition: the five values, a paused or
      otherwise undecided rollout included. */
  lemma RolloutStatusMeans(d: Deployment)
    ensures var conds, p := d.conditions, "Progressing";
            && (RolloutStatus(d) == "" <==> !Present(conds, p))
            && (RolloutStatus(d) == "failed" <==>
                StatusOf(conds, p, "False") && ReasonOf(conds, p, "ProgressDeadlineExceeded"))
            && (RolloutStatus(d) == "complete" <==>
                StatusOf(conds, p, "True") && ReasonOf(conds, p, "NewReplicaSetAvailable"))
            && (RolloutStatus(d) == "progressing" <==>
                StatusOf(conds, p, "True") && !ReasonOf(conds, p, "NewReplicaSetAvailable"))
            && (RolloutStatus(d) == "unknown" <==>
                && Present(conds, p) && !StatusOf(conds, p, "True")
                && !(StatusOf(conds, p, "False") && ReasonOf(conds, p, "ProgressDeadlineExceeded")))
  {
    hide FirstIs, StatusOf, ReasonOf, Present, FindCondition;
    FindConditionMeans(d.conditions, "Progressing");
    assert "True"[0] == 'T' && "False"[0] == 'F';
    assert |"complete"| == 8 && |"progressing"| == 11 && |"failed"| == 6 && |"unknown"| == 7 && |""| == 0;
  }

  ghost predicate UnderPressure(n: Node, pressure: string) {
    StatusOf(n.conditions, pressure, "True")
  }

  /** The first Ready condition exists and says anything but True. */
  ghost predicate NotReadyNow(n: Node) {
    exists i: nat :: FirstIs(n.conditions, "Ready", i) && n.conditions[i].status != "True"
  }

  lemma UnhealthyMeans(n: Node)
    ensures Unhealthy(n, "NotReady") <==> NotReadyNow(n)
    ensures forall what :: what in {"MemoryPressure", "DiskPressure", "PIDPressure"} ==>
              (Unhealthy(n, what) <==> UnderPressure(n, what))
  {
    forall i: nat | FirstIs(n.conditions, "Ready", i)
      ensures FindCondition(n.conditions, "Ready") == Some(n.conditions[i])
    {
      FirstIsFound(n.conditions, "Ready", i);
    }
    if FindCondition(n.conditions, "Ready").Some? {
      var i := FoundIsFirst(n.conditions, "Ready");
    }
    forall what | what in {"MemoryPressure", "DiskPressure", "PIDPressure"}
      ensures Unhealthy(n, what) <==> UnderPressure(n, what)
    {
      assert "NotReady"[0] == 'N';
      FindConditionMeans(n.conditions, what);
    }
  }
}
