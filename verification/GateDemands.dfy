/** Which gates a piece of work must pass, and what each is asked at. */
module GateDemands {
  import opened Policy
  import opened Gates

  /** A high or critical risk under one of these names. */
  ghost predicate AtRisk(q: GateRequest, names: set<string>) {
    exists r :: r in q.risks && r.name in names && r.level in {RiskHigh, RiskCritical}
  }

  ghost predicate AnyRisk(q: GateRequest) { exists r :: r in q.risks && r.level in {RiskHigh, RiskCritical} }

  /** The work itself names the gate as required. */
  ghost predicate Named(q: GateRequest, id: string, version: int, digest: string) {
    exists g :: g in q.qualityGates && g.required && (g.gateID, g.version, g.digest) == (id, version, digest)
  }

  /** The work, its risks or its capabilities call for a built-in gate. */
  ghost predicate CalledFor(q: GateRequest, id: string) {
    || (id == HUMAN_REVIEW && (q.reviewRequired || MERGE in q.capabilities || AnyRisk(q)))
    || (id == SECURITY_REVIEW && (SECRET in q.capabilities || AtRisk(q, {"security", "secret"})))
    || (id == DATA_REVIEW && AtRisk(q, {"data", "database"}))
    || (id == OPERATIONS_APPROVAL
        && (DEPLOYMENT in q.capabilities || INFRASTRUCTURE in q.capabilities
            || AtRisk(q, {"deployment", "infrastructure"})))
  }

  /** What is demanded, and at which version and digest. */
  ghost predicate Wants(digest: string -> string, q: GateRequest, id: string, version: int, d: string) {
    Named(q, id, version, d) || (CalledFor(q, id) && version == 1 && d == digest(id + ":v1"))
  }

  ghost predicate Demanded(digest: string -> string, q: GateRequest, id: string, version: int, d: string) {
    exists g :: g in Demands(digest, q) && (g.gateID, g.version, g.digest) == (id, version, d)
  }

  lemma {:induction false} DemandIsWanted(digest: string -> string, q: GateRequest, g: GateRequirement)
    requires g in Demands(digest, q)
    ensures Wants(digest, q, g.gateID, g.version, g.digest)
  {
    if g in Flatten(ReferenceDemand, q.qualityGates) {
      FlattenFrom(ReferenceDemand, q.qualityGates, g);
      var x :| x in q.qualityGates && g in ReferenceDemand(x);
      assert Named(q, x.gateID, x.version, x.digest);
    } else if g in Flatten(ByRisk(digest), q.risks) {
      FlattenFrom(ByRisk(digest), q.risks, g);
      var r :| r in q.risks && g in ByRisk(digest)(r);
      RiskCalls(digest, q, r, g);
    } else if g in Flatten(ByCapability(digest), q.capabilities) {
      FlattenFrom(ByCapability(digest), q.capabilities, g);
      var c :| c in q.capabilities && g in ByCapability(digest)(c);
    }
  }

  lemma RiskCalls(digest: string -> string, q: GateRequest, r: Risk, g: GateRequirement)
    requires r in q.risks && g in RiskDemand(digest, r)
    ensures CalledFor(q, g.gateID) && g.version == 1 && g.digest == digest(g.gateID + ":v1")
  {
    assert r.level in {RiskHigh, RiskCritical} && AnyRisk(q);
  }

  lemma {:induction false} NamedIsDemanded(digest: string -> string, q: GateRequest, x: QualityGate)
    requires x in q.qualityGates && x.required
    ensures Demanded(digest, q, x.gateID, x.version, x.digest)
  {
    var g := GateRequirement(x.gateID, x.version, x.digest, "work_package");
    FlattenHas(ReferenceDemand, q.qualityGates, x, g);
    assert g in Demands(digest, q);
  }

  lemma RiskIsDemanded(digest: string -> string, q: GateRequest, r: Risk, g: GateRequirement)
    requires r in q.risks && g in RiskDemand(digest, r)
    ensures Demanded(digest, q, g.gateID, g.version, g.digest)
  {
    FlattenHas(ByRisk(digest), q.risks, r, g);
    assert g in Demands(digest, q);
  }

  lemma CapabilityIsDemanded(digest: string -> string, q: GateRequest, c: string, g: GateRequirement)
    requires c in q.capabilities && g in CapabilityDemand(digest, c)
    ensures Demanded(digest, q, g.gateID, g.version, g.digest)
  {
    FlattenHas(ByCapability(digest), q.capabilities, c, g);
    assert g in Demands(digest, q);
  }

  lemma {:induction false} CalledIsDemanded(digest: string -> string, q: GateRequest, id: string)
    requires CalledFor(q, id)
    ensures Demanded(digest, q, id, 1, digest(id + ":v1"))
  {
    if id == HUMAN_REVIEW {
      var g := HumanDemand(digest, q);
    } else if id == SECURITY_REVIEW {
      if SECRET in q.capabilities {
        CapabilityIsDemanded(digest, q, SECRET, Builtin(digest, id, "secret_capability"));
      } else {
        NamedRisk(digest, q, {"security", "secret"}, Builtin(digest, id, "security_risk"));
      }
    } else if id == DATA_REVIEW {
      NamedRisk(digest, q, {"data", "database"}, Builtin(digest, id, "data_risk"));
    } else {
      OperationsDemanded(digest, q);
    }
  }

  lemma OperationsDemanded(digest: string -> string, q: GateRequest)
    requires CalledFor(q, OPERATIONS_APPROVAL)
    ensures Demanded(digest, q, OPERATIONS_APPROVAL, 1, digest(OPERATIONS_APPROVAL + ":v1"))
  {
    var byCapability := Builtin(digest, OPERATIONS_APPROVAL, "operations_capability");
    if DEPLOYMENT in q.capabilities {
      CapabilityIsDemanded(digest, q, DEPLOYMENT, byCapability);
    } else if INFRASTRUCTURE in q.capabilities {
      CapabilityIsDemanded(digest, q, INFRASTRUCTURE, byCapability);
    } else {
      NamedRisk(digest, q, {"deployment", "infrastructure"}, Builtin(digest, OPERATIONS_APPROVAL, "operations_risk"));
    }
  }

  lemma NamedRisk(digest: string -> string, q: GateRequest, names: set<string>, g: GateRequirement)
    requires AtRisk(q, names)
    requires forall name | name in names :: g in RiskDemand(digest, Risk(name, RiskHigh))
    requires forall name | name in names :: g in RiskDemand(digest, Risk(name, RiskCritical))
    ensures Demanded(digest, q, g.gateID, g.version, g.digest)
  {
    var r :| r in q.risks && r.name in names && r.level in {RiskHigh, RiskCritical};
    assert r == Risk(r.name, r.level);
    RiskIsDemanded(digest, q, r, g);
  }

  /** A gate is on the list of a contract exactly when the work names it as required or a review,
      risk or capability calls for it, at that version and digest. */
  lemma {:induction false} RequiredMeans(digest: string -> string, q: GateRequest, gates: seq<GateRequirement>,
                                         id: string, version: int, d: string)
    requires IsGateList(gates, Demands(digest, q))
    ensures (exists g :: g in gates && (g.gateID, g.version, g.digest) == (id, version, d))
       <==> Wants(digest, q, id, version, d)
  {
    if g :| g in gates && (g.gateID, g.version, g.digest) == (id, version, d) {
      DemandIsWanted(digest, q, g);
    }
    if Wants(digest, q, id, version, d) {
      if Named(q, id, version, d) {
        var x :| x in q.qualityGates && x.required && (x.gateID, x.version, x.digest) == (id, version, d);
        NamedIsDemanded(digest, q, x);
      } else {
        CalledIsDemanded(digest, q, id);
      }
      var w :| w in Demands(digest, q) && (w.gateID, w.version, w.digest) == (id, version, d);
      assert Answered(gates, w);
    }
  }
}
