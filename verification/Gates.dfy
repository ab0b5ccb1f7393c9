/** Ledger validation, the verification gate and the handover verdict. */
module Gates {
  import opened Prelude
  import opened HashChain
  import opened Ledgers
  import opened RunLoop
  import TextOrder

  datatype Rule =
    | SourceVersionMissing | ScopeMissing | EvidenceRequired | AcceptanceWeak | BlockedWithoutOwner | LeaseOverlap
    | ReconcileInconsistent | PathOutsideRoots | EventScopeMismatch | ChainBroken | NotCommitted

  predicate SourceOk(source: Source) {
    source.iplan != "" && source.version != "" && source.checksum != ""
  }

  predicate ScopeOk(scope: Scope) {
    scope.clientId != "" && scope.projectId != "" && scope.allowedRoots != []
  }

  datatype IntakeRule =
    | SchemaUnsupported | SourceMissing | ApprovalInsufficient | IntakeScopeMissing | NoTasks
    | FieldsMissing | DepUnresolved

  predicate FieldsOk(n: TaskNode) { n.taskId != "" && n.title != "" && n.hasAcceptance }

  /** What each intake rule reports. */
  predicate IntakeFires(m: Manifest, rule: IntakeRule) {
    match rule
    case SchemaUnsupported => m.schema != "1.0"
    case SourceMissing => !SourceOk(m.source)
    case ApprovalInsufficient => !m.approved || m.score < 90
    case IntakeScopeMissing => !ScopeOk(m.scope)
    case NoTasks => m.tasks == []
    case FieldsMissing => exists i :: 0 <= i < |m.tasks| && !FieldsOk(m.tasks[i])
    case DepUnresolved => exists i, d :: 0 <= i < |m.tasks| && d in m.tasks[i].dependsOn && d !in TaskIds(m.tasks)
  }

  /** `validate_intake` finds nothing; every one of its rules is an error. */
  ghost predicate ValidIntake(m: Manifest) {
    forall rule :: !IntakeFires(m, rule)
  }

  /** A raw string prefix, as `in_scope` tests it. */
  predicate InRoots(path: string, roots: seq<string>) {
    exists i :: 0 <= i < |roots| && roots[i] <= path
  }

  predicate HasEvidence(l: Ledger, t: string)
    requires t in l.tasks
  {
    l.tasks[t].evidenceRefs != [] || exists i :: 0 <= i < |l.evidence| && l.evidence[i].taskId == t
  }

  function TextOf(value: Option<string>): string { if value.Some? then value.value else "None" }

  predicate LeasesOverlap(a: Lease, b: Lease) {
    TextOrder.Before(a.acquiredAt, TextOf(b.expiresAt)) && TextOrder.Before(b.acquiredAt, TextOf(a.expiresAt))
  }

  predicate Unowned(owner: Option<string>) { owner in {None, Some("")} }

  /** Whether `validate_ledger` reports the rule. */
  ghost predicate Fires(h: Hash, l: Ledger, rule: Rule) {
    match rule
    case SourceVersionMissing => !SourceOk(l.source)
    case ScopeMissing => !ScopeOk(l.scope)
    case EvidenceRequired => exists t :: t in l.tasks && l.tasks[t].status == Completed && !HasEvidence(l, t)
    case AcceptanceWeak => exists t :: t in l.tasks && l.tasks[t].status == Completed && !l.tasks[t].passed
    case BlockedWithoutOwner =>
      || (exists t :: t in l.tasks && l.tasks[t].status == Blocked && Unowned(l.tasks[t].decisionOwner))
      || (exists i :: 0 <= i < |l.blockers| && l.blockers[i].decisionOwner == "")
    case LeaseOverlap =>
      exists i, j :: 0 <= i < j < |l.leases| && l.leases[i].releasedAt.None? && l.leases[j].releasedAt.None?
                  && l.leases[i].taskId == l.leases[j].taskId && LeasesOverlap(l.leases[i], l.leases[j])
    case ReconcileInconsistent =>
      l.reconciliation.allowed && (l.reconciliation.pendingTasks > 0 || l.reconciliation.openBlockers > 0)
    case PathOutsideRoots =>
      && ScopeOk(l.scope)
      && exists i, p :: 0 <= i < |l.events| && p in l.events[i].paths && !InRoots(p, l.scope.allowedRoots)
    case EventScopeMismatch =>
      && ScopeOk(l.scope)
      && (exists i :: 0 <= i < |l.events| && !Scoped(l.events[i], l.scope))
    case ChainBroken => !Verified(h, Seal(h, l.events))
    case NotCommitted => l.requiresLanding && l.commits == []
  }

  datatype GateRule = GateRule(id: string, rules: set<Rule>)

  const DEFAULT_GATE: seq<GateRule> := [
    GateRule("GATE-LEDGER-001", {EvidenceRequired}),
    GateRule("GATE-LEDGER-002", {AcceptanceWeak}),
    GateRule("GATE-LEDGER-003", {BlockedWithoutOwner}),
    GateRule("GATE-LEDGER-004", {ScopeMissing, PathOutsideRoots, EventScopeMismatch}),
    GateRule("GATE-LEDGER-005", {ChainBroken}),
    GateRule("GATE-LEDGER-006", {NotCommitted})]

  ghost predicate GatePasses(h: Hash, l: Ledger, gate: seq<GateRule>) {
    forall i, rule :: 0 <= i < |gate| && rule in gate[i].rules ==> !Fires(h, l, rule)
  }

  /** `build_handover_receipt` says "completed". */
  ghost predicate HandsOver(h: Hash, l: Ledger, gate: seq<GateRule>) {
    GatePasses(h, l, gate) && l.reconciliation.allowed && PendingSet(l.tasks) == {}
  }

  datatype GateResult = GateResult(passed: bool, rules: seq<(string, set<Rule>)>)

  /** The result is that of the gate on this ledger: the verdict, and per gate rule the violations it found. */
  ghost predicate GateReport(h: Hash, l: Ledger, gate: seq<GateRule>, r: GateResult) {
    && (r.passed <==> GatePasses(h, l, gate))
    && |r.rules| == |gate|
    && forall i :: 0 <= i < |gate| ==>
         r.rules[i].0 == gate[i].id && forall rule :: rule in r.rules[i].1 <==>
               rule in gate[i].rules && Fires(h, l, rule)
  }

  /** A run without a gate of its own uses the default one. */
  function GateOf(gate: Option<seq<GateRule>>): seq<GateRule> { if gate.Some? then gate.value else DEFAULT_GATE }

  /** `run_gate`: the rules in order, each with the violations found. */
  method RunGate(fired: set<Rule>, gate: seq<GateRule>) returns (passed: bool, results: seq<(string, set<Rule>)>)
    ensures passed <==> forall i, rule :: 0 <= i < |gate| && rule in gate[i].rules ==> rule !in fired
    ensures |results| == |gate|
    ensures forall i :: 0 <= i < |gate| ==> results[i].0 == gate[i].id && results[i].1 == fired * gate[i].rules
  {
    passed, results := true, [];
    for k := 0 to |gate|
      invariant passed <==> forall i, rule :: 0 <= i < k && rule in gate[i].rules ==> rule !in fired
      invariant |results| == k
      invariant forall i :: 0 <= i < k ==> results[i].0 == gate[i].id && results[i].1 == fired * gate[i].rules
    {
      var violations := fired * gate[k].rules;
      assert forall rule :: rule in gate[k].rules && rule in fired <==> rule in violations;
      if violations != {} {
        var v :| v in violations;
        assert v in gate[k].rules && v in fired;
        passed := false;
      }
      results := results + [(gate[k].id, violations)];
    }
  }
}
