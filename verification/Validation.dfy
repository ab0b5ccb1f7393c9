/** Intake and ledger validation as the loops of the source, against what each rule means. */
module Validation {
  import opened Prelude
  import opened HashChain
  import opened Ledgers
  import opened RunLoop
  import opened Gates

  // ---- Intake --------------------------------------------------------------------------------------

  function Flag<R>(fires: bool, rule: R): set<R> { if fires then {rule} else {} }

  /** `validate_intake`: the rules found are exactly those that fire, and there are none exactly on a valid manifest. */
  method ValidateIntake(m: Manifest) returns (findings: set<IntakeRule>)
    ensures forall rule :: rule in findings <==> IntakeFires(m, rule)
    ensures findings == {} <==> ValidIntake(m)
  {
    hide SourceOk, ScopeOk, FieldsOk, TaskIds;
    findings := Flag(m.schema != "1.0", SchemaUnsupported);
    findings := findings + Flag(!SourceOk(m.source), SourceMissing);
    findings := findings + Flag(!m.approved || m.score < 90, ApprovalInsufficient);
    findings := findings + Flag(!ScopeOk(m.scope), IntakeScopeMissing);
    findings := findings + Flag(m.tasks == [], NoTasks);
    var fieldsMissing, unresolved := ScanNodes(m.tasks);
    findings := findings + Flag(fieldsMissing, FieldsMissing) + Flag(unresolved, DepUnresolved);
  }

  method ScanNodes(nodes: seq<TaskNode>) returns (fieldsMissing: bool, unresolved: bool)
    ensures fieldsMissing <==> exists i :: 0 <= i < |nodes| && !FieldsOk(nodes[i])
    ensures unresolved <==> exists i, d :: 0 <= i < |nodes| && d in nodes[i].dependsOn && d !in TaskIds(nodes)
  {
    var ids := TaskIds(nodes);
    fieldsMissing, unresolved := false, false;
    for i := 0 to |nodes|
      invariant fieldsMissing <==> exists k :: 0 <= k < i && !FieldsOk(nodes[k])
      invariant unresolved <==> exists k, d :: 0 <= k < i && d in nodes[k].dependsOn && d !in ids
    {
      if !FieldsOk(nodes[i]) { fieldsMissing := true; }
      for j := 0 to |nodes[i].dependsOn|
        invariant unresolved <==> ((exists k, d :: 0 <= k < i && d in nodes[k].dependsOn && d !in ids)
                                || exists n :: 0 <= n < j && nodes[i].dependsOn[n] !in ids)
      {
        if nodes[i].dependsOn[j] !in ids { unresolved := true; }
      }
    }
  }

  // ---- Ledger --------------------------------------------------------------------------------------

  /** Like `Fires`, but on a stored log that may have been tampered with. */
  ghost predicate FiresOn(h: Hash, l: Ledger, log: seq<LogEvent>, rule: Rule) {
    if rule == ChainBroken then !Verified(h, log) else Fires(h, l, rule)
  }

  method HasEvidenceIn(l: Ledger, t: string) returns (found: bool)
    requires t in l.tasks
    ensures found <==> HasEvidence(l, t)
  {
    found := l.tasks[t].evidenceRefs != [];
    for i := 0 to |l.evidence|
      invariant found <==> l.tasks[t].evidenceRefs != [] || exists k :: 0 <= k < i && l.evidence[k].taskId == t
    {
      if l.evidence[i].taskId == t { found := true; }
    }
  }

  /** The loop over the task entries, in any order. */
  method ScanTasks(l: Ledger) returns (bare: bool, weak: bool, unowned: bool)
    ensures bare <==> exists t :: t in l.tasks && l.tasks[t].status == Completed && !HasEvidence(l, t)
    ensures weak <==> exists t :: t in l.tasks && l.tasks[t].status == Completed && !l.tasks[t].passed
    ensures unowned <==> exists t :: t in l.tasks && l.tasks[t].status == Blocked && Unowned(l.tasks[t].decisionOwner)
  {
    hide HasEvidence, Unowned;
    bare, weak, unowned := false, false, false;
    var rest := l.tasks.Keys;
    while rest != {}
      invariant rest <= l.tasks.Keys
      invariant bare <==> exists t :: t in l.tasks && t !in rest && l.tasks[t].status == Completed && !HasEvidence(l, t)
      invariant weak <==> exists t :: t in l.tasks && t !in rest && l.tasks[t].status == Completed && !l.tasks[t].passed
      invariant unowned <==>
                  exists t ::
                    t in l.tasks && t !in rest && l.tasks[t].status == Blocked && Unowned(l.tasks[t].decisionOwner)
      decreases |rest|
    {
      var t :| t in rest;
      if l.tasks[t].status == Completed {
        var evidenced := HasEvidenceIn(l, t);
        if !evidenced { bare := true; }
        if !l.tasks[t].passed { weak := true; }
      }
      if l.tasks[t].status == Blocked && Unowned(l.tasks[t].decisionOwner) { unowned := true; }
      rest := rest - {t};
    }
  }

  method ScanBlockers(blockers: seq<Blocker>) returns (unowned: bool)
    ensures unowned <==> exists i :: 0 <= i < |blockers| && blockers[i].decisionOwner == ""
  {
    unowned := false;
    for i := 0 to |blockers|
      invariant unowned <==> exists k :: 0 <= k < i && blockers[k].decisionOwner == ""
    {
      if blockers[i].decisionOwner == "" { unowned := true; }
    }
  }

  predicate Overlapping(leases: seq<Lease>, i: nat, j: nat)
    requires i < |leases| && j < |leases|
  {
    && leases[i].releasedAt.None? && leases[j].releasedAt.None?
    && leases[i].taskId == leases[j].taskId && LeasesOverlap(leases[i], leases[j])
  }

  /** `leases_by_task`: the unreleased leases of one task, in their order. */
  function GroupOf(leases: seq<Lease>, t: string): seq<Lease> {
    if leases == [] then []
    else
      var n := |leases| - 1;
      GroupOf(leases[..n], t) + if leases[n].releasedAt.None? && leases[n].taskId == t then [leases[n]] else []
  }

  lemma {:induction false} GroupMembers(leases: seq<Lease>, t: string)
    ensures forall a :: a in GroupOf(leases, t) <==> a in leases && a.releasedAt.None? && a.taskId == t
  {
    if leases != [] {
      var n := |leases| - 1;
      GroupMembers(leases[..n], t);
      assert leases == leases[..n] + [leases[n]];
    }
  }

  ghost predicate PairIn(group: seq<Lease>) {
    exists i, j :: 0 <= i < j < |group| && LeasesOverlap(group[i], group[j])
  }

  ghost predicate OverlapIn(leases: seq<Lease>, t: string) {
    exists i, j :: 0 <= i < j < |leases| && Overlapping(leases, i, j) && leases[i].taskId == t
  }

  lemma {:induction false} GroupInventsNone(leases: seq<Lease>, t: string)
    requires PairIn(GroupOf(leases, t))
    ensures OverlapIn(leases, t)
  {
    hide LeasesOverlap;
    var n := |leases| - 1;
    var before, group := GroupOf(leases[..n], t), GroupOf(leases, t);
    var i, j :| 0 <= i < j < |group| && LeasesOverlap(group[i], group[j]);
    if j < |before| {
      assert LeasesOverlap(before[i], before[j]);
      GroupInventsNone(leases[..n], t);
      var x, y :| 0 <= x < y < n && Overlapping(leases[..n], x, y) && leases[..n][x].taskId == t;
      assert Overlapping(leases, x, y);
    } else {
      GroupMembers(leases[..n], t);
      assert before[i] in leases[..n];
      var x :| 0 <= x < n && leases[..n][x] == before[i];
      assert Overlapping(leases, x, n);
    }
  }

  lemma {:induction false} GroupLosesNone(leases: seq<Lease>, t: string)
    requires OverlapIn(leases, t)
    ensures PairIn(GroupOf(leases, t))
  {
    hide LeasesOverlap;
    var n := |leases| - 1;
    var before, group := GroupOf(leases[..n], t), GroupOf(leases, t);
    var i, j :| 0 <= i < j < |leases| && Overlapping(leases, i, j) && leases[i].taskId == t;
    if j < n {
      assert Overlapping(leases[..n], i, j);
      GroupLosesNone(leases[..n], t);
      var x, y :| 0 <= x < y < |before| && LeasesOverlap(before[x], before[y]);
      assert LeasesOverlap(group[x], group[y]);
    } else {
      GroupMembers(leases[..n], t);
      assert leases[..n][i] in before;
      var x :| 0 <= x < |before| && before[x] == leases[i];
      assert LeasesOverlap(group[x], group[|before|]);
    }
  }

  /** Grouping loses no overlapping pair and invents none. */
  lemma GroupKeepsOverlaps(leases: seq<Lease>, t: string)
    ensures PairIn(GroupOf(leases, t)) <==> OverlapIn(leases, t)
  {
    hide PairIn, OverlapIn;
    if PairIn(GroupOf(leases, t)) { GroupInventsNone(leases, t); }
    if OverlapIn(leases, t) { GroupLosesNone(leases, t); }
  }

  method AnyPair(group: seq<Lease>) returns (found: bool)
    ensures found <==> PairIn(group)
  {
    hide LeasesOverlap;
    found := false;
    for i := 0 to |group|
      invariant found <==> exists a, b :: 0 <= a < i && a < b < |group| && LeasesOverlap(group[a], group[b])
    {
      for j := i + 1 to |group|
        invariant found <==> ((exists a, b :: 0 <= a < i && a < b < |group| && LeasesOverlap(group[a], group[b]))
                           || exists b :: i < b < j && LeasesOverlap(group[i], group[b]))
      {
        if LeasesOverlap(group[i], group[j]) { found := true; }
      }
    }
  }

  /** Group the unreleased leases by task, then look for an overlapping pair in each group. */
  method ScanLeases(leases: seq<Lease>) returns (overlap: bool)
    ensures overlap <==> exists i, j :: 0 <= i < j < |leases| && Overlapping(leases, i, j)
  {
    var groups: map<string, seq<Lease>> := map[];
    for i := 0 to |leases|
      invariant forall t :: GroupOf(leases[..i], t) == if t in groups then groups[t] else []
    {
      assert leases[..i + 1][..i] == leases[..i];
      if leases[i].releasedAt.None? {
        var t := leases[i].taskId;
        groups := groups[t := (if t in groups then groups[t] else []) + [leases[i]]];
      }
    }
    assert leases[..|leases|] == leases;
    overlap := ScanGroups(leases, groups);
  }

  method ScanGroups(leases: seq<Lease>, groups: map<string, seq<Lease>>) returns (overlap: bool)
    requires forall t :: GroupOf(leases, t) == if t in groups then groups[t] else []
    ensures overlap <==> exists i, j :: 0 <= i < j < |leases| && Overlapping(leases, i, j)
  {
    hide Overlapping, GroupOf;
    overlap := false;
    var rest := groups.Keys;
    while rest != {}
      invariant rest <= groups.Keys
      invariant overlap <==> exists t :: t in groups && t !in rest && PairIn(groups[t])
      decreases |rest|
    {
      var t :| t in rest;
      var found := AnyPair(groups[t]);
      if found { overlap := true; }
      rest := rest - {t};
    }
    GroupsCover(leases, groups);
  }

  lemma GroupsCover(leases: seq<Lease>, groups: map<string, seq<Lease>>)
    requires forall t :: GroupOf(leases, t) == if t in groups then groups[t] else []
    ensures (exists t :: t in groups && PairIn(groups[t])) <==>
              exists i, j :: 0 <= i < j < |leases| && Overlapping(leases, i, j)
  {
    hide GroupOf, Overlapping;
    if t :| t in groups && PairIn(groups[t]) {
      GroupKeepsOverlaps(leases, t);
      assert OverlapIn(leases, t);
    }
    if i, j :| 0 <= i < j < |leases| && Overlapping(leases, i, j) {
      var t := leases[i].taskId;
      GroupKeepsOverlaps(leases, t);
      assert OverlapIn(leases, t);
      assert PairIn(GroupOf(leases, t)) && !PairIn([]);
    }
  }

  method PathInScope(path: string, roots: seq<string>) returns (ok: bool)
    ensures ok <==> InRoots(path, roots)
  {
    ok := false;
    for i := 0 to |roots|
      invariant ok <==> exists k :: 0 <= k < i && roots[k] <= path
    {
      if roots[i] <= path { ok := true; }
    }
  }

  /** The loop over the log: a path outside the roots, an event of another scope. */
  method ScanEvents(events: seq<Event>, scope: Scope) returns (outside: bool, mismatch: bool)
    ensures outside <==> exists i, p :: 0 <= i < |events| && p in events[i].paths && !InRoots(p, scope.allowedRoots)
    ensures mismatch <==> exists i :: 0 <= i < |events| && !Scoped(events[i], scope)
  {
    hide InRoots;
    outside, mismatch := false, false;
    for i := 0 to |events|
      invariant outside <==> exists k, p :: 0 <= k < i && p in events[k].paths && !InRoots(p, scope.allowedRoots)
      invariant mismatch <==> exists k :: 0 <= k < i && !Scoped(events[k], scope)
    {
      for j := 0 to |events[i].paths|
        invariant outside <==> ((exists k, p :: 0 <= k < i && p in events[k].paths && !InRoots(p, scope.allowedRoots))
                             || exists n :: 0 <= n < j && !InRoots(events[i].paths[n], scope.allowedRoots))
      {
        var ok := PathInScope(events[i].paths[j], scope.allowedRoots);
        if !ok { outside := true; }
      }
      if !Scoped(events[i], scope) { mismatch := true; }
    }
  }

  /** The four findings about control fields. */
  method ScanControl(h: Hash, l: Ledger) returns (fired: set<Rule>)
    ensures fired <= {SourceVersionMissing, ScopeMissing, ReconcileInconsistent, NotCommitted}
    ensures forall rule :: rule in {SourceVersionMissing, ScopeMissing, ReconcileInconsistent, NotCommitted} ==>
              (rule in fired <==> Fires(h, l, rule))
  {
    var r := l.reconciliation;
    fired := Flag(!SourceOk(l.source), SourceVersionMissing) + Flag(!ScopeOk(l.scope), ScopeMissing)
           + Flag(r.allowed && (r.pendingTasks > 0 || r.openBlockers > 0), ReconcileInconsistent)
           + Flag(l.requiresLanding && l.commits == [], NotCommitted);
  }

  /** The findings about tasks, blockers and leases. */
  method ScanWork(h: Hash, l: Ledger) returns (fired: set<Rule>)
    ensures fired <= {EvidenceRequired, AcceptanceWeak, BlockedWithoutOwner, LeaseOverlap}
    ensures forall rule :: rule in {EvidenceRequired, AcceptanceWeak, BlockedWithoutOwner, LeaseOverlap} ==>
              (rule in fired <==> Fires(h, l, rule))
  {
    hide HasEvidence, Overlapping, LeasesOverlap, Unowned;
    var bare, weak, unowned := ScanTasks(l);
    var unownedBlocker := ScanBlockers(l.blockers);
    var overlap := ScanLeases(l.leases);
    OverlapFires(h, l);
    fired := Flag(bare, EvidenceRequired) + Flag(weak, AcceptanceWeak)
           + Flag(unowned || unownedBlocker, BlockedWithoutOwner)
           + Flag(overlap, LeaseOverlap);
  }

  /** The findings about the log. */
  method ScanLog(h: Hash, l: Ledger, log: seq<LogEvent>) returns (fired: set<Rule>)
    ensures fired <= {PathOutsideRoots, EventScopeMismatch, ChainBroken}
    ensures forall rule :: rule in {PathOutsideRoots, EventScopeMismatch, ChainBroken} ==>
              (rule in fired <==> FiresOn(h, l, log, rule))
  {
    hide InRoots, ScopeOk, Verified;
    var outside, mismatch := ScanEvents(l.events, l.scope);
    var verified := VerifyChain(h, log);
    fired := Flag(ScopeOk(l.scope) && outside, PathOutsideRoots)
           + Flag(ScopeOk(l.scope) && mismatch, EventScopeMismatch)
           + Flag(!verified, ChainBroken);
  }

  /** `validate_ledger`: the rules found are exactly those that fire on the ledger and its stored log. */
  method ValidateLedger(h: Hash, l: Ledger, log: seq<LogEvent>) returns (fired: set<Rule>)
    ensures forall rule :: rule in fired <==> FiresOn(h, l, log, rule)
  {
    hide Fires;
    var control := ScanControl(h, l);
    var work := ScanWork(h, l);
    var logged := ScanLog(h, l, log);
    fired := control + work + logged;
  }

  lemma OverlapFires(h: Hash, l: Ledger)
    ensures Fires(h, l, LeaseOverlap) <==> exists i, j :: 0 <= i < j < |l.leases| && Overlapping(l.leases, i, j)
  {
    if i, j :| 0 <= i < j < |l.leases| && Overlapping(l.leases, i, j) {
      assert l.leases[i].taskId == l.leases[j].taskId && LeasesOverlap(l.leases[i], l.leases[j]);
    }
    if Fires(h, l, LeaseOverlap) {
      var i, j :| 0 <= i < j < |l.leases| && l.leases[i].releasedAt.None? && l.leases[j].releasedAt.None?
               && l.leases[i].taskId == l.leases[j].taskId && LeasesOverlap(l.leases[i], l.leases[j]);
      assert Overlapping(l.leases, i, j);
    }
  }
}
