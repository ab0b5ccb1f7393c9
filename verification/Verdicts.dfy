/** When a fresh run on a valid manifest hands over as completed. */
module Verdicts {
  import opened Prelude
  import opened HashChain
  import opened Topo
  import opened Ledgers
  import opened RunLoop
  import opened Steps
  import opened Invariants
  import opened Histories
  import opened Gates
  import opened FreshRuns

  /** The result accepted for t is a success with evidence, and every path it reports starts with an allowed root. */
  ghost predicate Delivered(s: State, t: string) {
    exists i :: 0 <= i < |s.w.calls| && s.w.calls[i].taskId == t && s.w.calls[i].result.success
      && s.w.calls[i].result.evidence.Some?
      && forall p :: p in s.w.calls[i].result.paths ==> InRoots(p, s.l.scope.allowedRoots)
  }

  /** The facts about a finished fresh run that the verdict depends on. */
  ghost predicate RunFacts(m: Manifest, s: State, todo: set<string>) {
    && Fits(GraphOf(m.tasks), s) && Once(s) && FreshFacts(s, todo) && AllScoped(s.l)
    && s.l.scope == m.scope && s.l.source == m.source && !s.l.requiresLanding
    && (s.l.reconciliation.allowed <==> PendingSet(s.l.tasks) == {} && s.l.blockers == [])
  }

  lemma RunHasFacts(host: Host, m: Manifest, w: World, cfg: Config) returns (todo: set<string>)
    requires ClockOk(host)
    ensures RunFacts(m, Run(host, m, w, cfg), todo)
  {
    hide FreshFacts, Once, DepsFirst, Order, AllScoped, LeasesReleased, Owned, NoneInProgress;
    var g := GraphOf(m.tasks);
    FreshInv(m, w);
    DriveEffect(host, g, Fresh(m, w), cfg);
    todo := RunIsFresh(host, m, w, cfg);
  }

  lemma AcceptedIsCompleted(m: Manifest, s: State, todo: set<string>, t: string)
    requires RunFacts(m, s, todo) && t in s.l.tasks && Delivered(s, t)
    ensures s.l.tasks[t].status == Completed && s.l.tasks[t].passed && s.l.tasks[t].evidenceRefs != []
    ensures !HasBlocker(s.l.blockers, t)
  {
    hide RowsOf;
    assert SucceededIn(s.w.calls, t);
    assert if t in todo then Untouched(s, t) else Visited(s, t);
  }

  lemma CompletedWasAccepted(m: Manifest, s: State, todo: set<string>, t: string) returns (i: nat)
    requires RunFacts(m, s, todo) && t in s.l.tasks && s.l.tasks[t].status == Completed
    ensures i < |s.w.calls| && s.w.calls[i].taskId == t && s.w.calls[i].result.success
    ensures s.l.tasks[t].passed <==> s.w.calls[i].result.evidence.Some?
  {
    assert SucceededIn(s.w.calls, t);
    i :| 0 <= i < |s.w.calls| && s.w.calls[i].taskId == t && s.w.calls[i].result.success;
  }

  lemma PendingOrVisited(s: State, todo: set<string>, t: string)
    requires PerTask(s, todo) && t in s.l.tasks
    ensures s.l.tasks[t].status == Pending || Visited(s, t)
  {
  }

  /** What a passed default gate and a completed receipt say about the ledger. */
  ghost predicate GateFacts(l: Ledger) {
    && PendingSet(l.tasks) == {} && l.reconciliation.allowed
    && (forall t :: t in l.tasks && l.tasks[t].status == Completed ==> l.tasks[t].passed)
    && PathsInside(l)
  }

  lemma HandoverGivesFacts(h: Hash, l: Ledger)
    requires ScopeOk(l.scope) && HandsOver(h, l, DEFAULT_GATE)
    ensures GateFacts(l)
  {
    hide Verified, InRoots, HasEvidence, ScopeOk;
    assert AcceptanceWeak in DEFAULT_GATE[1].rules && !Fires(h, l, AcceptanceWeak);
    assert PathOutsideRoots in DEFAULT_GATE[3].rules && !Fires(h, l, PathOutsideRoots);
  }

  lemma ReportedInside(s: State, todo: set<string>, i: nat)
    requires FreshFacts(s, todo) && PathsInside(s.l) && i < |s.w.calls| && s.w.calls[i].result.success
    ensures forall p :: p in s.w.calls[i].result.paths ==> InRoots(p, s.l.scope.allowedRoots)
  {
    hide RowsOf, PerTask, InRoots;
    forall p | p in s.w.calls[i].result.paths ensures InRoots(p, s.l.scope.allowedRoots) {
      assert PathReported(s.w.calls, p);
      var k :| 0 <= k < |s.l.events| && p in s.l.events[k].paths;
    }
  }

  lemma HandoverNeedsDelivery(h: Hash, m: Manifest, s: State, todo: set<string>, t: string)
    requires ScopeOk(m.scope) && RunFacts(m, s, todo) && t in s.l.tasks && HandsOver(h, s.l, DEFAULT_GATE)
    ensures Delivered(s, t)
  {
    hide RowsOf, Verified, Fires, HandsOver, PathsInside, PerTask, EvidenceMatches, PathsMatch, Once, InRoots, ScopeOk;
    HandoverGivesFacts(h, s.l);
    PendingOrVisited(s, todo, t);
    assert t !in PendingSet(s.l.tasks);
    VisitedDone(s, t);
    var i := CompletedWasAccepted(m, s, todo, t);
    ReportedInside(s, todo, i);
  }

  lemma VisitedDone(s: State, t: string)
    requires t in s.l.tasks && t !in PendingSet(s.l.tasks) && (s.l.tasks[t].status == Pending || Visited(s, t))
    requires s.l.reconciliation.allowed && s.l.blockers == []
    ensures s.l.tasks[t].status == Completed
  {
    hide RowsOf;
  }

  lemma FirstHasBlocker(blockers: seq<Blocker>)
    ensures blockers == [] || HasBlocker(blockers, blockers[0].taskId)
  {
  }

  lemma DeliveredMeansNoBlocker(m: Manifest, s: State, todo: set<string>)
    requires RunFacts(m, s, todo) && forall t :: t in s.l.tasks ==> Delivered(s, t)
    ensures s.l.blockers == [] && AllCompleted(s.l) && s.l.reconciliation.allowed && PendingSet(s.l.tasks) == {}
  {
    hide RunFacts, Delivered;
    forall t | t in s.l.tasks ensures s.l.tasks[t].status == Completed && !HasBlocker(s.l.blockers, t) {
      AcceptedIsCompleted(m, s, todo, t);
    }
    BlockersAreOnTasks(m, s, todo);
    FirstHasBlocker(s.l.blockers);
    assert PendingSet(s.l.tasks) == {};
  }

  lemma BlockersAreOnTasks(m: Manifest, s: State, todo: set<string>)
    requires RunFacts(m, s, todo)
    ensures forall i :: 0 <= i < |s.l.blockers| ==> s.l.blockers[i].taskId in s.l.tasks
    ensures s.l.reconciliation.allowed <==> PendingSet(s.l.tasks) == {} && s.l.blockers == []
  {
    hide RowsOf, EvidenceMatches, PathsMatch, Once, AllScoped;
  }

  lemma SucceededIsTask(s: State, i: nat)
    requires EvidenceMatches(s) && i < |s.w.calls| && s.w.calls[i].result.success
    ensures s.w.calls[i].taskId in s.l.tasks
  {
  }

  lemma OneSuccess(calls: seq<Call>, i: nat, j: nat)
    requires NoCallAfterSuccess(calls) && i < |calls| && j < |calls| && calls[i].taskId == calls[j].taskId
    requires calls[i].result.success && calls[j].result.success
    ensures i == j
  {
  }

  /** A task's one success is the delivered one, so its paths are inside the roots. */
  lemma SuccessPathsInside(s: State, j: nat, p: string)
    requires EvidenceMatches(s) && NoCallAfterSuccess(s.w.calls) && forall t :: t in s.l.tasks ==> Delivered(s, t)
    requires j < |s.w.calls| && s.w.calls[j].result.success && p in s.w.calls[j].result.paths
    ensures InRoots(p, s.l.scope.allowedRoots)
  {
    var t := s.w.calls[j].taskId;
    SucceededIsTask(s, j);
    hide EvidenceMatches, NoCallAfterSuccess, InRoots;
    assert Delivered(s, t);
    var i :| 0 <= i < |s.w.calls| && s.w.calls[i].taskId == t && s.w.calls[i].result.success
      && s.w.calls[i].result.evidence.Some?
      && forall p :: p in s.w.calls[i].result.paths ==> InRoots(p, s.l.scope.allowedRoots);
    OneSuccess(s.w.calls, i, j);
  }

  lemma DeliveredPathsInside(m: Manifest, s: State, todo: set<string>, k: nat, p: string)
    requires RunFacts(m, s, todo) && forall t :: t in s.l.tasks ==> Delivered(s, t)
    requires k < |s.l.events| && p in s.l.events[k].paths
    ensures InRoots(p, s.l.scope.allowedRoots)
  {
    hide RowsOf, PerTask, EvidenceMatches, AllScoped, InRoots, Delivered;
    DeliveredMeansNoBlocker(m, s, todo);
    assert PathReported(s.w.calls, p);
    var j :| 0 <= j < |s.w.calls| && s.w.calls[j].result.success && p in s.w.calls[j].result.paths;
    SuccessPathsInside(s, j, p);
  }

  ghost predicate AllEvidenced(l: Ledger) {
    forall t :: t in l.tasks ==> l.tasks[t].status == Completed && l.tasks[t].passed && l.tasks[t].evidenceRefs != []
  }

  ghost predicate PathsInside(l: Ledger) {
    forall k, p :: 0 <= k < |l.events| && p in l.events[k].paths ==> InRoots(p, l.scope.allowedRoots)
  }

  lemma CleanTasks(h: Hash, l: Ledger)
    requires AllEvidenced(l) && l.blockers == []
    ensures !Fires(h, l, EvidenceRequired) && !Fires(h, l, AcceptanceWeak) && !Fires(h, l, BlockedWithoutOwner)
  {
  }

  lemma CleanEvents(h: Hash, l: Ledger)
    requires IsDigest(h) && PathsInside(l) && AllScoped(l) && ScopeOk(l.scope) && !l.requiresLanding
    ensures !Fires(h, l, PathOutsideRoots) && !Fires(h, l, ScopeMissing) && !Fires(h, l, EventScopeMismatch)
    ensures !Fires(h, l, ChainBroken) && !Fires(h, l, NotCommitted)
  {
    hide Verified, InRoots;
    SealVerifies(h, l.events);
  }

  /** A ledger the default gate has nothing against. */
  lemma CleanLedgerPasses(h: Hash, l: Ledger)
    requires IsDigest(h) && AllEvidenced(l) && PathsInside(l) && AllScoped(l) && ScopeOk(l.scope)
    requires l.blockers == [] && !l.requiresLanding
    ensures GatePasses(h, l, DEFAULT_GATE)
  {
    hide Fires, AllEvidenced, PathsInside, AllScoped, ScopeOk, IsDigest;
    CleanTasks(h, l);
    CleanEvents(h, l);
  }

  lemma DeliveryGivesHandover(h: Hash, m: Manifest, s: State, todo: set<string>)
    requires ScopeOk(m.scope) && IsDigest(h) && RunFacts(m, s, todo) && forall t :: t in s.l.tasks ==> Delivered(s, t)
    ensures HandsOver(h, s.l, DEFAULT_GATE)
  {
    hide RunFacts, Delivered, GatePasses, AllScoped;
    DeliveredMeansNoBlocker(m, s, todo);
    forall t | t in s.l.tasks ensures s.l.tasks[t].passed && s.l.tasks[t].evidenceRefs != [] {
      AcceptedIsCompleted(m, s, todo, t);
    }
    forall k, p | 0 <= k < |s.l.events| && p in s.l.events[k].paths ensures InRoots(p, s.l.scope.allowedRoots) {
      DeliveredPathsInside(m, s, todo, k, p);
    }
    assert AllScoped(s.l) && !s.l.requiresLanding && s.l.scope == m.scope by { FactsScope(m, s, todo); }
    CleanLedgerPasses(h, s.l);
  }

  lemma ValidHasScope(m: Manifest)
    requires ValidIntake(m)
    ensures ScopeOk(m.scope)
  {
    assert !IntakeFires(m, IntakeScopeMissing);
  }

  lemma FactsScope(m: Manifest, s: State, todo: set<string>)
    requires RunFacts(m, s, todo)
    ensures AllScoped(s.l) && !s.l.requiresLanding && s.l.scope == m.scope
  {
  }

  /**
   * End to end: a fresh run hands over as completed if and only if the executor delivered every task. The
   * schedule, retries, pauses and blockers matter only through that.
   */
  lemma HandoverIffDelivered(h: Hash, host: Host, m: Manifest, w: World, cfg: Config)
    requires ClockOk(host) && IsDigest(h) && ValidIntake(m)
    ensures var s := Run(host, m, w, cfg);
      HandsOver(h, s.l, DEFAULT_GATE) <==> forall t :: t in GraphOf(m.tasks) ==> Delivered(s, t)
  {
    hide RunFacts, HandsOver, Delivered, Run, ValidIntake, ScopeOk;
    var s := Run(host, m, w, cfg);
    ValidHasScope(m);
    var todo := RunHasFacts(host, m, w, cfg);
    assert Fits(GraphOf(m.tasks), s);
    if HandsOver(h, s.l, DEFAULT_GATE) {
      forall t | t in GraphOf(m.tasks) ensures Delivered(s, t) {
        HandoverNeedsDelivery(h, m, s, todo, t);
      }
    }
    if forall t :: t in GraphOf(m.tasks) ==> Delivered(s, t) {
      DeliveryGivesHandover(h, m, s, todo);
    }
  }
}
