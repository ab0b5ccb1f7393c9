/** What the gate says about the ledgers of histories: which rules can fire at all, and what a passed gate means. */
module GateHistories {
  import opened Prelude
  import opened HashChain
  import opened Topo
  import opened Ledgers
  import opened RunLoop
  import opened Steps
  import opened Invariants
  import opened Histories
  import opened Coverage
  import opened Gates
  import opened FreshRuns
  import opened Verdicts
  import opened Compensations
  import opened Attempts
  import opened Reports
  import opened Transcripts
  import TextOrder

  // ---- The rules on the fields ---------------------------------------------------------------------

  /** What each ledger rule looks at, written out on the fields of the document. */
  lemma RulesOnFields(h: Hash, l: Ledger)
    ensures Fires(h, l, SourceVersionMissing) <==>
              l.source.iplan == "" || l.source.version == "" || l.source.checksum == ""
    ensures Fires(h, l, ScopeMissing) <==>
              l.scope.clientId == "" || l.scope.projectId == "" || l.scope.allowedRoots == []
    ensures Fires(h, l, EvidenceRequired) <==>
              exists t :: t in l.tasks && l.tasks[t].status == Completed && l.tasks[t].evidenceRefs == []
                       && forall i :: 0 <= i < |l.evidence| ==> l.evidence[i].taskId != t
    ensures Fires(h, l, AcceptanceWeak) <==>
              exists t :: t in l.tasks && l.tasks[t].status == Completed && !l.tasks[t].passed
    ensures Fires(h, l, ReconcileInconsistent) <==>
              l.reconciliation.allowed && (l.reconciliation.pendingTasks != 0 || l.reconciliation.openBlockers != 0)
    ensures Fires(h, l, NotCommitted) <==> l.requiresLanding && l.commits == []
  {
  }

  /** No root is a prefix of the path. */
  ghost predicate Outside(p: string, roots: seq<string>) {
    forall k :: 0 <= k < |roots| ==> !(roots[k] <= p)
  }

  lemma LogRulesOnFields(h: Hash, l: Ledger)
    requires l.scope.clientId != "" && l.scope.projectId != "" && l.scope.allowedRoots != []
    ensures Fires(h, l, PathOutsideRoots) <==>
              exists i, p :: 0 <= i < |l.events| && p in l.events[i].paths && Outside(p, l.scope.allowedRoots)
    ensures Fires(h, l, EventScopeMismatch) <==>
              exists i :: 0 <= i < |l.events|
                       && (l.events[i].clientId != l.scope.clientId || l.events[i].projectId != l.scope.projectId)
    ensures Fires(h, l, ChainBroken) <==> !Verified(h, Seal(h, l.events))
  {
    hide Verified, Seal;
    forall p ensures Outside(p, l.scope.allowedRoots) <==> !InRoots(p, l.scope.allowedRoots) {}
    hide InRoots, Outside;
  }

  /** An owner is missing if it is none or empty; leases overlap as their texts do, an unset end reading "None". */
  lemma OwnerAndLeaseRulesOnFields(h: Hash, l: Ledger)
    ensures Fires(h, l, BlockedWithoutOwner) <==>
              || (exists t :: t in l.tasks && l.tasks[t].status == Blocked
                           && (l.tasks[t].decisionOwner == None || l.tasks[t].decisionOwner == Some("")))
              || (exists i :: 0 <= i < |l.blockers| && l.blockers[i].decisionOwner == "")
    ensures Fires(h, l, LeaseOverlap) <==>
              exists i, j :: 0 <= i < j < |l.leases| && Overlap(l.leases[i], l.leases[j])
  {
    forall i, j | 0 <= i < j < |l.leases|
      ensures Overlap(l.leases[i], l.leases[j]) <==>
                && l.leases[i].releasedAt.None? && l.leases[j].releasedAt.None?
                && l.leases[i].taskId == l.leases[j].taskId && LeasesOverlap(l.leases[i], l.leases[j])
    {
    }
  }

  function EndText(lease: Lease): string { match lease.expiresAt case None => "None" case Some(end) => end }

  ghost predicate Overlap(a: Lease, b: Lease) {
    && a.releasedAt == None && b.releasedAt == None && a.taskId == b.taskId
    && TextOrder.Before(a.acquiredAt, EndText(b)) && TextOrder.Before(b.acquiredAt, EndText(a))
  }

  /** The intake rules on the fields of the manifest: nothing missing, approved with 90 or more, all names known. */
  lemma ValidOnFields(m: Manifest)
    ensures ValidIntake(m) <==>
              && m.schema == "1.0" && m.approved && m.score >= 90 && m.tasks != []
              && m.source.iplan != "" && m.source.version != "" && m.source.checksum != ""
              && m.scope.clientId != "" && m.scope.projectId != "" && m.scope.allowedRoots != []
              && (forall k :: 0 <= k < |m.tasks| ==>
                    m.tasks[k].taskId != "" && m.tasks[k].title != "" && m.tasks[k].hasAcceptance)
              && forall k, d :: 0 <= k < |m.tasks| && d in m.tasks[k].dependsOn ==> Declared(m, d)
  {
    forall d ensures Declared(m, d) <==> d in TaskIds(m.tasks) {}
    hide Declared, TaskIds;
    AllIntakeRules(m);
    hide ValidIntake;
  }

  lemma AllIntakeRules(m: Manifest)
    ensures ValidIntake(m) <==>
              && !IntakeFires(m, SchemaUnsupported) && !IntakeFires(m, SourceMissing)
              && !IntakeFires(m, ApprovalInsufficient) && !IntakeFires(m, IntakeScopeMissing)
              && !IntakeFires(m, NoTasks) && !IntakeFires(m, FieldsMissing) && !IntakeFires(m, DepUnresolved)
  {
    hide IntakeFires;
    if !ValidIntake(m) {
      var rule :| IntakeFires(m, rule);
      SevenRules(rule);
    }
  }

  lemma SevenRules(rule: IntakeRule)
    ensures rule in {SchemaUnsupported, SourceMissing, ApprovalInsufficient, IntakeScopeMissing, NoTasks, FieldsMissing,
                     DepUnresolved}
  {
  }

  ghost predicate Declared(m: Manifest, id: string) {
    exists k :: 0 <= k < |m.tasks| && m.tasks[k].taskId == id
  }

  /** The default gate lets a ledger pass if and only if none of its eight rules fires. */
  lemma DefaultGatePasses(h: Hash, l: Ledger)
    ensures GatePasses(h, l, DEFAULT_GATE) <==>
              forall rule :: Fires(h, l, rule) ==> rule in {SourceVersionMissing, LeaseOverlap, ReconcileInconsistent}
  {
    hide Fires;
    var gate := DEFAULT_GATE;
    if GatePasses(h, l, gate) {
      assert EvidenceRequired in gate[0].rules && AcceptanceWeak in gate[1].rules;
      assert BlockedWithoutOwner in gate[2].rules && ScopeMissing in gate[3].rules;
      assert PathOutsideRoots in gate[3].rules && EventScopeMismatch in gate[3].rules;
      assert ChainBroken in gate[4].rules && NotCommitted in gate[5].rules;
      forall rule | Fires(h, l, rule)
        ensures rule in {SourceVersionMissing, LeaseOverlap, ReconcileInconsistent}
      {
        ElevenRules(rule);
      }
    }
  }

  lemma ElevenRules(rule: Rule)
    ensures rule in {SourceVersionMissing, LeaseOverlap, ReconcileInconsistent, EvidenceRequired, AcceptanceWeak,
                     BlockedWithoutOwner, ScopeMissing, PathOutsideRoots, EventScopeMismatch, ChainBroken, NotCommitted}
  {
  }

  // ---- Over histories ------------------------------------------------------------------------------

  /**
   * Landing and counts are on record, only edits, undos and commits name paths, and commits name edited ones.
   */
  ghost predicate OnRecord(l: Ledger) {
    && (l.requiresLanding ==> l.commits != [])
    && (l.reconciliation.allowed ==> l.reconciliation.pendingTasks == 0 && l.reconciliation.openBlockers == 0)
    && forall i, p :: 0 <= i < |l.events| && p in l.events[i].paths ==> NamesRightly(l.events, l.events[i], p)
  }

  ghost predicate NamesRightly(E: seq<Event>, e: Event, p: string) {
    || e.kind == FileEdited || e.kind == Compensation
    || (e.kind == Commit && p in EditedPaths(E))
  }

  lemma EditedStays(E: seq<Event>, E': seq<Event>, p: string)
    requires E <= E' && p in EditedPaths(E)
    ensures p in EditedPaths(E')
  {
    var i :| 0 <= i < |E| && E[i].kind == FileEdited && p in E[i].paths;
    assert E'[i] == E[i];
  }

  /** Events that name no paths, or edit or undo, keep the record. */
  lemma RecordGrows(l: Ledger, l': Ledger)
    requires OnRecord(l) && l.events <= l'.events && l'.requiresLanding == l.requiresLanding && l'.commits == l.commits
    requires l'.reconciliation == l.reconciliation
    requires forall i :: |l.events| <= i < |l'.events| && l'.events[i].paths != [] ==>
               l'.events[i].kind in {FileEdited, Compensation}
    ensures OnRecord(l')
  {
    hide EditedPaths;
    forall i, p | 0 <= i < |l'.events| && p in l'.events[i].paths
      ensures NamesRightly(l'.events, l'.events[i], p)
    {
      if i < |l.events| {
        assert l'.events[i] == l.events[i] && p in l.events[i].paths;
        assert NamesRightly(l.events, l.events[i], p);
        if l.events[i].kind == Commit { EditedStays(l.events, l'.events, p); }
      } else {
        assert l'.events[i].paths != [];
      }
    }
  }

  lemma TurnIsOnRecord(host: Host, g: Graph, s: State, s': State, t: string, cfg: Config, stopped: bool)
    requires Fits(g, s) && OnRecord(s.l) && t in g && Turned(host, g, s, s', t, cfg, stopped)
    ensures OnRecord(s'.l)
  {
    hide OnRecord, Retry, AlreadyCommitted, Called, Opened;
    if stopped || s.l.tasks[t].status == Completed {
    } else if !(g[t] <= CompletedSet(s.l.tasks)) {
      UnmetParts(host, s, s', t);
      RecordGrows(s.l, s'.l);
    } else if !AlreadyCommitted(s.l.journal, t) {
      var w0 :| Executed(host, s, s', t, cfg, w0);
      var e := Retry(host, w0, t, 0, cfg);
      if !e.result.success { RejectedParts(host, s, s', t, e.result, e.attempts); }
      RecordGrows(s.l, s'.l);
    }
  }

  lemma {:induction false} LoopIsOnRecord(host: Host, g: Graph, s: State, order: seq<string>, cfg: Config)
    requires ClockOk(host) && Fits(g, s) && Inv(g, s) && OnRecord(s.l) && Elems(order) <= g.Keys
    ensures OnRecord(Loop(host, g, s, order, cfg).0.l)
    decreases |order|
  {
    if order != [] {
      hide Inv, Turned, Visit, OnRecord;
      InvBasics(g, s);
      assert order[0] in Elems(order) && Elems(order[1..]) <= Elems(order);
      var turn := Visit(host, g, s, order[0], cfg);
      VisitEffect(host, g, s, order[0], cfg);
      TurnKeepsInv(host, g, s, turn.s, order[0], cfg, turn.Stop?);
      TurnIsOnRecord(host, g, s, turn.s, order[0], cfg, turn.Stop?);
      if turn.Next? { LoopIsOnRecord(host, g, turn.s, order[1..], cfg); }
    }
  }

  lemma DriveIsOnRecord(host: Host, g: Graph, s: State, cfg: Config)
    requires ClockOk(host) && Fits(g, s) && Inv(g, s) && OnRecord(s.l)
    ensures OnRecord(Drive(host, g, s, cfg).l)
  {
    hide Inv, Loop, Order, EditedPaths;
    OrderIsPermutation(g, DefaultRank);
    LoopIsOnRecord(host, g, s, TopoOrder(g), cfg);
    var l, l' := Loop(host, g, s, TopoOrder(g), cfg).0.l, Drive(host, g, s, cfg).l;
    hide NamesRightly;
    assert l'.events == l.events && l'.requiresLanding == l.requiresLanding && l'.commits == l.commits;
  }

  lemma LandIsOnRecord(l: Ledger, branch: string, message: string, sha: string, at: string)
    requires OnRecord(l)
    ensures OnRecord(Land(l, branch, message, sha, at))
  {
    hide EditedPaths, Sorted;
    var l' := Land(l, branch, message, sha, at);
    SortedIsAscending(EditedPaths(l.events));
    forall i, p | 0 <= i < |l'.events| && p in l'.events[i].paths
      ensures NamesRightly(l'.events, l'.events[i], p)
    {
      if i < |l.events| {
        assert l'.events[i] == l.events[i] && p in l.events[i].paths;
        assert NamesRightly(l.events, l.events[i], p);
        if l.events[i].kind == Commit { EditedStays(l.events, l'.events, p); }
      } else {
        EditedStays(l.events, l'.events, p);
      }
    }
  }

  lemma ApplyIsOnRecord(host: Host, g: Graph, s: State, op: Op)
    requires ClockOk(host) && Fits(g, s) && Inv(g, s) && OnRecord(s.l)
    ensures OnRecord(Apply(host, g, s, op).l)
  {
    hide Inv, Drive, Land, FindBlocker, WithoutBlocker, Reopen;
    match op
    case ResumeOp(cfg) =>
      var s1 := s.(l := s.l.(runState := Running));
      SameFactsKeep(g, s, s1);
      hide OnRecord;
      RecordGrows(s.l, s1.l);
      DriveIsOnRecord(host, g, s1, cfg);
    case ResolveOp(_, _, _, _, _) =>
      hide OnRecord;
      RecordGrows(s.l, Apply(host, g, s, op).l);
    case LandOp(changed, branch, message, sha) =>
      if changed { LandIsOnRecord(s.l, branch, message, sha, host.clock(s.w.ticks)); }
  }

  lemma {:induction false} HistoryIsOnRecord(host: Host, m: Manifest, w: World, cfg: Config, ops: seq<Op>)
    requires ClockOk(host)
    ensures OnRecord(History(host, m, w, cfg, ops).l)
  {
    var g := GraphOf(m.tasks);
    if ops == [] {
      hide Drive, Inv;
      FreshInv(m, w);
      DriveIsOnRecord(host, g, Fresh(m, w), cfg);
    } else {
      hide Apply, Run, Inv, Good, OnRecord;
      var n := |ops| - 1;
      HistoryIsOnRecord(host, m, w, cfg, ops[..n]);
      RunIsGood(host, m, w, cfg);
      InvThroughout(host, g, Run(host, m, w, cfg), ops[..n]);
      ApplyIsOnRecord(host, g, History(host, m, w, cfg, ops[..n]), ops[n]);
    }
  }

  // ---- Paths in the log ----------------------------------------------------------------------------

  /** The path was handed to some undo call. */
  ghost predicate HandedBack(undone: seq<seq<string>>, p: string) {
    exists k :: 0 <= k < |undone| && p in undone[k]
  }

  lemma {:induction false} UndoneInHas(E: seq<Event>, p: string)
    ensures HandedBack(UndoneIn(E), p) <==> exists i :: 0 <= i < |E| && E[i].kind == Compensation && p in E[i].paths
  {
    if E != [] {
      var n := |E| - 1;
      UndoneInHas(E[..n], p);
      var before, all := UndoneIn(E[..n]), UndoneIn(E);
      if i :| 0 <= i < |E| && E[i].kind == Compensation && p in E[i].paths {
        if i < n {
          assert E[..n][i] == E[i];
          var k :| 0 <= k < |before| && p in before[k];
          assert all[k] == before[k];
        } else {
          assert all[|before|] == E[n].paths;
        }
      }
      if k :| 0 <= k < |all| && p in all[k] {
        if k < |before| {
          assert before[k] == all[k];
          var i :| 0 <= i < n && E[..n][i].kind == Compensation && p in E[..n][i].paths;
          assert E[i] == E[..n][i];
        }
      }
    }
  }

  /** The paths in the log are those of successful calls and those handed to undo calls. */
  lemma LoggedPaths(s: State, p: string)
    requires OnRecord(s.l) && EditedIn(s.l.events) == KeptPaths(s.w.calls) && s.w.undone == UndoneIn(s.l.events)
    ensures (exists i :: 0 <= i < |s.l.events| && p in s.l.events[i].paths) <==>
              Kept(s.w.calls, p) || HandedBack(s.w.undone, p)
  {
    hide UndoneIn, EditedIn, KeptPaths, Kept, HandedBack;
    UndoneInHas(s.l.events, p);
    EditedPathsAre(s.l.events);
    KeptPathsAre(s.w.calls);
    assert p in EditedPaths(s.l.events) <==> Kept(s.w.calls, p);
  }

  // ---- Which rules fire ----------------------------------------------------------------------------

  /** Of a ledger of any history of a valid manifest, eight of the eleven rules never fire. */
  lemma RulesOverHistories(h: Hash, host: Host, m: Manifest, w: World, cfg: Config, ops: seq<Op>, rule: Rule)
    requires ClockOk(host) && IsDigest(h) && ValidIntake(m)
    ensures Fires(h, History(host, m, w, cfg, ops).l, rule) ==>
              rule in {EvidenceRequired, AcceptanceWeak, PathOutsideRoots}
  {
    hide History, Verified, Once, DepsFirst, NoneInProgress, OnRecord, Seal;
    var l := History(host, m, w, cfg, ops).l;
    HistoryIsGood(host, m, w, cfg, ops);
    HistoryIsOnRecord(host, m, w, cfg, ops);
    HistoryKeepsSource(host, m, w, cfg, ops);
    SealVerifies(h, l.events);
    hide Fires, ValidIntake, Good, Inv;
    match rule {
      case SourceVersionMissing => ValidSource(h, m, l);
      case ScopeMissing => ValidSource(h, m, l);
      case BlockedWithoutOwner => NoOwnerMissing(h, GraphOf(m.tasks), History(host, m, w, cfg, ops));
      case LeaseOverlap => NoLeaseOverlaps(h, GraphOf(m.tasks), History(host, m, w, cfg, ops));
      case EventScopeMismatch => NoScopeMismatch(h, GraphOf(m.tasks), History(host, m, w, cfg, ops));
      case ReconcileInconsistent => RecordFires(h, l);
      case NotCommitted => RecordFires(h, l);
      case ChainBroken => SealedFires(h, l);
      case _ =>
    }
  }

  lemma HistoryKeepsSource(host: Host, m: Manifest, w: World, cfg: Config, ops: seq<Op>)
    requires ClockOk(host)
    ensures var l := History(host, m, w, cfg, ops).l; l.source == m.source && l.scope == m.scope
  {
    hide Inv, Drive;
    var g := GraphOf(m.tasks);
    FreshInv(m, w);
    DriveEffect(host, g, Fresh(m, w), cfg);
    ApplyAllEffect(host, g, Run(host, m, w, cfg), ops);
  }

  lemma ValidSource(h: Hash, m: Manifest, l: Ledger)
    requires ValidIntake(m) && l.source == m.source && l.scope == m.scope
    ensures !Fires(h, l, SourceVersionMissing) && !Fires(h, l, ScopeMissing)
  {
    assert !IntakeFires(m, SourceMissing) && !IntakeFires(m, IntakeScopeMissing);
  }

  lemma NoOwnerMissing(h: Hash, g: Graph, s: State)
    requires Good(g, s)
    ensures !Fires(h, s.l, BlockedWithoutOwner)
  {
    hide Once, DepsFirst, AllScoped, LeasesReleased;
  }

  lemma NoLeaseOverlaps(h: Hash, g: Graph, s: State)
    requires Good(g, s)
    ensures !Fires(h, s.l, LeaseOverlap)
  {
    hide Once, DepsFirst, AllScoped, Owned, LeasesOverlap;
  }

  lemma NoScopeMismatch(h: Hash, g: Graph, s: State)
    requires Good(g, s)
    ensures !Fires(h, s.l, EventScopeMismatch)
  {
    hide Once, DepsFirst, LeasesReleased, Owned;
  }

  lemma RecordFires(h: Hash, l: Ledger)
    requires OnRecord(l)
    ensures !Fires(h, l, ReconcileInconsistent) && !Fires(h, l, NotCommitted)
  {
    hide EditedPaths;
  }

  lemma SealedFires(h: Hash, l: Ledger)
    requires Verified(h, Seal(h, l.events))
    ensures !Fires(h, l, ChainBroken)
  {
    hide Verified, Seal;
  }

  /** What the executor must have done: evidence for every completed task, and no path outside the roots. */
  ghost predicate Accountable(s: State, roots: seq<string>) {
    && (forall t :: t in s.l.tasks && s.l.tasks[t].status == Completed ==> Evidenced(s.w.calls, t))
    && (forall p :: Kept(s.w.calls, p) || HandedBack(s.w.undone, p) ==> InRoots(p, roots))
  }

  /**
   * The default gate passes a ledger of any history of a valid manifest if and only if every completed task's
   * successful call carried evidence, and every path that a successful call named or an undo call was given starts
   * with an allowed root.
   */
  lemma GateIffAccountable(h: Hash, host: Host, m: Manifest, w: World, cfg: Config, ops: seq<Op>)
    requires ClockOk(host) && IsDigest(h) && ValidIntake(m)
    ensures var s := History(host, m, w, cfg, ops);
      GatePasses(h, s.l, DEFAULT_GATE) <==> Accountable(s, m.scope.allowedRoots)
  {
    hide History, Fires, GatePasses, ValidIntake, Accountable, PassedMeans, OnRecord, Accounted;
    var s := History(host, m, w, cfg, ops);
    DefaultGatePasses(h, s.l);
    forall rule | Fires(h, s.l, rule) ensures rule in {EvidenceRequired, AcceptanceWeak, PathOutsideRoots} {
      RulesOverHistories(h, host, m, w, cfg, ops, rule);
    }
    HistoryPasses(host, m, w, cfg, ops);
    HistoryIsOnRecord(host, m, w, cfg, ops);
    HistoryAccounts(host, m, w, cfg, ops);
    UndoIsOnRecord(host, m, w, cfg, ops);
    HistoryKeepsSource(host, m, w, cfg, ops);
    ValidHasScope(m);
    AccountableMeans(h, s, m.scope.allowedRoots);
  }

  /**
   * So a receipt on any ledger of any history says "completed" if and only if the ledger is reconciled and the executor
   * accountable for it.
   */
  lemma HandoverIffAccountable(h: Hash, host: Host, m: Manifest, w: World, cfg: Config, ops: seq<Op>)
    requires ClockOk(host) && IsDigest(h) && ValidIntake(m)
    ensures var s := History(host, m, w, cfg, ops);
      HandsOver(h, s.l, DEFAULT_GATE) <==> s.l.reconciliation.allowed && Accountable(s, m.scope.allowedRoots)
  {
    hide History, GatePasses, ValidIntake, Accountable, Inv;
    GateIffAccountable(h, host, m, w, cfg, ops);
    HistoryIsGood(host, m, w, cfg, ops);
  }

  lemma AccountableMeans(h: Hash, s: State, roots: seq<string>)
    requires PassedMeans(s) && OnRecord(s.l) && Accounted(s) && Balanced(s) && ScopeOk(s.l.scope)
    requires s.l.scope.allowedRoots == roots
    ensures Accountable(s, roots) <==>
              !Fires(h, s.l, EvidenceRequired) && !Fires(h, s.l, AcceptanceWeak) && !Fires(h, s.l, PathOutsideRoots)
  {
    hide Accounted, Balanced, InRoots, Evidenced, Kept, HandedBack, OnRecord, ScopeOk;
    AccountsAgree(s);
    forall p ensures (exists i :: 0 <= i < |s.l.events| && p in s.l.events[i].paths) <==>
                       Kept(s.w.calls, p) || HandedBack(s.w.undone, p)
    {
      LoggedPaths(s, p);
    }
  }

  lemma AccountsAgree(s: State)
    requires Accounted(s) && Balanced(s)
    ensures EditedIn(s.l.events) == KeptPaths(s.w.calls) && s.w.undone == UndoneIn(s.l.events)
  {
  }
}
