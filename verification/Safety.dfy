/** The safety results over whole histories, stated on the ledger and the executor transcript they end with. */
module Safety {
  import opened Prelude
  import opened HashChain
  import opened Topo
  import opened Ledgers
  import opened RunLoop
  import opened Steps
  import opened Invariants
  import opened Histories
  import opened Coverage

  /**
   * A task is only ever started behind completion events for all the dependencies its node names, whatever overrides
   * did in between.
   */
  lemma StartedAfterDependencies(host: Host, m: Manifest, w: World, cfg: Config, ops: seq<Op>, i: nat)
    returns (k: nat)
    requires ClockOk(host)
    requires var E := History(host, m, w, cfg, ops).l.events; i < |E| && E[i].kind == TaskStarted
    ensures var E := History(host, m, w, cfg, ops).l.events;
      && Counts(m.tasks, k) && E[i].subject == Some(m.tasks[k].taskId)
      && forall d :: d in m.tasks[k].dependsOn ==>
           exists j :: 0 <= j < i && E[j].kind == TaskCompleted && E[j].subject == Some(d)
  {
    hide History, Once, LeasesReleased, AllScoped, Owned, NoneInProgress, GraphOf;
    HistoryIsGood(host, m, w, cfg, ops);
    GraphIsOfNodes(m.tasks);
    var E := History(host, m, w, cfg, ops).l.events;
    k := NodeOf(m.tasks, E[i].subject.value);
    forall d | d in m.tasks[k].dependsOn
      ensures exists j :: 0 <= j < i && E[j].kind == TaskCompleted && E[j].subject == Some(d)
    {
      var j :| 0 <= j < i && Completes(E[j], d);
    }
  }

  /** Success happens at most once: on the executor's side, in the journal and in the log, and these three agree. */
  lemma SuccessAtMostOnce(host: Host, m: Manifest, w: World, cfg: Config, ops: seq<Op>)
    requires ClockOk(host)
    ensures var s := History(host, m, w, cfg, ops);
      && NoCallAfterSuccess(s.w.calls) && OneCommit(s.l.journal) && OneCompletion(s.l.events)
      && forall t :: (CommittedIn(s.l.journal, t) <==> SucceededIn(s.w.calls, t))
                  && (CommittedIn(s.l.journal, t) <==> CompletedIn(s.l.events, t))
  {
    hide History, DepsFirst, LeasesReleased, AllScoped, Owned, NoneInProgress;
    HistoryIsGood(host, m, w, cfg, ops);
  }

  /** With nothing open, being done and having every blocked task covered are the same. */
  lemma AllowedExact(l: Ledger)
    requires NothingOpen(l) && l.reconciliation.allowed
    ensures AllCompleted(l) <==> Covered(l)
  {
    NonePending(l);
  }

  /**
   * In every reachable ledger `allowed` means that no task is pending and no blocker open, and it is right about all
   * tasks being completed exactly when the blocked ones are covered; so it is when every override spared the others.
   */
  lemma AllowedMeansDone(host: Host, m: Manifest, w: World, cfg: Config, ops: seq<Op>)
    requires ClockOk(host) && History(host, m, w, cfg, ops).l.reconciliation.allowed
    ensures var l := History(host, m, w, cfg, ops).l;
      && PendingSet(l.tasks) == {} && l.blockers == []
      && (AllCompleted(l) <==> Covered(l))
      && (SparedHistory(host, m, w, cfg, ops) ==> AllCompleted(l))
  {
    hide Run, Inv, AllCompleted, Covered, Spares, Spared, Evolves;
    var l := History(host, m, w, cfg, ops).l;
    HistoryIsGood(host, m, w, cfg, ops);
    AllowedExact(l);
    if SparedHistory(host, m, w, cfg, ops) {
      HistoryCoveredIff(host, m, w, cfg, ops);
      assert ops[..|ops|] == ops;
    }
  }

  // ---- Once allowed, always allowed ----------------------------------------------------------------

  lemma {:induction false} LoopSkipsCompleted(host: Host, g: Graph, s: State, order: seq<string>, cfg: Config)
    requires Fits(g, s) && Elems(order) <= g.Keys && AllCompleted(s.l)
    ensures Loop(host, g, s, order, cfg) == (s, Finished)
    decreases |order|
  {
    if order != [] {
      assert order[0] in Elems(order) && Elems(order[1..]) <= Elems(order);
      LoopSkipsCompleted(host, g, s, order[1..], cfg);
    }
  }

  /** Reconciled, and rightly so. */
  ghost predicate RightlyAllowed(l: Ledger) {
    l.reconciliation.allowed && AllCompleted(l) && l.blockers == []
  }

  lemma ApplyKeepsAllowed(host: Host, g: Graph, s: State, op: Op)
    requires Fits(g, s) && RightlyAllowed(s.l)
    ensures RightlyAllowed(Apply(host, g, s, op).l)
  {
    if op.ResumeOp? {
      OrderIsPermutation(g, DefaultRank);
      var s1 := s.(l := s.l.(runState := Running));
      LoopSkipsCompleted(host, g, s1, TopoOrder(g), op.cfg);
      AllDoneIsAllowed(s1.l.(runState := Finished));
    }
  }

  lemma {:induction false} DoneStaysDone(host: Host, g: Graph, s: State, more: seq<Op>)
    requires Fits(g, s) && RightlyAllowed(s.l)
    ensures RightlyAllowed(ApplyAll(host, g, s, more).l)
  {
    hide RightlyAllowed, Apply;
    if more != [] {
      var n := |more| - 1;
      DoneStaysDone(host, g, s, more[..n]);
      ApplyKeepsAllowed(host, g, ApplyAll(host, g, s, more[..n]), more[n]);
    }
  }

  /** A reconciled ledger whose overrides spared the others stays reconciled, whatever is done to it afterwards. */
  lemma AllowedIsStable(host: Host, m: Manifest, w: World, cfg: Config, ops: seq<Op>, more: seq<Op>)
    requires ClockOk(host) && SparedHistory(host, m, w, cfg, ops)
    requires History(host, m, w, cfg, ops).l.reconciliation.allowed
    ensures History(host, m, w, cfg, ops + more).l.reconciliation.allowed
  {
    hide Run, Apply, SparedHistory, AllCompleted;
    AllowedMeansDone(host, m, w, cfg, ops);
    DoneStaysDone(host, GraphOf(m.tasks), History(host, m, w, cfg, ops), more);
    ApplyAllConcat(host, GraphOf(m.tasks), Run(host, m, w, cfg), ops, more);
  }

  // ---- Blockers ------------------------------------------------------------------------------------

  lemma ResumeKeepsBlockers(host: Host, g: Graph, s: State, cfg: Config, b: Blocker)
    requires ClockOk(host) && Fits(g, s) && Inv(g, s) && b in s.l.blockers
    ensures b in Resume(host, g, s, cfg).l.blockers
  {
    hide Inv, Evolves;
    var s1 := s.(l := s.l.(runState := Running));
    SameFactsKeep(g, s, s1);
    DriveEffect(host, g, s1, cfg);
    var i :| 0 <= i < |s.l.blockers| && s.l.blockers[i] == b;
    assert Resume(host, g, s, cfg).l.blockers[i] == b;
  }

  /** The one way out of `blockers`, with the entries it leaves in `resolutions` and in the log. */
  lemma BlockerLeavesByOverride(host: Host, g: Graph, s: State, op: Op, b: Blocker)
    requires ClockOk(host) && Fits(g, s) && Good(g, s)
    requires b in s.l.blockers && b !in Apply(host, g, s, op).l.blockers
    ensures Overrides(op, b.blockerId)
    ensures var l' := Apply(host, g, s, op).l;
      && l'.resolutions == s.l.resolutions + [ResolutionRow(b.blockerId, OVERRIDE, op.actor, op.at)]
      && |l'.events| == |s.l.events| + 1 && s.l.events <= l'.events
      && l'.events[|s.l.events|].kind == Resolution && l'.events[|s.l.events|].at == op.at
      && l'.events[|s.l.events|].subject == Some(s.l.blockers[FindBlocker(s.l.blockers, op.id)].taskId)
  {
    hide Once, DepsFirst, LeasesReleased, AllScoped, Owned, NoneInProgress;
    if op.ResumeOp? {
      ResumeKeepsBlockers(host, g, s, op.cfg, b);
    } else if op.ResolveOp? {
      var i :| 0 <= i < |s.l.blockers| && s.l.blockers[i] == b;
      assert b in WithoutBlocker(s.l.blockers, op.id) || b.blockerId == op.id;
      assert FindBlocker(s.l.blockers, op.id) <= i;
    }
  }

  /** Over a history: an opened blocker is still open, or some later operation was an authorized override of it. */
  lemma {:induction false} BlockersLeaveOnlyByOverride(host: Host, g: Graph, s: State, ops: seq<Op>, b: Blocker)
    returns (i: nat)
    requires ClockOk(host) && Fits(g, s) && Good(g, s)
    requires b in s.l.blockers && b !in ApplyAll(host, g, s, ops).l.blockers
    ensures i < |ops| && Overrides(ops[i], b.blockerId)
    ensures OverriddenSince(s, ApplyAll(host, g, s, ops), b.blockerId)
  {
    hide Good, Apply;
    var n := |ops| - 1;
    var s1 := ApplyAll(host, g, s, ops[..n]);
    ApplyAllEffect(host, g, s, ops[..n]);
    ApplyAllEffect(host, g, s, ops);
    if b in s1.l.blockers {
      BlockerLeavesByOverride(host, g, s1, ops[n], b);
      i := n;
    } else {
      i := BlockersLeaveOnlyByOverride(host, g, s, ops[..n], b);
    }
  }

  // ---- Leases ------------------------------------------------------------------------------------------

  /** Between operations no lease is held, so the "lease conflict" branch is never taken. */
  lemma LeaseAlwaysFree(host: Host, m: Manifest, w: World, cfg: Config, ops: seq<Op>, t: string, now: string)
    requires ClockOk(host)
    ensures var l := History(host, m, w, cfg, ops).l; LeasesReleased(l) && CanAcquire(l.leases, t, now)
  {
    hide History, Once, DepsFirst, AllScoped, Owned, NoneInProgress;
    HistoryIsGood(host, m, w, cfg, ops);
    ReleasedMeansAcquirable(History(host, m, w, cfg, ops).l, t, now);
  }

  /** While a task runs, exactly its own lease is held; recording the outcome and releasing gives it back. */
  lemma OneLeaseWhileRunning(l: Ledger, t: string, n: nat, r: ExecResult, clock: nat -> string, tick: nat,
                             leaseId: string, txnId: string, lastId: string)
    requires t in l.tasks && LeasesReleased(l) && forall k: nat :: clock(k) != ""
    ensures var l1 := Begin(l, t, leaseId, txnId, clock(tick), clock(tick + 1));
      var l2 := if r.success then Accept(l1, t, n, r, clock, tick + 2, lastId)
                else Reject(l1, t, n, r, clock, tick + 2, lastId);
      && (forall i :: 0 <= i < |l1.leases| ==> (!Released(l1.leases[i]) <==> i == |l1.leases| - 1))
      && l1.leases[|l.leases|].taskId == t && l2.leases == l1.leases
      && LeasesReleased(Execution(l, t, n, r, clock, tick, leaseId, txnId, lastId))
  {
    var l1 := Begin(l, t, leaseId, txnId, clock(tick), clock(tick + 1));
    var l2 := if r.success then Accept(l1, t, n, r, clock, tick + 2, lastId)
              else Reject(l1, t, n, r, clock, tick + 2, lastId);
    ReleaseLast(l2, l.leases, l1.leases[|l.leases|], clock(tick + 2 + Ticks(r)));
  }

  // ---- A stale override cannot be undone -------------------------------------------------------------

  /** The task's one success is on record, but an override of a left-over blocker took its status away. */
  ghost predicate Stuck(s: State, t: string) {
    t in s.l.tasks && CommittedIn(s.l.journal, t) && s.l.tasks[t].status != Completed
  }

  lemma CommittedExtends(J: seq<Txn>, J': seq<Txn>, t: string)
    requires J <= J' && CommittedIn(J, t)
    ensures CommittedIn(J', t)
  {
    var i :| 0 <= i < |J| && J[i].taskId == t && J[i].status == Committed;
    assert J'[i] == J[i];
  }

  /** A turn leaves a task with a committed transaction out, and so does not complete it. */
  lemma TurnSparesCommitted(host: Host, g: Graph, s: State, s': State, u: string, cfg: Config, stopped: bool, t: string)
    requires u in s.l.tasks && u in g && Turned(host, g, s, s', u, cfg, stopped)
    requires t in s.l.tasks && AlreadyCommitted(s.l.journal, t) && s.l.tasks[t].status != Completed
    ensures t in s'.l.tasks && s'.l.tasks[t].status != Completed
  {
    hide Called, AlreadyCommitted, Retry;
    if stopped || s.l.tasks[u].status == Completed {
    } else if g[u] <= CompletedSet(s.l.tasks) && !AlreadyCommitted(s.l.journal, u) {
      var w0 :| Executed(host, s, s', u, cfg, w0);
      assert Frame(s, s', u);
    }
  }

  lemma TurnKeepsStuck(host: Host, g: Graph, s: State, s': State, u: string, cfg: Config, stopped: bool, t: string)
    requires Inv(g, s) && Stuck(s, t) && u in g && Turned(host, g, s, s', u, cfg, stopped)
    ensures Stuck(s', t)
  {
    hide Turned, CommittedIn, AlreadyCommitted, DepsFirst, AllScoped, LeasesReleased;
    TurnEvolves(host, g, s, s', u, cfg, stopped);
    CommittedExtends(s.l.journal, s'.l.journal, t);
    CommittedByKey(s.l.journal, t);
    TurnSparesCommitted(host, g, s, s', u, cfg, stopped, t);
  }

  lemma {:induction false} LoopKeepsStuck(host: Host, g: Graph, s: State, order: seq<string>, cfg: Config, t: string)
    requires ClockOk(host) && Fits(g, s) && Inv(g, s) && Stuck(s, t) && Elems(order) <= g.Keys
    ensures Stuck(Loop(host, g, s, order, cfg).0, t)
    decreases |order|
  {
    if order != [] {
      hide Inv, Turned, Visit, Stuck;
      InvBasics(g, s);
      assert order[0] in Elems(order) && Elems(order[1..]) <= Elems(order);
      var turn := Visit(host, g, s, order[0], cfg);
      VisitEffect(host, g, s, order[0], cfg);
      TurnKeepsInv(host, g, s, turn.s, order[0], cfg, turn.Stop?);
      TurnKeepsStuck(host, g, s, turn.s, order[0], cfg, turn.Stop?, t);
      if turn.Next? {
        LoopKeepsStuck(host, g, turn.s, order[1..], cfg, t);
      }
    }
  }

  lemma ApplyKeepsStuck(host: Host, g: Graph, s: State, op: Op, t: string)
    requires ClockOk(host) && Fits(g, s) && Inv(g, s) && Stuck(s, t)
    ensures Stuck(Apply(host, g, s, op), t)
  {
    hide Once, DepsFirst, AllScoped, Owned, NoneInProgress, LeasesReleased, CommittedIn, Loop;
    if op.ResumeOp? {
      var s1 := s.(l := s.l.(runState := Running));
      SameFactsKeep(g, s, s1);
      OrderIsPermutation(g, DefaultRank);
      LoopKeepsStuck(host, g, s1, TopoOrder(g), op.cfg, t);
    }
  }

  /**
   * A stuck task is final: no later operation completes it, because the committed transaction makes every retry a
   * no-op; and while overrides spare the others the ledger is never reconciled again.
   */
  lemma {:induction false} StaleOverrideIsFinal(host: Host, g: Graph, s: State, ops: seq<Op>, t: string)
    requires ClockOk(host) && Fits(g, s) && Good(g, s) && Stuck(s, t)
    ensures var s' := ApplyAll(host, g, s, ops);
      && Stuck(s', t) && !AllCompleted(s'.l)
      && (Covered(s.l) && Spared(host, g, s, ops) ==> !s'.l.reconciliation.allowed)
  {
    hide Inv, Apply, Covered, Spares;
    StuckStays(host, g, s, ops, t);
    ApplyAllEffect(host, g, s, ops);
    var s' := ApplyAll(host, g, s, ops);
    if Covered(s.l) && Spared(host, g, s, ops) && s'.l.reconciliation.allowed {
      SparedCovers(host, g, s, ops, |ops|);
      assert ops[..|ops|] == ops;
      AllowedExact(s'.l);
    }
  }

  lemma {:induction false} StuckStays(host: Host, g: Graph, s: State, ops: seq<Op>, t: string)
    requires ClockOk(host) && Fits(g, s) && Good(g, s) && Stuck(s, t)
    ensures Stuck(ApplyAll(host, g, s, ops), t)
  {
    hide Inv, Good, Apply, Stuck;
    if ops != [] {
      var n := |ops| - 1;
      StuckStays(host, g, s, ops[..n], t);
      InvThroughout(host, g, s, ops[..n]);
      ApplyKeepsStuck(host, g, ApplyAll(host, g, s, ops[..n]), ops[n], t);
    }
  }

  /** An override leaves a task stuck exactly when the first blocker with that id belongs to a committed task. */
  lemma OverrideStrandsIff(s: State, id: string, actor: string, at: string, t: string)
    requires t in s.l.tasks && !Stuck(s, t)
    ensures var s' := s.(l := Resolve(s.l, id, OVERRIDE, actor, at));
      var i := FindBlocker(s.l.blockers, id);
      Stuck(s', t) <==> i < |s.l.blockers| && s.l.blockers[i].taskId == t && CommittedIn(s.l.journal, t)
  {
  }
}
