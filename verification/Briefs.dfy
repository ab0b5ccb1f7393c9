/**
 * A short account of a run for executors that touch nothing and never ask for a retry: statuses, open blockers, commits
 * and counters. The loop can be followed on it step by step, which makes concrete histories easy to compute.
 */
module Briefs {
  import opened Prelude
  import opened HashChain
  import opened Topo
  import opened Ledgers
  import opened RunLoop
  import opened Steps
  import opened Invariants
  import opened Histories
  import opened Coverage

  datatype Brief = Brief(status: map<string, Status>, blockers: seq<Blocker>, committed: set<string>,
                         polls: nat, calls: nat, minted: nat)

  /** Bare results: no paths, no evidence, no reason, no retry. */
  ghost predicate Plain(host: Host) {
    forall t: string, n: nat {:trigger host.execute(t, n)} ::
      host.execute(t, n) == ExecResult(host.execute(t, n).success, [], None, None, false)
  }

  /** The brief tells the truth about the state. */
  ghost predicate Looks(g: Graph, s: State, b: Brief) {
    && Fits(g, s) && LeasesReleased(s.l) && b.status.Keys == g.Keys
    && (forall t :: t in g ==> s.l.tasks[t].status == b.status[t])
    && s.l.blockers == b.blockers
    && (forall t :: AlreadyCommitted(s.l.journal, t) <==> t in b.committed)
    && s.w.polls == b.polls && |s.w.calls| == b.calls && s.w.minted == b.minted
  }

  function CompletedOf(status: map<string, Status>): set<string> {
    set t | t in status && status[t] == Completed
  }

  function BriefBlock(b: Brief, t: string, reason: string, id: string): Brief {
    b.(status := b.status[t := Blocked], blockers := b.blockers + [Blocker(id, t, reason, "operator")])
  }

  function BriefRun(host: Host, b: Brief, t: string): Brief {
    if t in b.committed then b
    else if host.execute(t, b.calls).success then
      b.(status := b.status[t := Completed], committed := b.committed + {t}, calls := b.calls + 1,
         minted := b.minted + 2)
    else
      BriefBlock(b, t, "execution failed", host.ids(b.minted + 2)).(calls := b.calls + 1, minted := b.minted + 3)
  }

  datatype BriefTurn = BriefTurn(brief: Brief, stop: bool)

  function BriefVisit(host: Host, g: Graph, b: Brief, t: string): BriefTurn
    requires t in b.status && t in g
  {
    if b.status[t] == Completed then BriefTurn(b, false)
    else
      var b1 := b.(polls := b.polls + 1);
      if host.control(b.polls) != Go then BriefTurn(b1, true)
      else if g[t] <= CompletedOf(b.status) then BriefTurn(BriefRun(host, b1, t), false)
      else BriefTurn(BriefBlock(b1, t, UNMET, host.ids(b.minted)).(minted := b.minted + 1), false)
  }

  const CFG := Config(0, 0.0)

  lemma PlainRetry(host: Host, w: World, t: string)
    requires Plain(host)
    ensures var e := Retry(host, w, t, 0, CFG);
      && e.result == host.execute(t, |w.calls|) && e.attempts == 1
      && e.w == w.(calls := w.calls + [Call(t, e.result)])
  {
  }

  /** The ledger after one bare execution, as far as a brief sees it. */
  lemma PlainExecution(l: Ledger, t: string, r: ExecResult, clock: nat -> string, tick: nat, leaseId: string,
                       txnId: string, lastId: string)
    requires t in l.tasks && r == ExecResult(r.success, [], None, None, false)
    requires LeasesReleased(l) && forall k: nat :: clock(k) != ""
    ensures var l' := Execution(l, t, 1, r, clock, tick, leaseId, txnId, lastId);
      && LeasesReleased(l')
      && l'.tasks == l.tasks[t := l'.tasks[t]] && l'.tasks[t].status == (if r.success then Completed else Blocked)
      && l'.blockers == (if r.success then l.blockers
                         else l.blockers + [Blocker(lastId, t, "execution failed", "operator")])
      && |l'.journal| == |l.journal| + 1 && l.journal <= l'.journal
      && l'.journal[|l.journal|].key == TxnKey(t)
      && l'.journal[|l.journal|].status == (if r.success then Committed else Open)
  {
    var l1 := Begin(l, t, leaseId, txnId, clock(tick), clock(tick + 1));
    if r.success {
      var tr := ExecutionAccepts(l, t, 1, r, clock, tick, leaseId, txnId, lastId);
    } else {
      var tr := ExecutionRejects(l, t, 1, r, clock, tick, leaseId, txnId, lastId);
    }
  }

  lemma CommitsGrow(J: seq<Txn>, J': seq<Txn>, t: string, committed: bool)
    requires |J'| == |J| + 1 && J <= J' && J'[|J|].key == TxnKey(t)
    requires J'[|J|].status == (if committed then Committed else Open)
    ensures forall u :: AlreadyCommitted(J', u) <==> AlreadyCommitted(J, u) || (committed && u == t)
  {
    forall u ensures AlreadyCommitted(J', u) <==> AlreadyCommitted(J, u) || (committed && u == t) {
      assert forall i :: 0 <= i < |J| ==> J'[i] == J[i];
      if AlreadyCommitted(J', u) && !AlreadyCommitted(J, u) {
        TxnKeyInjective(u, t);
      }
      if committed && u == t { assert J'[|J|].key == TxnKey(u); }
    }
  }

  /** Whatever moves a state and its brief in step keeps the brief true. */
  lemma StillLooks(g: Graph, s: State, b: Brief, s': State, b': Brief, t: string, committed: bool)
    requires Looks(g, s, b) && t in g && t in s'.l.tasks
    requires s'.l.tasks == s.l.tasks[t := s'.l.tasks[t]] && b'.status == b.status[t := s'.l.tasks[t].status]
    requires LeasesReleased(s'.l) && s'.l.blockers == b'.blockers
    requires s'.w.polls == b'.polls && |s'.w.calls| == b'.calls && s'.w.minted == b'.minted
    requires b'.committed == b.committed + if committed then {t} else {}
    requires forall u :: AlreadyCommitted(s'.l.journal, u) <==>
               AlreadyCommitted(s.l.journal, u) || (committed && u == t)
    ensures Looks(g, s', b')
  {
    hide AlreadyCommitted;
  }

  lemma RunLooks(host: Host, g: Graph, s: State, b: Brief, t: string)
    requires Plain(host) && ClockOk(host) && Looks(g, s, b) && t in g
    ensures Looks(g, RunTask(host, s, t, CFG), BriefRun(host, b, t))
  {
    hide Execution, Retry, AlreadyCommitted;
    if !AlreadyCommitted(s.l.journal, t) {
      var tick, id := s.w.ticks, s.w.minted;
      ReleasedMeansAcquirable(s.l, t, host.clock(tick));
      var w0 := s.w.(ticks := tick + 2, minted := id + 2);
      PlainRetry(host, w0, t);
      var r := host.execute(t, |s.w.calls|);
      PlainExecution(s.l, t, r, host.clock, tick, host.ids(id), host.ids(id + 1), host.ids(id + 2));
      var s' := RunTask(host, s, t, CFG);
      hide CanAcquire, LeasesReleased, Plain;
      CommitsGrow(s.l.journal, s'.l.journal, t, r.success);
      StillLooks(g, s, b, s', BriefRun(host, b, t), t, r.success);
    }
  }

  lemma BlockLooks(host: Host, g: Graph, s: State, b: Brief, t: string)
    requires Looks(g, s, b) && t in g
    ensures Looks(g, BlockUnmet(host, s, t), BriefBlock(b, t, UNMET, host.ids(b.minted)).(minted := b.minted + 1))
  {
    hide AlreadyCommitted;
  }

  lemma LooksBasics(g: Graph, s: State, b: Brief, t: string)
    requires Looks(g, s, b) && t in g
    ensures Fits(g, s) && b.status.Keys == g.Keys && s.l.tasks[t].status == b.status[t] && s.w.polls == b.polls
    ensures CompletedSet(s.l.tasks) == CompletedOf(b.status)
    ensures Looks(g, s.(w := s.w.(polls := s.w.polls + 1)), b.(polls := b.polls + 1))
  {
    hide AlreadyCommitted;
  }

  lemma VisitLooks(host: Host, g: Graph, s: State, b: Brief, t: string)
    requires Plain(host) && ClockOk(host) && Looks(g, s, b) && t in g
    ensures Fits(g, s) && b.status.Keys == g.Keys
    ensures var turn, brief := Visit(host, g, s, t, CFG), BriefVisit(host, g, b, t);
      Looks(g, turn.s, brief.brief) && (turn.Stop? <==> brief.stop)
  {
    hide RunTask, BriefRun, AlreadyCommitted, Looks, BlockUnmet, BriefBlock, CompletedSet, CompletedOf, Plain;
    LooksBasics(g, s, b, t);
    var s1, b1 := s.(w := s.w.(polls := s.w.polls + 1)), b.(polls := b.polls + 1);
    RunLooks(host, g, s1, b1, t);
    BlockLooks(host, g, s1, b1, t);
  }

  function BriefLoop(host: Host, g: Graph, b: Brief, order: seq<string>): (r: Brief)
    requires b.status.Keys == g.Keys && Elems(order) <= g.Keys
    ensures r.status.Keys == g.Keys
    decreases |order|
  {
    if order == [] then b
    else
      assert order[0] in Elems(order) && Elems(order[1..]) <= Elems(order);
      var turn := BriefVisit(host, g, b, order[0]);
      if turn.stop then turn.brief else BriefLoop(host, g, turn.brief, order[1..])
  }

  lemma {:induction false} LoopLooks(host: Host, g: Graph, s: State, b: Brief, order: seq<string>)
    requires Plain(host) && ClockOk(host) && Looks(g, s, b) && Elems(order) <= g.Keys
    ensures Looks(g, Loop(host, g, s, order, CFG).0, BriefLoop(host, g, b, order))
    decreases |order|
  {
    if order != [] {
      hide Visit, BriefVisit, Looks;
      LooksFit(g, s, b);
      assert order[0] in Elems(order) && Elems(order[1..]) <= Elems(order);
      VisitLooks(host, g, s, b, order[0]);
      var turn := Visit(host, g, s, order[0], CFG);
      LooksFit(g, turn.s, BriefVisit(host, g, b, order[0]).brief);
      if turn.Next? { LoopLooks(host, g, turn.s, BriefVisit(host, g, b, order[0]).brief, order[1..]); }
    }
  }

  lemma LooksFit(g: Graph, s: State, b: Brief)
    requires Looks(g, s, b)
    ensures Fits(g, s) && b.status.Keys == g.Keys
  {
  }

  /** Nothing pending and no blocker open. */
  predicate Clear(b: Brief) {
    b.blockers == [] && forall t :: t in b.status ==> b.status[t] in {Completed, Blocked}
  }

  /** A drive, followed on the brief: the state it leads to and whether it reconciles. */
  lemma DriveLooks(host: Host, g: Graph, s: State, b: Brief)
    requires Plain(host) && ClockOk(host) && Looks(g, s, b)
    ensures Elems(TopoOrder(g)) <= g.Keys
    ensures var s', b' := Drive(host, g, s, CFG), BriefLoop(host, g, b, TopoOrder(g));
      Looks(g, s', b') && (s'.l.reconciliation.allowed <==> Clear(b'))
  {
    hide Loop, Order, Looks, BriefLoop;
    LooksFit(g, s, b);
    OrderIsPermutation(g, DefaultRank);
    LoopLooks(host, g, s, b, TopoOrder(g));
    var r := Loop(host, g, s, TopoOrder(g), CFG);
    ReconcileLooks(g, r.0, r.1, BriefLoop(host, g, b, TopoOrder(g)));
  }

  lemma ReconcileLooks(g: Graph, s: State, runState: RunState, b: Brief)
    requires Looks(g, s, b)
    ensures var s' := State(Reconcile(s.l.(runState := runState)), s.w);
      Looks(g, s', b) && (s'.l.reconciliation.allowed <==> Clear(b))
  {
    hide AlreadyCommitted;
    var l := s.l.(runState := runState);
    if |PendingSet(l.tasks)| == 0 {
      assert PendingSet(l.tasks) == {};
      forall t | t in b.status ensures b.status[t] in {Completed, Blocked} {
        assert t !in PendingSet(l.tasks) && l.tasks[t].status == b.status[t];
      }
    }
    if Clear(b) {
      forall t ensures t !in PendingSet(l.tasks) {}
      assert PendingSet(l.tasks) == {};
    }
  }

  lemma ResumeLooks(host: Host, g: Graph, s: State, b: Brief)
    requires Plain(host) && ClockOk(host) && Looks(g, s, b)
    ensures Elems(TopoOrder(g)) <= g.Keys
    ensures var s', b' := Resume(host, g, s, CFG), BriefLoop(host, g, b, TopoOrder(g));
      Looks(g, s', b') && (s'.l.reconciliation.allowed <==> Clear(b'))
  {
    hide Drive, BriefLoop, Order, AlreadyCommitted;
    DriveLooks(host, g, s.(l := s.l.(runState := Running)), b);
  }

  function BriefOverride(b: Brief, id: string): Brief {
    var i := FindBlocker(b.blockers, id);
    if i == |b.blockers| then b
    else
      var t := b.blockers[i].taskId;
      b.(blockers := WithoutBlocker(b.blockers, id),
         status := if t in b.status then b.status[t := Pending] else b.status)
  }

  lemma OverrideLooks(host: Host, g: Graph, s: State, b: Brief, id: string, actor: string, at: string)
    requires Looks(g, s, b)
    ensures var s' := Apply(host, g, s, ResolveOp(true, id, OVERRIDE, actor, at));
      Looks(g, s', BriefOverride(b, id)) && s'.l.reconciliation == s.l.reconciliation
  {
    hide AlreadyCommitted, WithoutBlocker;
  }
}
