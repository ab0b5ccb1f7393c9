/** What was undone is on record: undo calls, compensation events and compensated transactions agree. */
module Compensations {
  import opened Prelude
  import opened HashChain
  import opened Topo
  import opened Ledgers
  import opened RunLoop

  /** The path lists of the compensation events, in log order. */
  function UndoneIn(events: seq<Event>): seq<seq<string>> {
    if events == [] then []
    else
      var n := |events| - 1;
      UndoneIn(events[..n]) + if events[n].kind == Compensation then [events[n].paths] else []
  }

  function CompensatedIn(journal: seq<Txn>): nat {
    if journal == [] then 0
    else
      var n := |journal| - 1;
      CompensatedIn(journal[..n]) + if journal[n].status == Compensated then 1 else 0
  }

  /** The three accounts of undone work are the same. */
  ghost predicate Balanced(s: State) {
    s.w.undone == UndoneIn(s.l.events) && |s.w.undone| == CompensatedIn(s.l.journal)
  }

  lemma UndoneOneMore(events: seq<Event>, e: Event)
    ensures UndoneIn(events + [e]) == UndoneIn(events) + if e.kind == Compensation then [e.paths] else []
  {
    assert (events + [e])[..|events|] == events;
  }

  lemma CompensatedOneMore(journal: seq<Txn>, txn: Txn)
    ensures CompensatedIn(journal + [txn]) == CompensatedIn(journal) + if txn.status == Compensated then 1 else 0
  {
    assert (journal + [txn])[..|journal|] == journal;
  }

  lemma {:induction false} NothingUndone(before: seq<Event>, more: seq<Event>)
    requires forall i :: 0 <= i < |more| ==> more[i].kind != Compensation
    ensures UndoneIn(before + more) == UndoneIn(before)
    decreases |more|
  {
    if more == [] {
      assert before + more == before;
    } else {
      var n := |more| - 1;
      NothingUndone(before, more[..n]);
      assert (before + more)[..|before| + n] == before + more[..n];
    }
  }

  lemma EditsUndoNothing(l: Ledger, before: seq<Event>, t: string, paths: seq<string>, clock: nat -> string, tick: nat)
    ensures UndoneIn(before + Edits(l, t, paths, clock, tick)) == UndoneIn(before)
  {
    NothingUndone(before, Edits(l, t, paths, clock, tick));
  }

  lemma BlockUndoesNothing(l: Ledger, t: string, reason: string, from: Status, blockerId: string, at: string)
    requires t in l.tasks
    ensures var l' := Block(l, t, reason, from, blockerId, at);
      UndoneIn(l'.events) == UndoneIn(l.events) && l'.journal == l.journal
  {
    UndoneOneMore(l.events, LedgerEvent(l, TaskBlocked, Some(t), at, []));
  }

  lemma BeginUndoesNothing(l: Ledger, t: string, leaseId: string, txnId: string, acquiredAt: string, startedAt: string)
    returns (txn: Txn)
    requires t in l.tasks
    ensures var l1 := Begin(l, t, leaseId, txnId, acquiredAt, startedAt);
      UndoneIn(l1.events) == UndoneIn(l.events) && l1.journal == l.journal + [txn]
  {
    txn := Txn(txnId, t, TxnKey(t), Open, None);
    UndoneOneMore(l.events, LedgerEvent(l, TaskStarted, Some(t), startedAt, []));
  }

  lemma CloseLastTxn(journal: seq<Txn>, txn: Txn, attempts: nat, status: TxnStatus)
    ensures CompensatedIn(CloseTxn(journal + [txn], attempts, status)) ==
            CompensatedIn(journal) + if status == Compensated then 1 else 0
  {
    var closed := txn.(status := status, attempts := Some(attempts));
    assert CloseTxn(journal + [txn], attempts, status) == journal + [closed];
    CompensatedOneMore(journal, closed);
  }

  lemma AcceptUndoesNothing(l: Ledger, t: string, n: nat, r: ExecResult, clock: nat -> string, tick: nat,
                            evidenceId: string, journal: seq<Txn>, txn: Txn)
    requires t in l.tasks && l.journal == journal + [txn]
    ensures var l' := Accept(l, t, n, r, clock, tick, evidenceId);
      UndoneIn(l'.events) == UndoneIn(l.events) && CompensatedIn(l'.journal) == CompensatedIn(journal)
  {
    hide Edits, CloseTxn;
    EditsUndoNothing(l, l.events, t, r.paths, clock, tick);
    UndoneOneMore(l.events + Edits(l, t, r.paths, clock, tick),
                  LedgerEvent(l, TaskCompleted, Some(t), clock(tick + |r.paths|), []));
    CloseLastTxn(journal, txn, n, Committed);
  }

  lemma RejectUndoes(l: Ledger, t: string, n: nat, r: ExecResult, clock: nat -> string, tick: nat, blockerId: string,
                     journal: seq<Txn>, txn: Txn)
    requires t in l.tasks && l.journal == journal + [txn]
    ensures var l' := Reject(l, t, n, r, clock, tick, blockerId);
      && UndoneIn(l'.events) == UndoneIn(l.events) + (if r.paths == [] then [] else [r.paths])
      && CompensatedIn(l'.journal) == CompensatedIn(journal) + if r.paths == [] then 0 else 1
  {
    hide CloseTxn, Block, ReasonText;
    if r.paths == [] {
      var l1 := l.(journal := CloseTxn(l.journal, n, Open));
      CloseLastTxn(journal, txn, n, Open);
      BlockUndoesNothing(l1, t, ReasonText(r), InProgress, blockerId, clock(tick));
    } else {
      var e := LedgerEvent(l, Compensation, Some(t), clock(tick), r.paths);
      var l1 := l.(journal := CloseTxn(l.journal, n, Compensated), events := l.events + [e]);
      UndoneOneMore(l.events, e);
      CloseLastTxn(journal, txn, n, Compensated);
      BlockUndoesNothing(l1, t, ReasonText(r), InProgress, blockerId, clock(tick + 1));
    }
  }

  lemma ExecutionUndoes(l: Ledger, t: string, n: nat, r: ExecResult, clock: nat -> string, tick: nat, leaseId: string,
                        txnId: string, lastId: string)
    requires t in l.tasks
    ensures var l' := Execution(l, t, n, r, clock, tick, leaseId, txnId, lastId);
      var undo := !r.success && r.paths != [];
      && UndoneIn(l'.events) == UndoneIn(l.events) + (if undo then [r.paths] else [])
      && CompensatedIn(l'.journal) == CompensatedIn(l.journal) + if undo then 1 else 0
  {
    hide Begin, Accept, Reject, Ticks;
    var l1 := Begin(l, t, leaseId, txnId, clock(tick), clock(tick + 1));
    var txn := BeginUndoesNothing(l, t, leaseId, txnId, clock(tick), clock(tick + 1));
    if r.success {
      AcceptUndoesNothing(l1, t, n, r, clock, tick + 2, lastId, l.journal, txn);
    } else {
      RejectUndoes(l1, t, n, r, clock, tick + 2, lastId, l.journal, txn);
    }
  }

  lemma RunTaskBalances(host: Host, s: State, t: string, cfg: Config)
    requires t in s.l.tasks && Balanced(s)
    ensures Balanced(RunTask(host, s, t, cfg))
  {
    hide Execution, Block, Retry, AlreadyCommitted, CanAcquire, Ticks, UndoneIn, CompensatedIn;
    var tick, id := s.w.ticks, s.w.minted;
    if !AlreadyCommitted(s.l.journal, t) {
      if !CanAcquire(s.l.leases, t, host.clock(tick)) {
        BlockUndoesNothing(s.l, t, "lease conflict", InProgress, host.ids(id), host.clock(tick));
      } else {
        var e := Retry(host, s.w.(ticks := tick + 2, minted := id + 2), t, 0, cfg);
        RetryUses(host, s.w.(ticks := tick + 2, minted := id + 2), t, 0, cfg);
        ExecutionUndoes(s.l, t, e.attempts, e.result, host.clock, tick, host.ids(id), host.ids(id + 1),
                        host.ids(id + 2));
      }
    }
  }

  lemma VisitBalances(host: Host, g: Graph, s: State, t: string, cfg: Config)
    requires t in s.l.tasks && t in g && Balanced(s)
    ensures Balanced(Visit(host, g, s, t, cfg).s)
  {
    hide RunTask, Block, UndoneIn, CompensatedIn;
    var s1 := s.(w := s.w.(polls := s.w.polls + 1));
    RunTaskBalances(host, s1, t, cfg);
    BlockUndoesNothing(s.l, t, UNMET, Pending, host.ids(s.w.minted), host.clock(s.w.ticks));
  }

  lemma {:induction false} LoopBalances(host: Host, g: Graph, s: State, order: seq<string>, cfg: Config)
    requires Fits(g, s) && Elems(order) <= g.Keys && Balanced(s)
    ensures Balanced(Loop(host, g, s, order, cfg).0)
    decreases |order|
  {
    if order != [] {
      hide Visit, Balanced;
      assert order[0] in Elems(order) && Elems(order[1..]) <= Elems(order);
      VisitBalances(host, g, s, order[0], cfg);
      var turn := Visit(host, g, s, order[0], cfg);
      if turn.Next? { LoopBalances(host, g, turn.s, order[1..], cfg); }
    }
  }

  lemma DriveBalances(host: Host, g: Graph, s: State, cfg: Config)
    requires Fits(g, s) && Balanced(s)
    ensures Balanced(Drive(host, g, s, cfg))
  {
    hide Loop, Order, UndoneIn, CompensatedIn;
    OrderIsPermutation(g, DefaultRank);
    LoopBalances(host, g, s, TopoOrder(g), cfg);
  }

  lemma ApplyBalances(host: Host, g: Graph, s: State, op: Op)
    requires Fits(g, s) && Balanced(s)
    ensures Balanced(Apply(host, g, s, op))
  {
    hide Drive, CompensatedIn, Sorted, EditedPaths;
    match op
    case ResumeOp(cfg) => DriveBalances(host, g, s.(l := s.l.(runState := Running)), cfg);
    case ResolveOp(_, _, _, _, _) =>
      var s' := Apply(host, g, s, op);
      if op.authorized { UndoneOneMore(s.l.events, s'.l.events[|s.l.events|]); }
    case LandOp(changed, _, _, _) =>
      var s' := Apply(host, g, s, op);
      if changed { UndoneOneMore(s.l.events, s'.l.events[|s.l.events|]); }
  }

  /**
   * Over every history: the undo calls made to the executor are, one for one and in order, the compensation events
   * of the log, and as many as the compensated transactions. Nothing is undone off the record.
   */
  lemma {:induction false} UndoIsOnRecord(host: Host, m: Manifest, w: World, cfg: Config, ops: seq<Op>)
    ensures Balanced(History(host, m, w, cfg, ops))
  {
    hide Apply, Drive, Balanced;
    if ops == [] {
      FreshBalanced(m, w);
      DriveBalances(host, GraphOf(m.tasks), Fresh(m, w), cfg);
    } else {
      var n := |ops| - 1;
      UndoIsOnRecord(host, m, w, cfg, ops[..n]);
      ApplyBalances(host, GraphOf(m.tasks), History(host, m, w, cfg, ops[..n]), ops[n]);
    }
  }

  lemma FreshBalanced(m: Manifest, w: World)
    ensures Balanced(Fresh(m, w))
  {
  }
}
