/**
 * What each operation writes, as the net effect on the fields of the ledger, with the literal texts and with the clock
 * reading and the id each entry takes.
 */
module Transcripts {
  import opened Prelude
  import opened HashChain
  import opened Topo
  import opened Ledgers
  import opened RunLoop
  import opened Steps
  import opened Invariants
  import opened Histories
  import TextOrder

  // ---- One task ------------------------------------------------------------------------------------

  /** The executor is called: nothing committed, and the lease can be had. */
  ghost predicate Executes(host: Host, s: State, t: string, cfg: Config, e: Retried) {
    && ClockOk(host) && t in s.l.tasks
    && !AlreadyCommitted(s.l.journal, t) && CanAcquire(s.l.leases, t, host.clock(s.w.ticks))
    && e == Retry(host, s.w.(ticks := s.w.ticks + 2, minted := s.w.minted + 2), t, 0, cfg)
  }

  /** The events of a success: start, one edit per path, completion. */
  function SuccessEvents(l: Ledger, t: string, paths: seq<string>, clock: nat -> string, k: nat): seq<Event> {
    [Event(TaskStarted, Some(t), clock(k + 1), [], l.scope.clientId, l.scope.projectId)]
    + seq(|paths|, i requires 0 <= i < |paths| =>
            Event(FileEdited, Some(t), clock(k + 2 + i), [paths[i]], l.scope.clientId, l.scope.projectId))
    + [Event(TaskCompleted, Some(t), clock(k + 2 + |paths|), [], l.scope.clientId, l.scope.projectId)]
  }

  /** The lists of a ledger after a success. */
  ghost predicate WritesSuccess(l: Ledger, l': Ledger, t: string, attempts: nat, r: ExecResult, clock: nat -> string,
                                k: nat, leaseId: string, txnId: string)
  {
    && l'.leases == l.leases + [Lease(leaseId, t, clock(k), None, Some(clock(k + 3 + |r.paths|)))]
    && l'.journal == l.journal + [Txn(txnId, t, t + "-execute", Committed, Some(attempts))]
    && l'.history == l.history + [HistoryRow(clock(k + 1), t, Pending, InProgress),
                                  HistoryRow(clock(k + 2 + |r.paths|), t, InProgress, Completed)]
    && l'.events == l.events + SuccessEvents(l, t, r.paths, clock, k)
  }

  lemma MiddleIsEdits(l: Ledger, t: string, r: ExecResult, clock: nat -> string, k: nat, tr: Trace)
    requires EditsOf(l, t, r, tr.middle)
    requires tr.start == LedgerEvent(l, TaskStarted, Some(t), clock(k + 1), [])
    requires tr.last == LedgerEvent(l, TaskCompleted, Some(t), clock(k + 2 + |r.paths|), [])
    requires forall i :: 0 <= i < |r.paths| ==> tr.middle[i].at == clock(k + 2 + i)
    ensures [tr.start] + tr.middle + [tr.last] == SuccessEvents(l, t, r.paths, clock, k)
  {
    var edits := seq(|r.paths|, i requires 0 <= i < |r.paths| =>
                       Event(FileEdited, Some(t), clock(k + 2 + i), [r.paths[i]], l.scope.clientId, l.scope.projectId));
    assert tr.middle == edits;
  }

  lemma SuccessWritten(l: Ledger, t: string, attempts: nat, r: ExecResult, clock: nat -> string, k: nat,
                       leaseId: string, txnId: string, id: string)
    requires t in l.tasks && r.success && forall i: nat :: clock(i) != ""
    ensures var l' := Execution(l, t, attempts, r, clock, k, leaseId, txnId, id);
      && WritesSuccess(l, l', t, attempts, r, clock, k, leaseId, txnId)
      && SameElse(l, l') && CompletedEntry(l, l', t, r, id)
  {
    hide Execution, SuccessEvents, CompletedEntry, SameElse;
    var tr := ExecutionAccepts(l, t, attempts, r, clock, k, leaseId, txnId, id);
    MiddleIsEdits(l, t, r, clock, k, tr);
    hide EditsOf;
  }

  /**
   * A task whose execution ends in success: the lease from the first clock reading to the last, the committed
   * transaction with its attempts, two history rows, the events, the evidence if any; everything else stays.
   */
  lemma TaskSucceeds(host: Host, s: State, t: string, cfg: Config, e: Retried)
    requires Executes(host, s, t, cfg, e) && e.result.success
    ensures var s', r, id := RunTask(host, s, t, cfg), e.result, host.ids(s.w.minted + 2);
      && WritesSuccess(s.l, s'.l, t, e.attempts, r, host.clock, s.w.ticks, host.ids(s.w.minted),
                       host.ids(s.w.minted + 1))
      && SameElse(s.l, s'.l) && s'.l.blockers == s.l.blockers
      && s'.l.tasks == s.l.tasks[t := if r.evidence.Some?
                                      then s.l.tasks[t].(status := Completed, passed := true,
                                                         evidenceRefs := s.l.tasks[t].evidenceRefs + [id])
                                      else s.l.tasks[t].(status := Completed)]
      && s'.l.evidence == s.l.evidence + (if r.evidence.Some? then [Evidence(id, t, r.evidence.value)] else [])
      && s'.w == e.w.(ticks := s.w.ticks + 4 + |r.paths|,
                      minted := s.w.minted + if r.evidence.Some? then 3 else 2)
  {
    hide Execution, Retry, AlreadyCommitted, CanAcquire, WritesSuccess, SameElse, ClockOk;
    RetryUses(host, s.w.(ticks := s.w.ticks + 2, minted := s.w.minted + 2), t, 0, cfg);
    ClockSpeaks(host);
    SuccessWritten(s.l, t, e.attempts, e.result, host.clock, s.w.ticks, host.ids(s.w.minted),
                   host.ids(s.w.minted + 1), host.ids(s.w.minted + 2));
  }

  lemma ClockSpeaks(host: Host)
    requires ClockOk(host)
    ensures forall i: nat :: host.clock(i) != ""
  {
  }

  /** The events of a failure: start, the undo if paths were touched, the block. */
  function FailureEvents(l: Ledger, t: string, paths: seq<string>, clock: nat -> string, k: nat): seq<Event> {
    [Event(TaskStarted, Some(t), clock(k + 1), [], l.scope.clientId, l.scope.projectId)]
    + (if paths == [] then []
       else [Event(Compensation, Some(t), clock(k + 2), paths, l.scope.clientId, l.scope.projectId)])
    + [Event(TaskBlocked, Some(t), clock(k + if paths == [] then 2 else 3), [], l.scope.clientId, l.scope.projectId)]
  }

  /** The lists of a ledger after a final failure; `undo` is 1 if paths were touched and 0 otherwise. */
  ghost predicate WritesFailure(l: Ledger, l': Ledger, t: string, attempts: nat, r: ExecResult, clock: nat -> string,
                                k: nat, leaseId: string, txnId: string)
  {
    var undo := if r.paths == [] then 0 else 1;
    && l'.leases == l.leases + [Lease(leaseId, t, clock(k), None, Some(clock(k + 3 + undo)))]
    && l'.journal == l.journal + [Txn(txnId, t, t + "-execute", if undo == 1 then Compensated else Open,
                                      Some(attempts))]
    && l'.history == l.history + [HistoryRow(clock(k + 1), t, Pending, InProgress),
                                  HistoryRow(clock(k + 2 + undo), t, InProgress, Blocked)]
    && l'.events == l.events + FailureEvents(l, t, r.paths, clock, k)
  }

  lemma FailureWritten(l: Ledger, t: string, attempts: nat, r: ExecResult, clock: nat -> string, k: nat,
                       leaseId: string, txnId: string, id: string)
    requires t in l.tasks && !r.success && forall i: nat :: clock(i) != ""
    ensures var l' := Execution(l, t, attempts, r, clock, k, leaseId, txnId, id);
      WritesFailure(l, l', t, attempts, r, clock, k, leaseId, txnId) && SameElse(l, l') && BlockedEntry(l, l', t, r, id)
  {
    hide Execution, BlockedEntry, SameElse, ReasonText;
    var tr := ExecutionRejects(l, t, attempts, r, clock, k, leaseId, txnId, id);
    assert [tr.start] + tr.middle + [tr.last] == FailureEvents(l, t, r.paths, clock, k) by {
      if r.paths != [] { assert tr.middle == [tr.middle[0]]; }
    }
    hide FailureEvents;
  }

  /** The reason recorded for a failure: the executor's, unless it gives none. */
  ghost predicate Explains(reason: string, r: ExecResult) {
    if r.reason.Some? && r.reason.value != "" then reason == r.reason.value else reason == "execution failed"
  }

  /** What opening a blocker writes: one row, the task's status, reason and owner. */
  ghost predicate OpensBlocker(l: Ledger, l': Ledger, t: string, id: string, reason: string)
    requires t in l.tasks
  {
    && l'.blockers == l.blockers + [Blocker(id, t, reason, "operator")]
    && l'.tasks == l.tasks[t := l.tasks[t].(status := Blocked, blockedReason := Some(reason),
                                            decisionOwner := Some("operator"))]
    && l'.evidence == l.evidence
  }

  /**
   * A task whose execution ends in failure: the lease, the transaction compensated if paths were touched and left open
   * otherwise, two history rows, the events, a blocker with the reason, and the undo call.
   */
  lemma TaskFails(host: Host, s: State, t: string, cfg: Config, e: Retried) returns (reason: string)
    requires Executes(host, s, t, cfg, e) && !e.result.success
    ensures var s', r := RunTask(host, s, t, cfg), e.result;
      var undo := if r.paths == [] then 0 else 1;
      && WritesFailure(s.l, s'.l, t, e.attempts, r, host.clock, s.w.ticks, host.ids(s.w.minted),
                       host.ids(s.w.minted + 1))
      && SameElse(s.l, s'.l) && Explains(reason, r)
      && OpensBlocker(s.l, s'.l, t, host.ids(s.w.minted + 2), reason)
      && s'.w == e.w.(ticks := s.w.ticks + 4 + undo, minted := s.w.minted + 3,
                      undone := s.w.undone + if undo == 1 then [r.paths] else [])
  {
    hide Execution, Retry, AlreadyCommitted, CanAcquire, WritesFailure, SameElse, ClockOk;
    RetryUses(host, s.w.(ticks := s.w.ticks + 2, minted := s.w.minted + 2), t, 0, cfg);
    ClockSpeaks(host);
    FailureWritten(s.l, t, e.attempts, e.result, host.clock, s.w.ticks, host.ids(s.w.minted),
                   host.ids(s.w.minted + 1), host.ids(s.w.minted + 2));
    reason := ReasonText(e.result);
  }

  /** A task with an unmet dependency is not executed; it gets a blocker, one history row and one event. */
  lemma TaskIsUnmet(host: Host, s: State, t: string)
    requires t in s.l.tasks
    ensures var s', at := BlockUnmet(host, s, t), host.clock(s.w.ticks);
      && SameElse(s.l, s'.l) && s'.l.leases == s.l.leases && s'.l.journal == s.l.journal
      && OpensBlocker(s.l, s'.l, t, host.ids(s.w.minted), "dependency not satisfied")
      && s'.l.history == s.l.history + [HistoryRow(at, t, Pending, Blocked)]
      && s'.l.events == s.l.events + [Event(TaskBlocked, Some(t), at, [], s.l.scope.clientId, s.l.scope.projectId)]
      && s'.w == s.w.(ticks := s.w.ticks + 1, minted := s.w.minted + 1)
  {
  }

  /** The lease was released, or has run out by then. */
  ghost predicate Over(lease: Lease, now: string) {
    || (lease.releasedAt.Some? && lease.releasedAt.value != "")
    || (lease.expiresAt.Some? && lease.expiresAt.value != "" && TextOrder.Before(lease.expiresAt.value, now))
  }

  /** A lease can be had when each earlier one for the task is over. */
  lemma LeaseFreeIff(leases: seq<Lease>, t: string, now: string)
    ensures CanAcquire(leases, t, now) <==>
              forall i :: 0 <= i < |leases| && leases[i].taskId == t ==> Over(leases[i], now)
  {
    forall i | 0 <= i < |leases| ensures LeaseActive(leases[i], now) <==> !Over(leases[i], now) {}
  }

  /** While the task runs its lease cannot be had a second time, whatever the clock says. */
  lemma LeaseExcludes(l: Ledger, t: string, leaseId: string, txnId: string, acquiredAt: string, startedAt: string,
                      now: string)
    requires t in l.tasks
    ensures !CanAcquire(Begin(l, t, leaseId, txnId, acquiredAt, startedAt).leases, t, now)
  {
    var leases := Begin(l, t, leaseId, txnId, acquiredAt, startedAt).leases;
    assert leases[|leases| - 1].taskId == t && LeaseActive(leases[|leases| - 1], now);
  }

  // ---- A whole drive -------------------------------------------------------------------------------

  /** How a loop that asked the operator from poll `from` on ended: every answer but the last was to go on. */
  ghost predicate Stopped(host: Host, from: nat, to: nat, runState: RunState) {
    && from <= to && (forall p: nat :: from <= p < to - 1 ==> host.control(p) == Go)
    && match runState {
         case Finished => to > from ==> host.control(to - 1) == Go
         case Paused => to > from && host.control(to - 1) == Pause
         case Aborted => to > from && host.control(to - 1) == Abort
         case Running => false
       }
  }

  lemma VisitPolls(host: Host, g: Graph, s: State, t: string, cfg: Config)
    requires t in s.l.tasks && t in g
    ensures var turn := Visit(host, g, s, t, cfg);
      if s.l.tasks[t].status == Completed then turn == Next(s)
      else
        && turn.s.w.polls == s.w.polls + 1 && turn.s.l.status == s.l.status
        && (turn.Next? <==> host.control(s.w.polls) == Go)
        && (turn.Stop? ==> turn.runState == if host.control(s.w.polls) == Abort then Aborted else Paused)
  {
    hide Execution, Retry, AlreadyCommitted, CanAcquire, Block;
    var s1 := s.(w := s.w.(polls := s.w.polls + 1));
    RetryUses(host, s1.w.(ticks := s1.w.ticks + 2, minted := s1.w.minted + 2), t, 0, cfg);
    BlockKeepsStatus(s1.l, t, "lease conflict", InProgress, host.ids(s1.w.minted), host.clock(s1.w.ticks));
    BlockKeepsStatus(s1.l, t, UNMET, Pending, host.ids(s1.w.minted), host.clock(s1.w.ticks));
    var e := Retry(host, s1.w.(ticks := s1.w.ticks + 2, minted := s1.w.minted + 2), t, 0, cfg);
    ExecutionKeepsStatus(s1.l, t, e.attempts, e.result, host.clock, s1.w.ticks, host.ids(s1.w.minted),
                         host.ids(s1.w.minted + 1), host.ids(s1.w.minted + 2));
  }

  lemma BlockKeepsStatus(l: Ledger, t: string, reason: string, from: Status, id: string, at: string)
    requires t in l.tasks
    ensures Block(l, t, reason, from, id, at).status == l.status
  {
  }

  lemma ExecutionKeepsStatus(l: Ledger, t: string, n: nat, r: ExecResult, clock: nat -> string, k: nat, leaseId: string,
                             txnId: string, id: string)
    requires t in l.tasks
    ensures Execution(l, t, n, r, clock, k, leaseId, txnId, id).status == l.status
  {
    hide CloseTxn, Edits, ReasonText;
  }

  lemma {:induction false} LoopStops(host: Host, g: Graph, s: State, order: seq<string>, cfg: Config)
    requires Fits(g, s) && Elems(order) <= g.Keys
    ensures var r := Loop(host, g, s, order, cfg);
      Stopped(host, s.w.polls, r.0.w.polls, r.1) && r.0.l.status == s.l.status
    decreases |order|
  {
    hide Visit, Stopped;
    if order == [] {
      StoppedByEnd(host, s.w.polls);
    } else {
      assert order[0] in Elems(order) && Elems(order[1..]) <= Elems(order);
      VisitPolls(host, g, s, order[0], cfg);
      var turn := Visit(host, g, s, order[0], cfg);
      if turn.Next? {
        LoopStops(host, g, turn.s, order[1..], cfg);
        var r := Loop(host, g, turn.s, order[1..], cfg);
        if turn.s.w.polls == s.w.polls + 1 && host.control(s.w.polls) == Go {
          StoppedLater(host, s.w.polls, r.0.w.polls, r.1);
        }
      } else {
        StoppedByAnswer(host, s.w.polls, turn.runState);
      }
    }
  }

  lemma StoppedByEnd(host: Host, from: nat)
    ensures Stopped(host, from, from, Finished)
  {
  }

  lemma StoppedByAnswer(host: Host, from: nat, runState: RunState)
    requires host.control(from) != Go && runState == if host.control(from) == Abort then Aborted else Paused
    ensures Stopped(host, from, from + 1, runState)
  {
  }

  /** One more answer to go on in front. */
  lemma StoppedLater(host: Host, from: nat, to: nat, runState: RunState)
    requires Stopped(host, from + 1, to, runState) && host.control(from) == Go
    ensures Stopped(host, from, to, runState)
  {
  }

  /** The verdict on a ledger: both counts, the flag, and the status, which stays if nothing is blocked or done. */
  ghost predicate Reconciled(l: Ledger, before: LedgerStatus) {
    var pending := set t | t in l.tasks && (l.tasks[t].status == Pending || l.tasks[t].status == InProgress);
    && l.reconciliation.pendingTasks == |pending| && l.reconciliation.openBlockers == |l.blockers|
    && (l.reconciliation.allowed <==> pending == {} && l.blockers == [])
    && l.status == if pending == {} && l.blockers == [] then LedgerCompleted
                   else if l.blockers != [] then LedgerBlocked else before
  }

  /**
   * What a run or a resume ends with: the run state says whether the operator paused or aborted it, or the order was
   * gone through, and the ledger is reconciled as it stands.
   */
  lemma DriveEnds(host: Host, g: Graph, s: State, cfg: Config)
    requires Fits(g, s)
    ensures var s' := Drive(host, g, s, cfg);
      Stopped(host, s.w.polls, s'.w.polls, s'.l.runState) && Reconciled(s'.l, s.l.status)
  {
    hide Loop, Order, Stopped;
    OrderIsPermutation(g, DefaultRank);
    var order := TopoOrder(g);
    LoopStops(host, g, s, order, cfg);
    var r := Loop(host, g, s, order, cfg);
    var l := r.0.l.(runState := r.1);
    var pending := set t | t in l.tasks && (l.tasks[t].status == Pending || l.tasks[t].status == InProgress);
    assert PendingSet(l.tasks) == pending;
  }

  /** The ledger a run starts from: the manifest's identity, one pending entry per node, and nothing else. */
  lemma RunStarts(m: Manifest, w: World)
    ensures var s := Fresh(m, w);
      && s.l.source == m.source && s.l.scope == m.scope && s.l.status == LedgerInProgress && s.l.runState == Running
      && s.l.tasks.Keys == TaskIds(m.tasks)
      && (forall t :: t in s.l.tasks ==> s.l.tasks[t] == TaskEntry(Pending, [], false, None, None))
      && s.l.reconciliation == Reconciliation(false, |TaskIds(m.tasks)|, 0) && !s.l.requiresLanding
      && s.l.leases == [] && s.l.evidence == [] && s.l.blockers == [] && s.l.journal == [] && s.l.history == []
      && s.l.events == [] && s.l.resolutions == [] && s.l.branch == None && s.l.commits == []
      && s.w == w.(calls := [], sleeps := [], undone := [])
  {
    hide GraphOf;
    GraphIsOfNodes(m.tasks);
    assert |GraphOf(m.tasks)| == |GraphOf(m.tasks).Keys|;
  }

  // ---- Decisions of the operator -------------------------------------------------------------------

  /** The first open blocker with the id, if there is one. */
  ghost predicate FirstWith(blockers: seq<Blocker>, id: string, i: nat) {
    i < |blockers| && blockers[i].blockerId == id && forall j :: 0 <= j < i ==> blockers[j].blockerId != id
  }

  /**
   * Every authorized decision leaves a resolution row and a log event about the task of the first blocker with the id.
   * Only the decision "override" does more, and only if there is one: that task goes back to pending without a reason,
   * and no blocker with the id is left. Everything else stays.
   */
  lemma DecisionWrites(host: Host, g: Graph, s: State, id: string, decision: string, actor: string, at: string, i: nat)
    requires Fits(g, s) && (FirstWith(s.l.blockers, id, i) || forall j :: 0 <= j < |s.l.blockers| ==>
                                                                s.l.blockers[j].blockerId != id)
    ensures var s' := Apply(host, g, s, ResolveOp(true, id, decision, actor, at));
      var found := FirstWith(s.l.blockers, id, i);
      var subject := if found then Some(s.l.blockers[i].taskId) else None;
      var l1 := s.l.(resolutions := s.l.resolutions + [ResolutionRow(id, decision, actor, at)],
                     events := s.l.events + [Event(Resolution, subject, at, [], s.l.scope.clientId,
                                                   s.l.scope.projectId)]);
      && s'.w == s.w
      && (decision != "override" || !found ==> s'.l == l1)
      && (decision == "override" && found ==>
            && s'.l == l1.(blockers := s'.l.blockers, tasks := s'.l.tasks)
            && (forall b :: b in s'.l.blockers <==> b in s.l.blockers && b.blockerId != id)
            && (subject.value in s.l.tasks ==>
                  s'.l.tasks == s.l.tasks[subject.value :=
                                  s.l.tasks[subject.value].(status := Pending, blockedReason := None)]))
  {
    hide WithoutBlocker;
    var k := FindBlocker(s.l.blockers, id);
    if FirstWith(s.l.blockers, id, i) {
      FirstIsFound(s.l.blockers, id, i);
    } else {
      NoneIsFound(s.l.blockers, id);
    }
  }

  /** A refused decision and a landing without changes change nothing at all. */
  lemma NothingWritten(host: Host, g: Graph, s: State, id: string, decision: string, actor: string, at: string,
                       branch: string, message: string, sha: string)
    requires Fits(g, s)
    ensures Apply(host, g, s, ResolveOp(false, id, decision, actor, at)) == s
    ensures Apply(host, g, s, LandOp(false, branch, message, sha)) == s
  {
  }

  lemma FirstIsFound(blockers: seq<Blocker>, id: string, i: nat)
    requires FirstWith(blockers, id, i)
    ensures FindBlocker(blockers, id) == i
  {
  }

  lemma NoneIsFound(blockers: seq<Blocker>, id: string)
    requires forall j :: 0 <= j < |blockers| ==> blockers[j].blockerId != id
    ensures FindBlocker(blockers, id) == |blockers|
  {
  }
}
