/** What holds of the ledger and the executor transcript after every operation of every history. */
module Invariants {
  import opened Prelude
  import opened HashChain
  import opened Topo
  import opened Ledgers
  import opened RunLoop
  import opened Steps

  // ---- Success happens at most once --------------------------------------------------------------------

  ghost predicate CompletedIn(events: seq<Event>, t: string) {
    exists i :: 0 <= i < |events| && Completes(events[i], t)
  }

  ghost predicate CommittedIn(journal: seq<Txn>, t: string) {
    exists i :: 0 <= i < |journal| && journal[i].taskId == t && journal[i].status == Committed
  }

  ghost predicate SucceededIn(calls: seq<Call>, t: string) {
    exists i :: 0 <= i < |calls| && calls[i].taskId == t && calls[i].result.success
  }

  /** No two completion events for one task. */
  ghost predicate OneCompletion(events: seq<Event>) {
    forall i, j :: 0 <= i < j < |events| && events[i].kind == TaskCompleted && events[j].kind == TaskCompleted ==>
      events[i].subject != events[j].subject
  }

  /** No two committed transactions for one task. */
  ghost predicate OneCommit(journal: seq<Txn>) {
    forall i, j :: 0 <= i < j < |journal| && journal[i].status == Committed && journal[j].status == Committed ==>
      journal[i].taskId != journal[j].taskId
  }

  /** The executor is not called again for a task it succeeded on. */
  ghost predicate NoCallAfterSuccess(calls: seq<Call>) {
    forall i, j :: 0 <= i < j < |calls| && calls[i].result.success ==> calls[j].taskId != calls[i].taskId
  }

  ghost predicate KeysMatch(journal: seq<Txn>) {
    forall i :: 0 <= i < |journal| ==> journal[i].key == TxnKey(journal[i].taskId)
  }

  /** Completion events, committed transactions and successful calls are about the same tasks. */
  ghost predicate Agree(s: State) {
    forall t :: (CompletedIn(s.l.events, t) <==> CommittedIn(s.l.journal, t))
             && (SucceededIn(s.w.calls, t) <==> CommittedIn(s.l.journal, t))
  }

  ghost predicate Once(s: State) {
    && OneCompletion(s.l.events) && OneCommit(s.l.journal) && NoCallAfterSuccess(s.w.calls)
    && KeysMatch(s.l.journal) && Agree(s)
    && (forall i :: 0 <= i < |s.l.events| && s.l.events[i].kind == TaskCompleted ==> s.l.events[i].subject.Some?)
    && (forall t :: t in s.l.tasks && s.l.tasks[t].status == Completed ==> CommittedIn(s.l.journal, t))
  }

  lemma TxnKeyInjective(t: string, u: string)
    requires TxnKey(t) == TxnKey(u)
    ensures t == u
  {
    assert |t| == |u|;
    assert t == TxnKey(t)[..|t|] && u == TxnKey(u)[..|u|];
  }

  /** `already_committed` looks for the idempotency key; it finds exactly the task's own commits. */
  lemma CommittedByKey(journal: seq<Txn>, t: string)
    requires KeysMatch(journal)
    ensures AlreadyCommitted(journal, t) <==> CommittedIn(journal, t)
  {
    if AlreadyCommitted(journal, t) {
      var i :| 0 <= i < |journal| && journal[i].key == TxnKey(t) && journal[i].status == Committed;
      TxnKeyInjective(journal[i].taskId, t);
    }
  }

  lemma AcceptedMarks(s: State, s': State, t: string, r: ExecResult, n: nat, u: string)
    requires Accepted(s, s', t, r, n)
    ensures CompletedIn(s'.l.events, u) <==> CompletedIn(s.l.events, u) || u == t
    ensures CommittedIn(s'.l.journal, u) <==> CommittedIn(s.l.journal, u) || u == t
    ensures SucceededIn(s'.w.calls, u) <==> SucceededIn(s.w.calls, u) || u == t
  {
    assert Completes(s'.l.events[|s'.l.events| - 1], t);
    assert s'.l.journal[|s.l.journal|].taskId == t;
    assert s'.w.calls[|s'.w.calls| - 1] == Call(t, r);
    forall i | 0 <= i < |s.l.events| ensures s'.l.events[i] == s.l.events[i] {}
    forall i | 0 <= i < |s.l.journal| ensures s'.l.journal[i] == s.l.journal[i] {}
    forall i | 0 <= i < |s.w.calls| ensures s'.w.calls[i] == s.w.calls[i] {}
  }

  /** A turn that neither completes, commits nor succeeds. */
  ghost predicate Quiet(s: State, s': State, t: string) {
    && s.l.events <= s'.l.events && s.l.journal <= s'.l.journal && s.w.calls <= s'.w.calls
    && (forall i :: |s.l.events| <= i < |s'.l.events| ==> s'.l.events[i].kind != TaskCompleted)
    && (forall i :: |s.l.journal| <= i < |s'.l.journal| ==>
          s'.l.journal[i].status != Committed && s'.l.journal[i].key == TxnKey(s'.l.journal[i].taskId))
    && (forall i :: |s.w.calls| <= i < |s'.w.calls| ==> !s'.w.calls[i].result.success && s'.w.calls[i].taskId == t)
    && (forall u :: u in s'.l.tasks && s'.l.tasks[u].status == Completed ==>
          u in s.l.tasks && s.l.tasks[u].status == Completed)
  }

  lemma RejectedIsQuiet(host: Host, s: State, s': State, t: string, r: ExecResult, n: nat)
    requires Rejected(host, s, s', t, r, n)
    ensures Quiet(s, s', t)
  {
  }

  lemma UnmetIsQuiet(host: Host, s: State, s': State, t: string)
    requires Unmet(host, s, s', t)
    ensures Quiet(s, s', t)
  {
  }

  lemma QuietMarks(s: State, s': State, t: string, u: string)
    requires Quiet(s, s', t)
    ensures CompletedIn(s'.l.events, u) <==> CompletedIn(s.l.events, u)
    ensures CommittedIn(s'.l.journal, u) <==> CommittedIn(s.l.journal, u)
    ensures SucceededIn(s'.w.calls, u) <==> SucceededIn(s.w.calls, u)
  {
    assert forall i :: 0 <= i < |s.l.events| ==> s'.l.events[i] == s.l.events[i];
    assert forall i :: 0 <= i < |s.l.journal| ==> s'.l.journal[i] == s.l.journal[i];
    assert forall i :: 0 <= i < |s.w.calls| ==> s'.w.calls[i] == s.w.calls[i];
  }

  lemma QuietKeepsOnce(s: State, s': State, t: string)
    requires Once(s) && Quiet(s, s', t)
    requires s.w.calls == s'.w.calls || !CommittedIn(s.l.journal, t)
    ensures Once(s')
  {
    forall u ensures && (CompletedIn(s'.l.events, u) <==> CommittedIn(s'.l.journal, u))
                     && (SucceededIn(s'.w.calls, u) <==> CommittedIn(s'.l.journal, u))
                     && (CommittedIn(s'.l.journal, u) <==> CommittedIn(s.l.journal, u))
    {
      QuietMarks(s, s', t, u);
    }
    QuietCalls(s.w.calls, s'.w.calls, t, SucceededIn(s.w.calls, t));
  }

  lemma QuietCalls(C: seq<Call>, C': seq<Call>, t: string, succeeded: bool)
    requires NoCallAfterSuccess(C) && C <= C' && (succeeded <==> SucceededIn(C, t)) && (C == C' || !succeeded)
    requires forall i :: |C| <= i < |C'| ==> !C'[i].result.success && C'[i].taskId == t
    ensures NoCallAfterSuccess(C')
  {
    forall i, j | 0 <= i < j < |C'| && C'[i].result.success ensures C'[j].taskId != C'[i].taskId {
      assert C'[i] == C[i];
    }
  }

  lemma AcceptedEvents(s: State, s': State, t: string, r: ExecResult, n: nat)
    requires Accepted(s, s', t, r, n) && OneCompletion(s.l.events) && !CompletedIn(s.l.events, t)
    ensures OneCompletion(s'.l.events)
  {
    var E, E' := s.l.events, s'.l.events;
    forall i, j | 0 <= i < j < |E'| && E'[i].kind == TaskCompleted && E'[j].kind == TaskCompleted
      ensures E'[i].subject != E'[j].subject
    {
      assert E'[i] == E[i];
      assert !Completes(E[i], t);
    }
  }

  lemma AcceptedCalls(s: State, s': State, t: string, r: ExecResult, n: nat)
    requires Called(s.w.calls, s'.w.calls, t, r, n) && NoCallAfterSuccess(s.w.calls) && !SucceededIn(s.w.calls, t)
    ensures NoCallAfterSuccess(s'.w.calls)
  {
    var C, C' := s.w.calls, s'.w.calls;
    forall i, j | 0 <= i < j < |C'| && C'[i].result.success ensures C'[j].taskId != C'[i].taskId {
      assert C'[i] == C[i];
    }
  }

  lemma AcceptedJournal(s: State, s': State, t: string, r: ExecResult, n: nat)
    requires Accepted(s, s', t, r, n) && OneCommit(s.l.journal) && KeysMatch(s.l.journal)
    requires !CommittedIn(s.l.journal, t)
    ensures OneCommit(s'.l.journal) && KeysMatch(s'.l.journal)
  {
    assert forall i :: 0 <= i < |s.l.journal| ==> s'.l.journal[i] == s.l.journal[i];
  }

  lemma AcceptedKeepsOnce(s: State, s': State, t: string, r: ExecResult, n: nat)
    requires Once(s) && Accepted(s, s', t, r, n) && !CommittedIn(s.l.journal, t)
    ensures Once(s')
  {
    forall u ensures && (CompletedIn(s'.l.events, u) <==> CommittedIn(s'.l.journal, u))
                     && (SucceededIn(s'.w.calls, u) <==> CommittedIn(s'.l.journal, u))
                     && (CommittedIn(s'.l.journal, u) <==> CommittedIn(s.l.journal, u) || u == t)
    {
      AcceptedMarks(s, s', t, r, n, u);
    }
    assert !CompletedIn(s.l.events, t) && !SucceededIn(s.w.calls, t);
    AcceptedEvents(s, s', t, r, n);
    AcceptedCalls(s, s', t, r, n);
    AcceptedJournal(s, s', t, r, n);
  }

  // ---- Dependencies complete before a task starts ---------------------------------------------------

  ghost predicate DepsFirst(g: Graph, events: seq<Event>) {
    forall i :: 0 <= i < |events| && events[i].kind == TaskStarted ==>
      && events[i].subject.Some? && events[i].subject.value in g
      && forall d :: d in g[events[i].subject.value] ==> exists j :: 0 <= j < i && Completes(events[j], d)
  }

  lemma RanKeepsDepsFirst(g: Graph, s: State, s': State, t: string, r: ExecResult, n: nat)
    requires Ran(s, s', t, r, n) && Once(s) && DepsFirst(g, s.l.events)
    requires t in g && g[t] <= CompletedSet(s.l.tasks)
    ensures DepsFirst(g, s'.l.events)
  {
    hide Called, Once, CompletedIn;
    var E, E' := s.l.events, s'.l.events;
    forall i, d | 0 <= i < |E'| && E'[i].kind == TaskStarted && d in g[E'[i].subject.value]
      ensures exists j :: 0 <= j < i && Completes(E'[j], d)
    {
      var j: nat;
      if i < |E| {
        j :| 0 <= j < i && Completes(E[j], d);
      } else {
        j := CompletionOf(s, d);
      }
      assert Completes(E'[j], d);
    }
  }

  /** A completed task has its completion event. */
  lemma CompletionOf(s: State, t: string) returns (i: nat)
    requires Once(s) && t in CompletedSet(s.l.tasks)
    ensures i < |s.l.events| && Completes(s.l.events[i], t)
  {
    assert CompletedIn(s.l.events, t);
    i :| 0 <= i < |s.l.events| && Completes(s.l.events[i], t);
  }

  lemma QuietKeepsDepsFirst(g: Graph, E: seq<Event>, E': seq<Event>)
    requires DepsFirst(g, E) && E <= E'
    requires forall i :: |E| <= i < |E'| ==> E'[i].kind != TaskStarted
    ensures DepsFirst(g, E')
  {
    forall i, d | 0 <= i < |E'| && E'[i].kind == TaskStarted && d in g[E'[i].subject.value]
      ensures exists j :: 0 <= j < i && Completes(E'[j], d)
    {
      assert E[i] == E'[i];
      var j :| 0 <= j < i && Completes(E[j], d);
      assert Completes(E'[j], d);
    }
  }

  // ---- Blockers ---------------------------------------------------------------------------------------

  ghost predicate HasBlocker(blockers: seq<Blocker>, t: string) {
    exists i :: 0 <= i < |blockers| && blockers[i].taskId == t
  }

  /** Every blocked task has an open blocker. */
  ghost predicate Covered(l: Ledger) {
    forall t :: t in l.tasks && l.tasks[t].status == Blocked ==> HasBlocker(l.blockers, t)
  }

  ghost predicate Owned(l: Ledger) {
    && (forall i :: 0 <= i < |l.blockers| ==> l.blockers[i].decisionOwner == "operator")
    && (forall t :: t in l.tasks && l.tasks[t].status == Blocked ==> l.tasks[t].decisionOwner == Some("operator"))
  }

  // ---- The invariant ------------------------------------------------------------------------------------

  ghost predicate AllScoped(l: Ledger) {
    forall i :: 0 <= i < |l.events| ==> Scoped(l.events[i], l.scope)
  }

  ghost predicate NoneInProgress(l: Ledger) {
    forall t :: t in l.tasks ==> l.tasks[t].status != InProgress
  }

  ghost predicate AllCompleted(l: Ledger) {
    forall t :: t in l.tasks ==> l.tasks[t].status == Completed
  }

  ghost predicate Inv(g: Graph, s: State) {
    && Fits(g, s) && LeasesReleased(s.l) && NoneInProgress(s.l) && AllScoped(s.l) && Owned(s.l)
    && Once(s) && DepsFirst(g, s.l.events)
  }

  lemma FrameKeepsScoped(s: State, s': State, t: string)
    requires Frame(s, s', t) && AllScoped(s.l)
    ensures AllScoped(s'.l)
  {
    forall i | 0 <= i < |s'.l.events| ensures Scoped(s'.l.events[i], s'.l.scope) {
      if i < |s.l.events| { assert s'.l.events[i] == s.l.events[i]; }
    }
  }

  lemma RanKeepsLeases(s: State, s': State, t: string, r: ExecResult, n: nat)
    requires Ran(s, s', t, r, n) && LeasesReleased(s.l)
    ensures LeasesReleased(s'.l)
  {
    assert forall i :: 0 <= i < |s.l.leases| ==> s'.l.leases[i] == s.l.leases[i];
  }

  lemma OpenedKeepsOwned(host: Host, s: State, s': State, t: string)
    requires Frame(s, s', t) && Opened(host, s, s', t) && Owned(s.l) && NoneInProgress(s.l)
    ensures Owned(s'.l) && NoneInProgress(s'.l)
  {
    assert forall i :: 0 <= i < |s.l.blockers| ==> s'.l.blockers[i] == s.l.blockers[i];
  }

  /** The state in which the loop runs a task. */
  ghost predicate MayRun(g: Graph, s: State, t: string) {
    Inv(g, s) && t in g && g[t] <= CompletedSet(s.l.tasks) && !CommittedIn(s.l.journal, t)
  }

  lemma AcceptedKeepsInv(host: Host, g: Graph, s: State, s': State, t: string, r: ExecResult, n: nat)
    requires MayRun(g, s, t) && Accepted(s, s', t, r, n)
    ensures Inv(g, s')
  {
    hide Once, DepsFirst, AllScoped, LeasesReleased, Called;
    AcceptedKeepsOnce(s, s', t, r, n);
    RanKeepsDepsFirst(g, s, s', t, r, n);
    FrameKeepsScoped(s, s', t);
    RanKeepsLeases(s, s', t, r, n);
  }

  lemma RejectedKeepsInv(host: Host, g: Graph, s: State, s': State, t: string, r: ExecResult, n: nat)
    requires MayRun(g, s, t) && Rejected(host, s, s', t, r, n)
    ensures Inv(g, s')
  {
    hide Once, DepsFirst, AllScoped, LeasesReleased, Owned, Called, Quiet;
    RejectedIsQuiet(host, s, s', t, r, n);
    QuietKeepsOnce(s, s', t);
    RanKeepsDepsFirst(g, s, s', t, r, n);
    FrameKeepsScoped(s, s', t);
    RanKeepsLeases(s, s', t, r, n);
    OpenedKeepsOwned(host, s, s', t);
  }

  lemma UnmetKeepsInv(host: Host, g: Graph, s: State, s': State, t: string)
    requires Inv(g, s) && t in g && Unmet(host, s, s', t)
    ensures Inv(g, s')
  {
    hide Once, DepsFirst, AllScoped, Owned, Quiet;
    UnmetIsQuiet(host, s, s', t);
    QuietKeepsOnce(s, s', t);
    QuietKeepsDepsFirst(g, s.l.events, s'.l.events);
    FrameKeepsScoped(s, s', t);
    OpenedKeepsOwned(host, s, s', t);
  }

  lemma TurnKeepsInv(host: Host, g: Graph, s: State, s': State, t: string, cfg: Config, stopped: bool)
    requires Inv(g, s) && t in g && Turned(host, g, s, s', t, cfg, stopped)
    ensures Inv(g, s')
  {
    if stopped || s.l.tasks[t].status == Completed {
    } else if !(g[t] <= CompletedSet(s.l.tasks)) {
      UnmetKeepsInv(host, g, s, s', t);
    } else if !AlreadyCommitted(s.l.journal, t) {
      CommittedByKey(s.l.journal, t);
      var w0 :| Executed(host, s, s', t, cfg, w0);
      var e := Retry(host, w0, t, 0, cfg);
      if e.result.success {
        AcceptedKeepsInv(host, g, s, s', t, e.result, e.attempts);
      } else {
        RejectedKeepsInv(host, g, s, s', t, e.result, e.attempts);
      }
    }
  }
}
