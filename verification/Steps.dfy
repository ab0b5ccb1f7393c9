/** What one turn of the loop can do to a ledger, as relations between the states before and after. */
module Steps {
  import opened Prelude
  import opened HashChain
  import opened Topo
  import opened Ledgers
  import opened RunLoop

  /** The clock never answers with the empty string, which a lease would read as "not released". */
  ghost predicate ClockOk(host: Host) {
    forall n: nat :: host.clock(n) != ""
  }

  predicate Completes(e: Event, t: string) { e.kind == TaskCompleted && e.subject == Some(t) }

  predicate Released(lease: Lease) { lease.releasedAt.Some? && lease.releasedAt.value != "" }

  /** The executor was called n times for t: every call but the last a retriable failure, the last answering r. */
  ghost predicate Called(before: seq<Call>, after: seq<Call>, t: string, r: ExecResult, n: nat) {
    && n >= 1 && |after| == |before| + n && before <= after
    && after[|after| - 1] == Call(t, r)
    && forall i :: |before| <= i < |after| - 1 ==>
         after[i].taskId == t && !after[i].result.success && after[i].result.retriable
  }

  /** Everything a turn never touches. */
  ghost predicate Frame(s: State, s': State, t: string) {
    && s'.l.source == s.l.source && s'.l.scope == s.l.scope
    && s'.l.reconciliation == s.l.reconciliation && s'.l.resolutions == s.l.resolutions
    && s'.l.commits == s.l.commits && s'.l.requiresLanding == s.l.requiresLanding
    && s'.l.runState == s.l.runState && s'.l.status == s.l.status && s'.l.branch == s.l.branch
    && s'.w.minted >= s.w.minted
    && t in s.l.tasks && t in s'.l.tasks && s'.l.tasks == s.l.tasks[t := s'.l.tasks[t]]
    && s.l.events <= s'.l.events && s.l.journal <= s'.l.journal && s.l.leases <= s'.l.leases
    && s.l.history <= s'.l.history && s.l.blockers <= s'.l.blockers && s.l.evidence <= s'.l.evidence
    && forall i :: |s.l.events| <= i < |s'.l.events| ==>
         s'.l.events[i].subject == Some(t) && Scoped(s'.l.events[i], s.l.scope)
  }

  /** The part shared by both ways a task can run: one lease, one transaction, one start. */
  ghost predicate Ran(s: State, s': State, t: string, r: ExecResult, n: nat) {
    && Frame(s, s', t)
    && Called(s.w.calls, s'.w.calls, t, r, n)
    && |s'.l.events| >= |s.l.events| + 2
    && s'.l.events[|s.l.events|].kind == TaskStarted && s'.l.events[|s.l.events|].paths == []
    && (forall i :: |s.l.events| < i < |s'.l.events| ==> s'.l.events[i].kind != TaskStarted)
    && |s'.l.journal| == |s.l.journal| + 1
    && (var txn := s'.l.journal[|s.l.journal|];
        txn.taskId == t && txn.key == TxnKey(t) && txn.attempts == Some(n))
    && |s'.l.leases| == |s.l.leases| + 1
    && s'.l.leases[|s.l.leases|].taskId == t && Released(s'.l.leases[|s.l.leases|])
    && |s'.l.history| == |s.l.history| + 2
    && s'.l.history[|s.l.history|].(at := "") == HistoryRow("", t, Pending, InProgress)
  }

  ghost predicate Accepted(s: State, s': State, t: string, r: ExecResult, n: nat) {
    && Ran(s, s', t, r, n) && r.success
    && |s'.l.events| == |s.l.events| + |r.paths| + 2
    && (forall i :: |s.l.events| < i < |s'.l.events| - 1 ==>
          s'.l.events[i].kind == FileEdited && s'.l.events[i].paths == [r.paths[i - |s.l.events| - 1]])
    && s'.l.events[|s'.l.events| - 1].kind == TaskCompleted && s'.l.events[|s'.l.events| - 1].paths == []
    && s'.l.journal[|s.l.journal|].status == Committed
    && s'.l.tasks[t].status == Completed
    && s'.l.tasks[t].passed == (s.l.tasks[t].passed || r.evidence.Some?)
    && (r.evidence.None? ==> s'.l.tasks[t].evidenceRefs == s.l.tasks[t].evidenceRefs && s'.l.evidence == s.l.evidence)
    && (r.evidence.Some? ==> s'.l.tasks[t].evidenceRefs != [])
    && (r.evidence.Some? ==> |s'.l.evidence| == |s.l.evidence| + 1 && s'.l.evidence[|s.l.evidence|].taskId == t)
    && s'.l.blockers == s.l.blockers
    && s'.l.history[|s.l.history| + 1].(at := "") == HistoryRow("", t, InProgress, Completed)
  }

  ghost predicate Opened(host: Host, s: State, s': State, t: string) {
    && t in s.l.tasks && t in s'.l.tasks
    && |s'.l.events| > |s.l.events|
    && |s'.l.blockers| == |s.l.blockers| + 1 && s.l.blockers <= s'.l.blockers
    && (var b := s'.l.blockers[|s.l.blockers|]; b.taskId == t && b.decisionOwner == "operator")
    && (exists k: nat :: s.w.minted <= k < s'.w.minted && s'.l.blockers[|s.l.blockers|].blockerId == host.ids(k))
    && s'.l.tasks[t] == s.l.tasks[t].(status := Blocked, blockedReason := s'.l.tasks[t].blockedReason,
                                      decisionOwner := Some("operator"))
    && s'.l.evidence == s.l.evidence
    && (forall i :: |s.l.events| <= i < |s'.l.events| ==>
          s'.l.events[i].kind in {TaskStarted, Compensation, TaskBlocked})
    && s'.l.events[|s'.l.events| - 1].kind == TaskBlocked && s'.l.events[|s'.l.events| - 1].paths == []
  }

  ghost predicate Rejected(host: Host, s: State, s': State, t: string, r: ExecResult, n: nat) {
    && Ran(s, s', t, r, n) && !r.success
    && Opened(host, s, s', t)
    && |s'.l.events| == |s.l.events| + (if r.paths == [] then 2 else 3)
    && (r.paths != [] ==>
          s'.l.events[|s.l.events| + 1].kind == Compensation && s'.l.events[|s.l.events| + 1].paths == r.paths)
    && s'.l.journal[|s.l.journal|].status == (if r.paths == [] then Open else Compensated)
    && s'.l.history[|s.l.history| + 1].(at := "") == HistoryRow("", t, InProgress, Blocked)
  }

  ghost predicate Unmet(host: Host, s: State, s': State, t: string) {
    && Frame(s, s', t)
    && s'.w.calls == s.w.calls && s'.l.journal == s.l.journal && s'.l.leases == s.l.leases
    && |s'.l.events| == |s.l.events| + 1
    && Opened(host, s, s', t)
    && s'.l.events[|s.l.events|].kind == TaskBlocked
    && |s'.l.history| == |s.l.history| + 1
    && s'.l.history[|s.l.history|].(at := "") == HistoryRow("", t, Pending, Blocked)
  }

  // ---- Retry -------------------------------------------------------------------------------------------

  function Max0(n: int): nat { if n > 0 then n else 0 }

  function Total(sleeps: seq<real>): real {
    if sleeps == [] then 0.0 else Total(sleeps[..|sleeps| - 1]) + sleeps[|sleeps| - 1]
  }

  lemma BackoffStep(k: nat, base: real)
    requires k >= 1
    ensures Slept(k - 1, base) + Backoff(k, base) == Slept(k, base)
  {
    assert (Power2(k) - 1) as real == (Power2(k - 1) - 1) as real + Power2(k - 1) as real;
  }

  /** Bounds of the retry loop: at most 1 + max(0, maxRetries) calls, all but the last retriable failures. */
  lemma {:induction false} RetryFacts(host: Host, w: World, t: string, attempt: nat, cfg: Config)
    ensures var e := Retry(host, w, t, attempt, cfg);
      && attempt < e.attempts && e.attempts <= attempt + 1 + Max0(cfg.maxRetries - attempt)
      && Called(w.calls, e.w.calls, t, e.result, e.attempts - attempt)
      && e.w == w.(calls := e.w.calls, sleeps := e.w.sleeps)
      && (!e.result.success && e.result.retriable ==> e.attempts > cfg.maxRetries)
      && (forall i :: |w.calls| <= i < |e.w.calls| ==> e.w.calls[i].result == host.execute(t, i))
    decreases Max0(cfg.maxRetries - attempt)
  {
    var r := host.execute(t, |w.calls|);
    if !r.success && r.retriable && attempt + 1 <= cfg.maxRetries {
      var w1 := w.(calls := w.calls + [Call(t, r)], sleeps := w.sleeps + [Backoff(attempt + 1, cfg.backoffBase)]);
      assert Retry(host, w, t, attempt, cfg) == Retry(host, w1, t, attempt + 1, cfg);
      RetryFacts(host, w1, t, attempt + 1, cfg);
      var e := Retry(host, w1, t, attempt + 1, cfg);
      assert e.w.calls[|w.calls|] == w1.calls[|w.calls|] == Call(t, r);
    }
  }

  ghost function Slept(n: nat, base: real): real { base * (Power2(n) - 1) as real }

  /** n attempts sleep base * (2^(n-1) - 1) in total. */
  lemma {:induction false} RetrySleeps(host: Host, w: World, t: string, attempt: nat, cfg: Config)
    ensures var e := Retry(host, w, t, attempt, cfg);
      && attempt < e.attempts
      && |e.w.sleeps| == |w.sleeps| + e.attempts - attempt - 1
      && Total(e.w.sleeps) == Total(w.sleeps) + Slept(e.attempts - 1, cfg.backoffBase) - Slept(attempt, cfg.backoffBase)
    decreases Max0(cfg.maxRetries - attempt)
  {
    hide Slept, Backoff, Total;
    var r := host.execute(t, |w.calls|);
    if !r.success && r.retriable && attempt + 1 <= cfg.maxRetries {
      var sleep := Backoff(attempt + 1, cfg.backoffBase);
      var w1 := w.(calls := w.calls + [Call(t, r)], sleeps := w.sleeps + [sleep]);
      assert Retry(host, w, t, attempt, cfg) == Retry(host, w1, t, attempt + 1, cfg);
      RetrySleeps(host, w1, t, attempt + 1, cfg);
      TotalAppend(w.sleeps, sleep);
      BackoffStep(attempt + 1, cfg.backoffBase);
    }
  }

  /** The first pause is the base, and each further one is twice the one before. */
  ghost predicate Doubling(pauses: seq<real>, base: real) {
    && (pauses != [] ==> pauses[0] == base)
    && forall i :: 0 <= i < |pauses| - 1 ==> pauses[i + 1] == 2.0 * pauses[i]
  }

  lemma {:induction false} RetrySleepsEach(host: Host, w: World, t: string, attempt: nat, cfg: Config)
    ensures var e := Retry(host, w, t, attempt, cfg);
      && w.sleeps <= e.w.sleeps
      && forall j :: |w.sleeps| <= j < |e.w.sleeps| ==>
           e.w.sleeps[j] == cfg.backoffBase * Power2(attempt + j - |w.sleeps|) as real
    decreases Max0(cfg.maxRetries - attempt)
  {
    hide Power2;
    var r := host.execute(t, |w.calls|);
    if !r.success && r.retriable && attempt + 1 <= cfg.maxRetries {
      var w1 := w.(calls := w.calls + [Call(t, r)], sleeps := w.sleeps + [Backoff(attempt + 1, cfg.backoffBase)]);
      assert Retry(host, w, t, attempt, cfg) == Retry(host, w1, t, attempt + 1, cfg);
      RetrySleepsEach(host, w1, t, attempt + 1, cfg);
      var e := Retry(host, w1, t, attempt + 1, cfg);
      assert e.w.sleeps[|w.sleeps|] == w1.sleeps[|w.sleeps|];
    }
  }

  /** An execution of n attempts pauses n - 1 times, from the base on, doubling. */
  lemma RetryDoubles(host: Host, w: World, t: string, cfg: Config)
    ensures var e := Retry(host, w, t, 0, cfg);
      && |e.w.sleeps| == |w.sleeps| + e.attempts - 1 && w.sleeps <= e.w.sleeps
      && Doubling(e.w.sleeps[|w.sleeps|..], cfg.backoffBase)
  {
    hide Retry, Slept, Total, Power2;
    RetrySleeps(host, w, t, 0, cfg);
    RetrySleepsEach(host, w, t, 0, cfg);
    var e, n := Retry(host, w, t, 0, cfg), |w.sleeps|;
    var pauses := e.w.sleeps[n..];
    DoublesAt(cfg.backoffBase, 0);
    forall i | 0 <= i < |pauses| - 1 ensures pauses[i + 1] == 2.0 * pauses[i] {
      DoublesAt(cfg.backoffBase, i);
    }
  }

  lemma DoublesAt(base: real, i: nat)
    ensures base * Power2(0) as real == base && base * Power2(i + 1) as real == 2.0 * (base * Power2(i) as real)
  {
    var p := Power2(i) as real;
    assert Power2(i + 1) as real == 2.0 * p;
    assert base * (2.0 * p) == 2.0 * (base * p);
  }

  lemma TotalAppend(sleeps: seq<real>, sleep: real)
    ensures Total(sleeps + [sleep]) == Total(sleeps) + sleep
  {
    assert (sleeps + [sleep])[..|sleeps|] == sleeps;
  }

  // ---- Turns -------------------------------------------------------------------------------------------

  lemma BlockUnmetEffect(host: Host, s: State, t: string)
    requires t in s.l.tasks
    ensures Unmet(host, s, BlockUnmet(host, s, t), t)
  {
    var s' := BlockUnmet(host, s, t);
    assert s'.l.blockers[|s.l.blockers|].blockerId == host.ids(s.w.minted);
  }

  lemma CloseLast(journal: seq<Txn>, txn: Txn, attempts: nat, status: TxnStatus)
    ensures CloseTxn(journal + [txn], attempts, status)
            == journal + [txn.(status := status, attempts := Some(attempts))]
  {
  }

  lemma ReleaseLast(l: Ledger, leases: seq<Lease>, lease: Lease, at: string)
    requires l.leases == leases + [lease]
    ensures Release(l, at) == l.(leases := leases + [lease.(releasedAt := Some(at))])
  {
    assert l.leases[|leases| := lease.(releasedAt := Some(at))] == leases + [lease.(releasedAt := Some(at))];
  }

  /** The state in which a task that may run calls the executor, and what the executor makes of it. */
  ghost predicate Runs(host: Host, s: State, s': State, t: string, cfg: Config, e: Retried) {
    && ClockOk(host) && t in s.l.tasks
    && !AlreadyCommitted(s.l.journal, t) && CanAcquire(s.l.leases, t, host.clock(s.w.ticks))
    && e == Retry(host, s.w.(ticks := s.w.ticks + 2, minted := s.w.minted + 2), t, 0, cfg)
    && s' == RunTask(host, s, t, cfg)
  }

  // ---- One execution, field by field ---------------------------------------------------------------

  /** What one execution adds to the lists of a ledger: a lease, a transaction, its first, middle and last events. */
  datatype Trace = Trace(lease: Lease, txn: Txn, start: Event, middle: seq<Event>, last: Event)

  ghost predicate SameElse(l: Ledger, l': Ledger) {
    && l'.source == l.source && l'.scope == l.scope && l'.status == l.status && l'.runState == l.runState
    && l'.requiresLanding == l.requiresLanding && l'.reconciliation == l.reconciliation
    && l'.resolutions == l.resolutions && l'.branch == l.branch && l'.commits == l.commits
  }

  ghost predicate TraceOf(l: Ledger, t: string, n: nat, status: TxnStatus, kind: Kind, tr: Trace) {
    && tr.lease.taskId == t && Released(tr.lease)
    && tr.txn == Txn(tr.txn.txnId, t, TxnKey(t), status, Some(n))
    && tr.start == LedgerEvent(l, TaskStarted, Some(t), tr.start.at, [])
    && tr.last == LedgerEvent(l, kind, Some(t), tr.last.at, [])
  }

  ghost predicate Extended(l: Ledger, l': Ledger, t: string, to: Status, tr: Trace) {
    && l'.leases == l.leases + [tr.lease]
    && l'.journal == l.journal + [tr.txn]
    && l'.history == l.history + [HistoryRow(tr.start.at, t, Pending, InProgress),
                                  HistoryRow(tr.last.at, t, InProgress, to)]
    && l'.events == l.events + ([tr.start] + tr.middle + [tr.last])
  }

  /** The middle events of a success: one per touched path. */
  ghost predicate EditsOf(l: Ledger, t: string, r: ExecResult, edits: seq<Event>) {
    && |edits| == |r.paths|
    && forall i :: 0 <= i < |edits| ==> edits[i] == LedgerEvent(l, FileEdited, Some(t), edits[i].at, [r.paths[i]])
  }

  /** The middle events of a failure: one that records the undo, if paths were touched. */
  ghost predicate UndoOf(l: Ledger, t: string, r: ExecResult, undo: seq<Event>) {
    && |undo| == (if r.paths == [] then 0 else 1)
    && (r.paths != [] ==> undo[0] == LedgerEvent(l, Compensation, Some(t), undo[0].at, r.paths))
  }

  ghost predicate CompletedEntry(l: Ledger, l': Ledger, t: string, r: ExecResult, id: string) {
    && t in l.tasks && t in l'.tasks && l'.tasks == l.tasks[t := l'.tasks[t]]
    && l'.tasks[t] == (if r.evidence.Some?
                       then l.tasks[t].(status := Completed, evidenceRefs := l.tasks[t].evidenceRefs + [id],
                                        passed := true)
                       else l.tasks[t].(status := Completed))
    && l'.evidence == (if r.evidence.Some? then l.evidence + [Evidence(id, t, r.evidence.value)] else l.evidence)
    && l'.blockers == l.blockers
  }

  ghost predicate BlockedEntry(l: Ledger, l': Ledger, t: string, r: ExecResult, id: string) {
    && t in l.tasks && t in l'.tasks && l'.tasks == l.tasks[t := l'.tasks[t]]
    && l'.tasks[t] == l.tasks[t].(status := Blocked, blockedReason := Some(ReasonText(r)),
                                  decisionOwner := Some("operator"))
    && l'.blockers == l.blockers + [Blocker(id, t, ReasonText(r), "operator")]
    && l'.evidence == l.evidence
  }

  /** The ledger after a success, in closed form. */
  ghost predicate AcceptForm(l: Ledger, l': Ledger, t: string, n: nat, r: ExecResult, tr: Trace, id: string) {
    && r.success && SameElse(l, l') && TraceOf(l, t, n, Committed, TaskCompleted, tr) && EditsOf(l, t, r, tr.middle)
    && Extended(l, l', t, Completed, tr) && CompletedEntry(l, l', t, r, id)
  }

  function FailedStatus(r: ExecResult): TxnStatus { if r.paths == [] then Open else Compensated }

  /** The ledger after a final failure, in closed form. */
  ghost predicate RejectForm(l: Ledger, l': Ledger, t: string, n: nat, r: ExecResult, tr: Trace, id: string) {
    && !r.success && SameElse(l, l') && TraceOf(l, t, n, FailedStatus(r), TaskBlocked, tr) && UndoOf(l, t, r, tr.middle)
    && Extended(l, l', t, Blocked, tr) && BlockedEntry(l, l', t, r, id)
  }

  lemma AppendChain<T>(events: seq<T>, start: T, middle: seq<T>, last: T)
    ensures (events + [start]) + middle + [last] == events + ([start] + middle + [last])
  {
  }

  /** The ledger in the middle of an execution: started, and then recorded. */
  ghost function Started(l: Ledger, t: string, clock: nat -> string, tick: nat, leaseId: string,
                         txnId: string): (l1: Ledger)
    requires t in l.tasks
    ensures l1.tasks.Keys == l.tasks.Keys && l1.leases != [] && l1.journal != []
  {
    Begin(l, t, leaseId, txnId, clock(tick), clock(tick + 1))
  }

  lemma StartedLists(l: Ledger, t: string, clock: nat -> string, tick: nat, leaseId: string, txnId: string)
    requires t in l.tasks
    ensures var l1 := Started(l, t, clock, tick, leaseId, txnId);
      && l1.leases == l.leases + [Lease(leaseId, t, clock(tick), None, None)]
      && l1.journal == l.journal + [Txn(txnId, t, TxnKey(t), Open, None)]
      && l1.history == l.history + [HistoryRow(clock(tick + 1), t, Pending, InProgress)]
      && l1.events == l.events + [LedgerEvent(l, TaskStarted, Some(t), clock(tick + 1), [])]
  {
  }

  lemma StartedRest(l: Ledger, t: string, clock: nat -> string, tick: nat, leaseId: string, txnId: string)
    requires t in l.tasks
    ensures var l1 := Started(l, t, clock, tick, leaseId, txnId);
      && SameElse(l, l1) && l1.evidence == l.evidence && l1.blockers == l.blockers
      && l1.tasks == l.tasks[t := l.tasks[t].(status := InProgress)]
  {
  }

  lemma AcceptLists(l1: Ledger, l2: Ledger, t: string, n: nat, r: ExecResult, clock: nat -> string, tick: nat,
                    id: string)
    requires t in l1.tasks && l1.journal != [] && l2 == Accept(l1, t, n, r, clock, tick, id)
    ensures l2.leases == l1.leases && l2.journal == CloseTxn(l1.journal, n, Committed)
    ensures l2.history == l1.history + [HistoryRow(clock(tick + |r.paths|), t, InProgress, Completed)]
    ensures l2.events == l1.events + Edits(l1, t, r.paths, clock, tick) +
                         [LedgerEvent(l1, TaskCompleted, Some(t), clock(tick + |r.paths|), [])]
    ensures SameElse(l1, l2) && l2.blockers == l1.blockers
  {
    hide Edits, CloseTxn;
  }

  lemma AcceptEntry(l: Ledger, l1: Ledger, l2: Ledger, t: string, n: nat, r: ExecResult, clock: nat -> string,
                    tick: nat, id: string)
    requires t in l.tasks && t in l1.tasks && l1.journal != [] && l2 == Accept(l1, t, n, r, clock, tick, id)
    requires l1.evidence == l.evidence && l1.blockers == l.blockers
    requires l1.tasks == l.tasks[t := l.tasks[t].(status := InProgress)]
    ensures CompletedEntry(l, l2, t, r, id)
  {
    hide Edits, CloseTxn;
  }

  lemma RejectLists(l1: Ledger, l2: Ledger, t: string, n: nat, r: ExecResult, clock: nat -> string, tick: nat,
                    id: string)
    requires t in l1.tasks && l1.journal != [] && !r.success && l2 == Reject(l1, t, n, r, clock, tick, id)
    ensures l2.leases == l1.leases && l2.journal == CloseTxn(l1.journal, n, FailedStatus(r))
    ensures l2.history == l1.history + [HistoryRow(clock(tick + Ticks(r) - 1), t, InProgress, Blocked)]
    ensures l2.events ==
            l1.events + (if r.paths == [] then [] else [LedgerEvent(l1, Compensation, Some(t), clock(tick), r.paths)]) +
            [LedgerEvent(l1, TaskBlocked, Some(t), clock(tick + Ticks(r) - 1), [])]
    ensures SameElse(l1, l2) && l2.evidence == l1.evidence
  {
    hide CloseTxn, ReasonText;
  }

  lemma RejectEntry(l: Ledger, l1: Ledger, l2: Ledger, t: string, n: nat, r: ExecResult, clock: nat -> string,
                    tick: nat, id: string)
    requires t in l.tasks && t in l1.tasks && l1.journal != [] && l2 == Reject(l1, t, n, r, clock, tick, id)
    requires l1.evidence == l.evidence && l1.blockers == l.blockers
    requires l1.tasks == l.tasks[t := l.tasks[t].(status := InProgress)]
    ensures BlockedEntry(l, l2, t, r, id)
  {
    hide CloseTxn, ReasonText;
  }

  lemma ReleaseRest(l2: Ledger, at: string)
    requires l2.leases != []
    ensures Release(l2, at) == l2.(leases := Release(l2, at).leases)
  {
  }

  /** A lease and a transaction on top of the lists, then closed and released. */
  lemma ClosedLists(l: Ledger, l1: Ledger, l2: Ledger, lease: Lease, txn: Txn, n: nat, status: TxnStatus, at: string)
    requires l1.leases == l.leases + [lease] && l1.journal == l.journal + [txn]
    requires l2.leases == l1.leases && l2.journal == CloseTxn(l1.journal, n, status)
    ensures Release(l2, at).leases == l.leases + [lease.(releasedAt := Some(at))]
    ensures Release(l2, at).journal == l.journal + [txn.(status := status, attempts := Some(n))]
  {
    CloseLast(l.journal, txn, n, status);
    ReleaseLast(l2, l.leases, lease, at);
  }

  lemma EditsAre(l: Ledger, l1: Ledger, t: string, r: ExecResult, clock: nat -> string, tick: nat)
    requires l1.scope == l.scope
    ensures EditsOf(l, t, r, Edits(l1, t, r.paths, clock, tick))
    ensures forall i :: 0 <= i < |r.paths| ==> Edits(l1, t, r.paths, clock, tick)[i].at == clock(tick + i)
  {
  }

  lemma ExecutionAccepts(l: Ledger, t: string, n: nat, r: ExecResult, clock: nat -> string, tick: nat, leaseId: string,
                         txnId: string, id: string)
    returns (tr: Trace)
    requires t in l.tasks && r.success && forall k: nat :: clock(k) != ""
    ensures AcceptForm(l, Execution(l, t, n, r, clock, tick, leaseId, txnId, id), t, n, r, tr, id)
    ensures tr.lease == Lease(leaseId, t, clock(tick), None, Some(clock(tick + 3 + |r.paths|)))
    ensures tr.txn.txnId == txnId && tr.start.at == clock(tick + 1) && tr.last.at == clock(tick + 2 + |r.paths|)
    ensures |tr.middle| == |r.paths| && forall i :: 0 <= i < |r.paths| ==> tr.middle[i].at == clock(tick + 2 + i)
  {
    hide SameElse, CompletedEntry, BlockedEntry;
    hide Begin, Accept, Release, CloseTxn, Edits, TxnKey;
    var l1 := Started(l, t, clock, tick, leaseId, txnId);
    StartedLists(l, t, clock, tick, leaseId, txnId);
    StartedRest(l, t, clock, tick, leaseId, txnId);
    hide Started;
    var l2 := Accept(l1, t, n, r, clock, tick + 2, id);
    AcceptLists(l1, l2, t, n, r, clock, tick + 2, id);
    SameElseChain(l, l1, l2);
    AcceptEntry(l, l1, l2, t, n, r, clock, tick + 2, id);
    var at := clock(tick + 3 + |r.paths|);
    var lease, txn := Lease(leaseId, t, clock(tick), None, None), Txn(txnId, t, TxnKey(t), Open, None);
    ClosedLists(l, l1, l2, lease, txn, n, Committed, at);
    ReleaseRest(l2, at);
    var start := LedgerEvent(l, TaskStarted, Some(t), clock(tick + 1), []);
    var last := LedgerEvent(l, TaskCompleted, Some(t), clock(tick + 2 + |r.paths|), []);
    var edits := Edits(l1, t, r.paths, clock, tick + 2);
    EditsAre(l, l1, t, r, clock, tick + 2);
    AppendChain(l.events, start, edits, last);
    tr := Trace(lease.(releasedAt := Some(at)), txn.(status := Committed, attempts := Some(n)), start, edits, last);
    hide EditsOf;
    EntryKept(l, l2, Release(l2, at), t, r, id);
    TraceClosed(l, t, n, Committed, TaskCompleted, tr);
  }

  lemma SameElseChain(l: Ledger, l1: Ledger, l2: Ledger)
    requires SameElse(l, l1) && SameElse(l1, l2)
    ensures SameElse(l, l2) && l1.scope == l.scope && l2.scope == l.scope
  {
  }

  lemma TraceClosed(l: Ledger, t: string, n: nat, status: TxnStatus, kind: Kind, tr: Trace)
    requires tr.lease.taskId == t && Released(tr.lease)
    requires tr.txn == Txn(tr.txn.txnId, t, TxnKey(t), status, Some(n))
    requires tr.start == LedgerEvent(l, TaskStarted, Some(t), tr.start.at, [])
    requires tr.last == LedgerEvent(l, kind, Some(t), tr.last.at, [])
    ensures TraceOf(l, t, n, status, kind, tr)
  {
  }

  lemma EntryKept(l: Ledger, l2: Ledger, l3: Ledger, t: string, r: ExecResult, id: string)
    requires l3 == l2.(leases := l3.leases)
    ensures CompletedEntry(l, l2, t, r, id) ==> CompletedEntry(l, l3, t, r, id)
    ensures BlockedEntry(l, l2, t, r, id) ==> BlockedEntry(l, l3, t, r, id)
    ensures SameElse(l, l2) ==> SameElse(l, l3)
  {
  }

  lemma ExecutionRejects(l: Ledger, t: string, n: nat, r: ExecResult, clock: nat -> string, tick: nat, leaseId: string,
                         txnId: string, id: string)
    returns (tr: Trace)
    requires t in l.tasks && !r.success && forall k: nat :: clock(k) != ""
    ensures RejectForm(l, Execution(l, t, n, r, clock, tick, leaseId, txnId, id), t, n, r, tr, id)
    ensures tr.lease == Lease(leaseId, t, clock(tick), None, Some(clock(tick + 2 + Ticks(r))))
    ensures tr.txn.txnId == txnId && tr.start.at == clock(tick + 1) && tr.last.at == clock(tick + 1 + Ticks(r))
    ensures r.paths != [] ==> |tr.middle| == 1 && tr.middle[0].at == clock(tick + 2)
  {
    hide SameElse, CompletedEntry, BlockedEntry;
    hide Begin, Reject, Release, CloseTxn, TxnKey, ReasonText;
    var l1 := Started(l, t, clock, tick, leaseId, txnId);
    StartedLists(l, t, clock, tick, leaseId, txnId);
    StartedRest(l, t, clock, tick, leaseId, txnId);
    hide Started;
    var l2 := Reject(l1, t, n, r, clock, tick + 2, id);
    RejectLists(l1, l2, t, n, r, clock, tick + 2, id);
    SameElseChain(l, l1, l2);
    RejectEntry(l, l1, l2, t, n, r, clock, tick + 2, id);
    var at := clock(tick + 2 + Ticks(r));
    var lease, txn := Lease(leaseId, t, clock(tick), None, None), Txn(txnId, t, TxnKey(t), Open, None);
    ClosedLists(l, l1, l2, lease, txn, n, FailedStatus(r), at);
    ReleaseRest(l2, at);
    var start := LedgerEvent(l, TaskStarted, Some(t), clock(tick + 1), []);
    var last := LedgerEvent(l, TaskBlocked, Some(t), clock(tick + 1 + Ticks(r)), []);
    var undo := if r.paths == [] then [] else [LedgerEvent(l, Compensation, Some(t), clock(tick + 2), r.paths)];
    AppendChain(l.events, start, undo, last);
    tr := Trace(lease.(releasedAt := Some(at)), txn.(status := FailedStatus(r), attempts := Some(n)), start, undo,
                last);
    EntryKept(l, l2, Release(l2, at), t, r, id);
    TraceClosed(l, t, n, FailedStatus(r), TaskBlocked, tr);
  }

  // ---- From closed forms to turns ------------------------------------------------------------------

  /** What the new events of an execution are, by position. */
  lemma NewEvents(l: Ledger, l': Ledger, t: string, to: Status, tr: Trace)
    requires Extended(l, l', t, to, tr)
    ensures |l'.events| == |l.events| + |tr.middle| + 2 && l.events <= l'.events
    ensures l'.events[|l.events|] == tr.start && l'.events[|l'.events| - 1] == tr.last
    ensures forall i :: |l.events| < i < |l'.events| - 1 ==> l'.events[i] == tr.middle[i - |l.events| - 1]
  {
    var suffix := [tr.start] + tr.middle + [tr.last];
    forall i | |l.events| < i < |l'.events| - 1 ensures l'.events[i] == tr.middle[i - |l.events| - 1] {
      assert l'.events[i] == suffix[i - |l.events|];
    }
  }

  ghost predicate AllOf(l: Ledger, t: string, middle: seq<Event>) {
    forall i :: 0 <= i < |middle| ==>
      middle[i].subject == Some(t) && Scoped(middle[i], l.scope) && middle[i].kind != TaskStarted
  }

  /** The part of a turn that both outcomes share. */
  lemma RanShape(s: State, s': State, t: string, n: nat, r: ExecResult, status: TxnStatus, kind: Kind, to: Status,
                 tr: Trace)
    requires SameElse(s.l, s'.l) && TraceOf(s.l, t, n, status, kind, tr) && Extended(s.l, s'.l, t, to, tr)
    requires AllOf(s.l, t, tr.middle) && kind != TaskStarted
    requires t in s.l.tasks && t in s'.l.tasks && s'.l.tasks == s.l.tasks[t := s'.l.tasks[t]]
    requires s.l.blockers <= s'.l.blockers && s.l.evidence <= s'.l.evidence
    requires Called(s.w.calls, s'.w.calls, t, r, n) && s'.w.minted >= s.w.minted
    ensures Ran(s, s', t, r, n)
  {
    hide Called, TxnKey;
    NewEvents(s.l, s'.l, t, to, tr);
    forall i | |s.l.events| <= i < |s'.l.events|
      ensures s'.l.events[i].subject == Some(t) && Scoped(s'.l.events[i], s.l.scope)
      ensures i > |s.l.events| ==> s'.l.events[i].kind != TaskStarted
    {
      if |s.l.events| < i < |s'.l.events| - 1 { assert s'.l.events[i] == tr.middle[i - |s.l.events| - 1]; }
    }
  }

  lemma AcceptShape(s: State, s': State, t: string, n: nat, r: ExecResult, tr: Trace, id: string)
    requires AcceptForm(s.l, s'.l, t, n, r, tr, id)
    requires Called(s.w.calls, s'.w.calls, t, r, n) && s'.w.minted >= s.w.minted
    ensures Accepted(s, s', t, r, n)
  {
    hide Called;
    RanShape(s, s', t, n, r, Committed, TaskCompleted, Completed, tr);
    NewEvents(s.l, s'.l, t, Completed, tr);
    hide Ran, SameElse;
  }

  lemma RejectShape(host: Host, s: State, s': State, t: string, n: nat, r: ExecResult, tr: Trace, k: nat)
    requires RejectForm(s.l, s'.l, t, n, r, tr, host.ids(k))
    requires Called(s.w.calls, s'.w.calls, t, r, n)
    requires s.w.minted <= k < s'.w.minted
    ensures Rejected(host, s, s', t, r, n)
  {
    hide Called, ReasonText;
    RanShape(s, s', t, n, r, FailedStatus(r), TaskBlocked, Blocked, tr);
    NewEvents(s.l, s'.l, t, Blocked, tr);
    hide Ran, SameElse;
    OpenedShape(host, s, s', t, r, tr, k);
  }

  lemma OpenedShape(host: Host, s: State, s': State, t: string, r: ExecResult, tr: Trace, k: nat)
    requires BlockedEntry(s.l, s'.l, t, r, host.ids(k)) && UndoOf(s.l, t, r, tr.middle)
    requires Extended(s.l, s'.l, t, Blocked, tr)
    requires tr.start.kind == TaskStarted && tr.last.kind == TaskBlocked && tr.last.paths == []
    requires s.w.minted <= k < s'.w.minted
    ensures Opened(host, s, s', t)
  {
    hide ReasonText;
    NewEvents(s.l, s'.l, t, Blocked, tr);
    forall i | |s.l.events| <= i < |s'.l.events|
      ensures s'.l.events[i].kind in {TaskStarted, Compensation, TaskBlocked}
    {
      if |s.l.events| < i < |s'.l.events| - 1 { assert s'.l.events[i] == tr.middle[i - |s.l.events| - 1]; }
    }
    assert s'.l.blockers[|s.l.blockers|].blockerId == host.ids(k);
  }

  lemma RunTaskExecutes(host: Host, s: State, s': State, t: string, cfg: Config, e: Retried)
    requires Runs(host, s, s', t, cfg, e)
    ensures s'.l == Execution(s.l, t, e.attempts, e.result, host.clock, s.w.ticks,
                              host.ids(s.w.minted), host.ids(s.w.minted + 1), host.ids(s.w.minted + 2))
    ensures Called(s.w.calls, s'.w.calls, t, e.result, e.attempts) && s'.w.minted >= s.w.minted
    ensures !e.result.success ==> s'.w.minted == s.w.minted + 3
  {
    hide Execution, Retry, Block, AlreadyCommitted, CanAcquire, Called, Ticks;
    RetryFacts(host, s.w.(ticks := s.w.ticks + 2, minted := s.w.minted + 2), t, 0, cfg);
  }

  lemma AcceptEffect(host: Host, s: State, s': State, t: string, cfg: Config, e: Retried)
    requires Runs(host, s, s', t, cfg, e) && e.result.success
    ensures Accepted(s, s', t, e.result, e.attempts)
  {
    hide AcceptForm, Accepted, Called, RunTask, Execution;
    RunTaskExecutes(host, s, s', t, cfg, e);
    var id := host.ids(s.w.minted + 2);
    var tr := ExecutionAccepts(s.l, t, e.attempts, e.result, host.clock, s.w.ticks, host.ids(s.w.minted),
                               host.ids(s.w.minted + 1), id);
    AcceptShape(s, s', t, e.attempts, e.result, tr, id);
  }

  lemma RejectEffect(host: Host, s: State, s': State, t: string, cfg: Config, e: Retried)
    requires Runs(host, s, s', t, cfg, e) && !e.result.success
    ensures Rejected(host, s, s', t, e.result, e.attempts)
  {
    hide RejectForm, Rejected, Called, RunTask, Execution;
    RunTaskExecutes(host, s, s', t, cfg, e);
    var tr := ExecutionRejects(s.l, t, e.attempts, e.result, host.clock, s.w.ticks, host.ids(s.w.minted),
                               host.ids(s.w.minted + 1), host.ids(s.w.minted + 2));
    RejectShape(host, s, s', t, e.attempts, e.result, tr, s.w.minted + 2);
  }

  // ---- One turn of the loop ----------------------------------------------------------------------------

  ghost predicate LeasesReleased(l: Ledger) {
    forall i :: 0 <= i < |l.leases| ==> Released(l.leases[i])
  }

  ghost predicate Idle(s: State, s': State) {
    s'.l == s.l && s'.w.calls == s.w.calls && s'.w.minted == s.w.minted
  }

  ghost predicate Executed(host: Host, s: State, s': State, t: string, cfg: Config, w0: World) {
    var e := Retry(host, w0, t, 0, cfg);
    && w0.calls == s.w.calls
    && if e.result.success then Accepted(s, s', t, e.result, e.attempts)
       else Rejected(host, s, s', t, e.result, e.attempts)
  }

  /** Which of the four things happens on a turn, and when. The lease-conflict branch is not among them. */
  ghost predicate Turned(host: Host, g: Graph, s: State, s': State, t: string, cfg: Config, stopped: bool)
    requires t in s.l.tasks && t in g
  {
    if stopped || s.l.tasks[t].status == Completed then Idle(s, s')
    else if !(g[t] <= CompletedSet(s.l.tasks)) then Unmet(host, s, s', t)
    else if AlreadyCommitted(s.l.journal, t) then Idle(s, s')
    else exists w0 :: Executed(host, s, s', t, cfg, w0)
  }

  /** With every lease released, a task can always be leased. */
  lemma ReleasedMeansAcquirable(l: Ledger, t: string, now: string)
    requires LeasesReleased(l)
    ensures CanAcquire(l.leases, t, now)
  {
  }

  lemma AcceptedAfterPoll(s: State, s1: State, s': State, t: string, r: ExecResult, n: nat)
    requires s1.l == s.l && s1.w.calls == s.w.calls && s1.w.minted == s.w.minted
    requires Accepted(s1, s', t, r, n)
    ensures Accepted(s, s', t, r, n)
  {
    hide Called;
    assert Frame(s, s', t);
    hide Frame;
  }

  lemma OpenedAfterPoll(host: Host, s: State, s1: State, s': State, t: string)
    requires s1.l == s.l && s1.w.calls == s.w.calls && s1.w.minted == s.w.minted
    ensures Opened(host, s1, s', t) ==> Opened(host, s, s', t)
  {
  }

  lemma RejectedAfterPoll(host: Host, s: State, s1: State, s': State, t: string, r: ExecResult, n: nat)
    requires s1.l == s.l && s1.w.calls == s.w.calls && s1.w.minted == s.w.minted
    requires Rejected(host, s1, s', t, r, n)
    ensures Rejected(host, s, s', t, r, n)
  {
    OpenedAfterPoll(host, s, s1, s', t);
    hide Called, Opened;
    assert Frame(s, s', t);
    hide Frame;
  }

  lemma UnmetAfterPoll(host: Host, s: State, s1: State, s': State, t: string)
    requires s1.l == s.l && s1.w.calls == s.w.calls && s1.w.minted == s.w.minted
    requires Unmet(host, s1, s', t)
    ensures Unmet(host, s, s', t)
  {
    OpenedAfterPoll(host, s, s1, s', t);
    hide Opened;
  }

  lemma RunEffect(host: Host, s: State, s1: State, t: string, cfg: Config)
    requires ClockOk(host) && LeasesReleased(s.l) && t in s.l.tasks && !AlreadyCommitted(s.l.journal, t)
    requires s1.l == s.l && s1.w.calls == s.w.calls && s1.w.minted == s.w.minted
    ensures exists w0 :: Executed(host, s, RunTask(host, s1, t, cfg), t, cfg, w0)
  {
    hide Accepted, Rejected, RunTask, Retry, AlreadyCommitted, CanAcquire, LeasesReleased;
    ReleasedMeansAcquirable(s.l, t, host.clock(s1.w.ticks));
    var w0 := s1.w.(ticks := s1.w.ticks + 2, minted := s1.w.minted + 2);
    var e := Retry(host, w0, t, 0, cfg);
    var s' := RunTask(host, s1, t, cfg);
    if e.result.success {
      AcceptEffect(host, s1, s', t, cfg, e);
      AcceptedAfterPoll(s, s1, s', t, e.result, e.attempts);
    } else {
      RejectEffect(host, s1, s', t, cfg, e);
      RejectedAfterPoll(host, s, s1, s', t, e.result, e.attempts);
    }
    assert Executed(host, s, s', t, cfg, w0);
  }

  lemma VisitEffect(host: Host, g: Graph, s: State, t: string, cfg: Config)
    requires ClockOk(host) && LeasesReleased(s.l) && t in s.l.tasks && t in g
    ensures var turn := Visit(host, g, s, t, cfg); Turned(host, g, s, turn.s, t, cfg, turn.Stop?)
  {
    hide Unmet, Executed, BlockUnmet, AlreadyCommitted, LeasesReleased;
    var s1 := s.(w := s.w.(polls := s.w.polls + 1));
    BlockUnmetEffect(host, s1, t);
    UnmetAfterPoll(host, s, s1, BlockUnmet(host, s1, t), t);
    hide RunTask;
    if AlreadyCommitted(s.l.journal, t) {
      CommittedIsIdle(host, s1, t, cfg);
    } else {
      RunEffect(host, s, s1, t, cfg);
    }
  }

  lemma CommittedIsIdle(host: Host, s: State, t: string, cfg: Config)
    requires t in s.l.tasks && AlreadyCommitted(s.l.journal, t)
    ensures RunTask(host, s, t, cfg) == s
  {
  }
}
