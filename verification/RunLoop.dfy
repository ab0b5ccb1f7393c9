/** The run loop as functions on ledger values: what each operation of the loop leaves behind. */
module RunLoop {
  import opened Prelude
  import opened HashChain
  import opened Topo
  import opened Ledgers
  import TextOrder

  // ---- Bounded retry -------------------------------------------------------------------------------

  function Power2(n: nat): nat { if n == 0 then 1 else 2 * Power2(n - 1) }

  function Backoff(attempt: nat, base: real): real
    requires attempt >= 1
  {
    base * Power2(attempt - 1) as real
  }

  datatype Retried = Retried(result: ExecResult, attempts: nat, w: World)

  /** `execute_with_retry` after `attempt` failed attempts. */
  function Retry(host: Host, w: World, t: string, attempt: nat, cfg: Config): Retried
    decreases if cfg.maxRetries > attempt then cfg.maxRetries - attempt else 0
  {
    var r := host.execute(t, |w.calls|);
    var w1 := w.(calls := w.calls + [Call(t, r)]);
    if !r.success && r.retriable && attempt + 1 <= cfg.maxRetries then
      Retry(host, w1.(sleeps := w1.sleeps + [Backoff(attempt + 1, cfg.backoffBase)]), t, attempt + 1, cfg)
    else
      Retried(r, attempt + 1, w1)
  }

  /** The retry loop reads neither the clock nor the id source. */
  lemma {:induction false} RetryUses(host: Host, w: World, t: string, attempt: nat, cfg: Config)
    ensures var e := Retry(host, w, t, attempt, cfg);
      e.w.ticks == w.ticks && e.w.minted == w.minted && e.w.undone == w.undone && e.w.polls == w.polls
    decreases if cfg.maxRetries > attempt then cfg.maxRetries - attempt else 0
  {
    var r := host.execute(t, |w.calls|);
    if !r.success && r.retriable && attempt + 1 <= cfg.maxRetries {
      var w1 := w.(calls := w.calls + [Call(t, r)]);
      RetryUses(host, w1.(sleeps := w1.sleeps + [Backoff(attempt + 1, cfg.backoffBase)]), t, attempt + 1, cfg);
    }
  }

  // ---- Ledger steps --------------------------------------------------------------------------------

  function LedgerEvent(l: Ledger, kind: Kind, t: Option<string>, at: string, paths: seq<string>): Event {
    Event(kind, t, at, paths, l.scope.clientId, l.scope.projectId)
  }

  function TxnKey(t: string): string { t + "-execute" }

  predicate AlreadyCommitted(journal: seq<Txn>, t: string) {
    exists i :: 0 <= i < |journal| && journal[i].key == TxnKey(t) && journal[i].status == Committed
  }

  /** A lease that was neither released nor has run out; an empty timestamp reads as unset. */
  predicate LeaseActive(lease: Lease, now: string) {
    && lease.releasedAt in {None, Some("")}
    && !(lease.expiresAt.Some? && lease.expiresAt.value != "" && TextOrder.Before(lease.expiresAt.value, now))
  }

  predicate CanAcquire(leases: seq<Lease>, t: string, now: string) {
    forall i :: 0 <= i < |leases| ==> !(leases[i].taskId == t && LeaseActive(leases[i], now))
  }

  /** Open a blocker for `t`: `_escalate` and `_block_unmet_deps` differ in the recorded old status only. */
  function Block(l: Ledger, t: string, reason: string, from: Status, blockerId: string, at: string): (l': Ledger)
    requires t in l.tasks
    ensures l'.tasks.Keys == l.tasks.Keys
  {
    l.(blockers := l.blockers + [Blocker(blockerId, t, reason, "operator")],
       tasks := l.tasks[t := l.tasks[t].(status := Blocked, blockedReason := Some(reason),
                                         decisionOwner := Some("operator"))],
       history := l.history + [HistoryRow(at, t, from, Blocked)],
       events := l.events + [LedgerEvent(l, TaskBlocked, Some(t), at, [])])
  }

  /** Take the lease, open the transaction, start the task. */
  function Begin(l: Ledger, t: string, leaseId: string, txnId: string, acquiredAt: string,
                 startedAt: string): (l': Ledger)
    requires t in l.tasks
    ensures l'.tasks.Keys == l.tasks.Keys && l'.leases != [] && l'.journal != []
  {
    l.(leases := l.leases + [Lease(leaseId, t, acquiredAt, None, None)],
       journal := l.journal + [Txn(txnId, t, TxnKey(t), Open, None)],
       tasks := l.tasks[t := l.tasks[t].(status := InProgress)],
       history := l.history + [HistoryRow(startedAt, t, Pending, InProgress)],
       events := l.events + [LedgerEvent(l, TaskStarted, Some(t), startedAt, [])])
  }

  function CloseTxn(journal: seq<Txn>, attempts: nat, status: TxnStatus): seq<Txn>
    requires journal != []
  {
    var n := |journal| - 1;
    journal[n := journal[n].(status := status, attempts := Some(attempts))]
  }

  function Edits(l: Ledger, t: string, paths: seq<string>, clock: nat -> string, tick: nat): seq<Event> {
    seq(|paths|, i requires 0 <= i < |paths| => LedgerEvent(l, FileEdited, Some(t), clock(tick + i), [paths[i]]))
  }

  /** Record an accepted success: one event per touched path, the evidence if any, then completion and commit. */
  function Accept(l: Ledger, t: string, attempts: nat, r: ExecResult, clock: nat -> string, tick: nat,
                  evidenceId: string): (l': Ledger)
    requires t in l.tasks && l.journal != []
    ensures l'.tasks.Keys == l.tasks.Keys && l'.leases == l.leases
  {
    var at := clock(tick + |r.paths|);
    var entry := l.tasks[t].(status := Completed);
    l.(tasks := l.tasks[t := if r.evidence.Some?
                             then entry.(evidenceRefs := entry.evidenceRefs + [evidenceId], passed := true)
                             else entry],
       evidence := if r.evidence.Some? then l.evidence + [Evidence(evidenceId, t, r.evidence.value)] else l.evidence,
       history := l.history + [HistoryRow(at, t, InProgress, Completed)],
       events := l.events + Edits(l, t, r.paths, clock, tick) + [LedgerEvent(l, TaskCompleted, Some(t), at, [])],
       journal := CloseTxn(l.journal, attempts, Committed))
  }

  function ReasonText(r: ExecResult): string {
    if r.reason in {None, Some("")} then "execution failed" else r.reason.value
  }

  /**
   * Record a final failure: undo what was touched, then open a blocker. Without touched paths the transaction stays
   * open.
   */
  function Reject(l: Ledger, t: string, attempts: nat, r: ExecResult, clock: nat -> string, tick: nat,
                  blockerId: string): (l': Ledger)
    requires t in l.tasks && l.journal != []
    ensures l'.tasks.Keys == l.tasks.Keys && l'.leases == l.leases
  {
    if r.paths == [] then
      Block(l.(journal := CloseTxn(l.journal, attempts, Open)), t, ReasonText(r), InProgress, blockerId, clock(tick))
    else
      Block(l.(journal := CloseTxn(l.journal, attempts, Compensated),
               events := l.events + [LedgerEvent(l, Compensation, Some(t), clock(tick), r.paths)]),
            t, ReasonText(r), InProgress, blockerId, clock(tick + 1))
  }

  function Release(l: Ledger, at: string): Ledger
    requires l.leases != []
  {
    var n := |l.leases| - 1;
    l.(leases := l.leases[n := l.leases[n].(releasedAt := Some(at))])
  }

  /** Ticks of the clock used between the start of a task and the release of its lease. */
  function Ticks(r: ExecResult): nat {
    if r.success then |r.paths| + 1 else if r.paths == [] then 1 else 2
  }

  /** One complete execution of a task: begin, record the outcome, release the lease. */
  function Execution(l: Ledger, t: string, attempts: nat, r: ExecResult, clock: nat -> string, tick: nat,
                     leaseId: string, txnId: string, lastId: string): (l': Ledger)
    requires t in l.tasks
    ensures l'.tasks.Keys == l.tasks.Keys
  {
    var l1 := Begin(l, t, leaseId, txnId, clock(tick), clock(tick + 1));
    var l2 := if r.success then Accept(l1, t, attempts, r, clock, tick + 2, lastId)
              else Reject(l1, t, attempts, r, clock, tick + 2, lastId);
    Release(l2, clock(tick + 2 + Ticks(r)))
  }

  /** `_run_task`. */
  function RunTask(host: Host, s: State, t: string, cfg: Config): (s': State)
    requires t in s.l.tasks
    ensures s'.l.tasks.Keys == s.l.tasks.Keys
  {
    var tick, id := s.w.ticks, s.w.minted;
    if AlreadyCommitted(s.l.journal, t) then s
    else if !CanAcquire(s.l.leases, t, host.clock(tick)) then
      State(Block(s.l, t, "lease conflict", InProgress, host.ids(id), host.clock(tick)),
            s.w.(ticks := tick + 1, minted := id + 1))
    else
      var e := Retry(host, s.w.(ticks := tick + 2, minted := id + 2), t, 0, cfg);
      State(Execution(s.l, t, e.attempts, e.result, host.clock, tick, host.ids(id), host.ids(id + 1), host.ids(id + 2)),
            e.w.(ticks := tick + 3 + Ticks(e.result),
                 minted := if e.result.success && e.result.evidence.None? then id + 2 else id + 3,
                 undone := if e.result.success || e.result.paths == [] then e.w.undone
                           else e.w.undone + [e.result.paths]))
  }

  const UNMET := "dependency not satisfied"

  /** `_block_unmet_deps`. */
  function BlockUnmet(host: Host, s: State, t: string): (s': State)
    requires t in s.l.tasks
    ensures s'.l.tasks.Keys == s.l.tasks.Keys
  {
    State(Block(s.l, t, UNMET, Pending, host.ids(s.w.minted), host.clock(s.w.ticks)),
          s.w.(ticks := s.w.ticks + 1, minted := s.w.minted + 1))
  }

  // ---- The loop ------------------------------------------------------------------------------------

  datatype Turn = Next(s: State) | Stop(s: State, runState: RunState)

  /** One turn for task `t`: skip, stop, run or block. */
  function Visit(host: Host, g: Graph, s: State, t: string, cfg: Config): (turn: Turn)
    requires t in s.l.tasks && t in g
    ensures turn.s.l.tasks.Keys == s.l.tasks.Keys
  {
    if s.l.tasks[t].status == Completed then Next(s)
    else
      var signal := host.control(s.w.polls);
      var s1 := s.(w := s.w.(polls := s.w.polls + 1));
      if signal == Abort then Stop(s1, Aborted)
      else if signal == Pause then Stop(s1, Paused)
      else if g[t] <= CompletedSet(s.l.tasks) then Next(RunTask(host, s1, t, cfg))
      else Next(BlockUnmet(host, s1, t))
  }

  ghost predicate Fits(g: Graph, s: State) {
    s.l.tasks.Keys == g.Keys
  }

  function Loop(host: Host, g: Graph, s: State, order: seq<string>, cfg: Config): (r: (State, RunState))
    requires Fits(g, s) && Elems(order) <= g.Keys
    ensures Fits(g, r.0)
    decreases |order|
  {
    if order == [] then (s, Finished)
    else
      assert order[0] in Elems(order);
      assert Elems(order[1..]) <= Elems(order);
      match Visit(host, g, s, order[0], cfg)
      case Next(s1) => Loop(host, g, s1, order[1..], cfg)
      case Stop(s1, runState) => (s1, runState)
  }

  /** `_reconcile`. */
  function Reconcile(l: Ledger): Ledger {
    var pending, open := |PendingSet(l.tasks)|, |l.blockers|;
    var allowed := pending == 0 && open == 0;
    l.(reconciliation := Reconciliation(allowed, pending, open),
       status := if allowed then LedgerCompleted else if open > 0 then LedgerBlocked else l.status)
  }

  /** `_drive`, up to the gate. */
  ghost function Drive(host: Host, g: Graph, s: State, cfg: Config): (s': State)
    requires Fits(g, s)
    ensures Fits(g, s')
  {
    OrderIsPermutation(g, DefaultRank);
    var r := Loop(host, g, s, TopoOrder(g), cfg);
    State(Reconcile(r.0.l.(runState := r.1)), r.0.w)
  }

  /** A fresh run starts its own executor transcript. */
  function Fresh(m: Manifest, w: World): State {
    State(InitLedger(m), w.(calls := [], sleeps := [], undone := []))
  }

  /** `run` on a valid manifest. */
  ghost function Run(host: Host, m: Manifest, w: World, cfg: Config): (s': State)
    ensures Fits(GraphOf(m.tasks), s')
  {
    Drive(host, GraphOf(m.tasks), Fresh(m, w), cfg)
  }

  /** `resume` with the manifest the ledger was made from. */
  ghost function Resume(host: Host, g: Graph, s: State, cfg: Config): (s': State)
    requires Fits(g, s)
    ensures Fits(g, s')
  {
    Drive(host, g, s.(l := s.l.(runState := Running)), cfg)
  }

  // ---- Operator decisions and landing --------------------------------------------------------------

  const OVERRIDE := "override"

  /** Position of the first open blocker with this id, or the number of blockers. */
  function FindBlocker(blockers: seq<Blocker>, id: string): (i: nat)
    ensures i <= |blockers|
    ensures i < |blockers| ==> blockers[i].blockerId == id
    ensures forall j :: 0 <= j < i ==> blockers[j].blockerId != id
  {
    if blockers == [] then 0
    else if blockers[0].blockerId == id then 0
    else
      var i := FindBlocker(blockers[1..], id);
      assert forall j :: 1 <= j < |blockers| ==> blockers[j] == blockers[1..][j - 1];
      i + 1
  }

  function WithoutBlocker(blockers: seq<Blocker>, id: string): (r: seq<Blocker>)
    ensures forall b :: b in r <==> b in blockers && b.blockerId != id
  {
    if blockers == [] then []
    else
      assert forall b :: b in blockers <==> b == blockers[0] || b in blockers[1..];
      (if blockers[0].blockerId == id then [] else [blockers[0]]) + WithoutBlocker(blockers[1..], id)
  }

  /** `at` lists, in order, exactly the positions whose blocker has another id. */
  ghost predicate KeptPositions(blockers: seq<Blocker>, id: string, at: seq<nat>) {
    && (forall k, l :: 0 <= k < l < |at| ==> at[k] < at[l])
    && forall i: nat :: i in at <==> i < |blockers| && blockers[i].blockerId != id
  }

  lemma PositionsBehind(blockers: seq<Blocker>, id: string, rest: seq<nat>)
    requires blockers != [] && KeptPositions(blockers[1..], id, rest)
    ensures KeptPositions(blockers, id, (if blockers[0].blockerId == id then [] else [0]) + Shifted(rest))
  {
    var at := (if blockers[0].blockerId == id then [] else [0]) + Shifted(rest);
    forall i: nat ensures i in at <==> i < |blockers| && blockers[i].blockerId != id {
      ShiftedHas(rest, i);
      assert i in at <==> i in Shifted(rest) || (i == 0 && blockers[0].blockerId != id);
      if 0 < i < |blockers| { assert blockers[1..][i - 1] == blockers[i]; }
    }
  }

  /** The filter keeps every other blocker once, in place: `at` lists the positions that stay, in order. */
  lemma {:induction false} WithoutKeepsOrder(blockers: seq<Blocker>, id: string) returns (at: seq<nat>)
    ensures KeptPositions(blockers, id, at)
    ensures PickedAt(WithoutBlocker(blockers, id), blockers, at)
  {
    hide KeptPositions, PickedAt;
    if blockers == [] {
      at := [];
      NothingPicked(id);
    } else {
      var rest := WithoutKeepsOrder(blockers[1..], id);
      PositionsBehind(blockers, id, rest);
      PickedBehind(WithoutBlocker(blockers[1..], id), blockers, rest, id);
      at := (if blockers[0].blockerId == id then [] else [0]) + Shifted(rest);
    }
  }

  /** `r` holds the blockers at these positions. */
  ghost predicate PickedAt(r: seq<Blocker>, blockers: seq<Blocker>, at: seq<nat>) {
    |at| == |r| && forall k :: 0 <= k < |at| ==> at[k] < |blockers| && r[k] == blockers[at[k]]
  }

  lemma NothingPicked(id: string)
    ensures KeptPositions([], id, []) && PickedAt([], [], [])
  {
  }

  lemma PickedFromTail(r: seq<Blocker>, blockers: seq<Blocker>, rest: seq<nat>)
    requires blockers != [] && PickedAt(r, blockers[1..], rest)
    ensures PickedAt(r, blockers, Shifted(rest))
  {
    forall k | 0 <= k < |rest| ensures Shifted(rest)[k] < |blockers| && r[k] == blockers[Shifted(rest)[k]] {
      assert r[k] == blockers[1..][rest[k]];
    }
  }

  lemma PickedWithHead(r: seq<Blocker>, blockers: seq<Blocker>, at: seq<nat>)
    requires blockers != [] && PickedAt(r, blockers, at)
    ensures PickedAt([blockers[0]] + r, blockers, [0] + at)
  {
  }

  lemma PickedBehind(r: seq<Blocker>, blockers: seq<Blocker>, rest: seq<nat>, id: string)
    requires blockers != [] && PickedAt(r, blockers[1..], rest)
    ensures PickedAt((if blockers[0].blockerId == id then [] else [blockers[0]]) + r, blockers,
                     (if blockers[0].blockerId == id then [] else [0]) + Shifted(rest))
  {
    hide PickedAt, Shifted;
    PickedFromTail(r, blockers, rest);
    if blockers[0].blockerId == id {
      assert [] + r == r && [] + Shifted(rest) == Shifted(rest);
    } else {
      PickedWithHead(r, blockers, Shifted(rest));
    }
  }

  function Shifted(at: seq<nat>): seq<nat> { seq(|at|, k requires 0 <= k < |at| => at[k] + 1) }

  lemma ShiftedHas(at: seq<nat>, i: nat)
    ensures i in Shifted(at) <==> i > 0 && i - 1 in at
  {
    if i > 0 && i - 1 in at {
      var k :| 0 <= k < |at| && at[k] == i - 1;
      assert Shifted(at)[k] == i;
    }
  }

  /** Put an overridden task back in the queue; its decision owner stays. */
  function Reopen(tasks: map<string, TaskEntry>, t: string): (r: map<string, TaskEntry>)
    ensures r.Keys == tasks.Keys
  {
    if t in tasks then tasks[t := tasks[t].(status := Pending, blockedReason := None)] else tasks
  }

  /** `resolve_blocker` for an actor that passed the authorization check. */
  function Resolve(l: Ledger, id: string, decision: string, actor: string, at: string): (l': Ledger)
    ensures l'.tasks.Keys == l.tasks.Keys
  {
    var i := FindBlocker(l.blockers, id);
    var subject := if i < |l.blockers| then Some(l.blockers[i].taskId) else None;
    var l1 := l.(resolutions := l.resolutions + [ResolutionRow(id, decision, actor, at)],
                 events := l.events + [LedgerEvent(l, Resolution, subject, at, [])]);
    if decision == OVERRIDE && subject.Some? then
      l1.(blockers := WithoutBlocker(l.blockers, id), tasks := Reopen(l.tasks, subject.value))
    else l1
  }

  function EditedPaths(events: seq<Event>): set<string> {
    set i, p | 0 <= i < |events| && events[i].kind == FileEdited && p in events[i].paths :: p
  }

  /** `sorted(...)` of a set of paths. */
  ghost function Sorted(paths: set<string>): seq<string> {
    if paths == {} then []
    else
      var p := First(DefaultRank, paths);
      [p] + Sorted(paths - {p})
  }

  /** `land` when the tree has changes; it is a no-op on a clean tree. */
  ghost function Land(l: Ledger, branch: string, message: string, sha: string, at: string): Ledger {
    var paths := Sorted(EditedPaths(l.events));
    l.(branch := Some(branch),
       commits := l.commits + [CommitRow(sha, message, at, paths)],
       events := l.events + [LedgerEvent(l, Commit, Some("LANDING"), at, paths)],
       requiresLanding := true)
  }

  // ---- Histories -----------------------------------------------------------------------------------

  /** An operation on a persisted ledger. An unauthorized resolution raises and changes nothing. */
  datatype Op =
    | ResumeOp(cfg: Config)
    | ResolveOp(authorized: bool, id: string, decision: string, actor: string, at: string)
    | LandOp(changed: bool, branch: string, message: string, sha: string)

  ghost function Apply(host: Host, g: Graph, s: State, op: Op): (s': State)
    requires Fits(g, s)
    ensures Fits(g, s')
  {
    match op
    case ResumeOp(cfg) => Resume(host, g, s, cfg)
    case ResolveOp(authorized, id, decision, actor, at) =>
      if authorized then s.(l := Resolve(s.l, id, decision, actor, at)) else s
    case LandOp(changed, branch, message, sha) =>
      if changed
      then State(Land(s.l, branch, message, sha, host.clock(s.w.ticks)), s.w.(ticks := s.w.ticks + 1))
      else s
  }

  ghost function ApplyAll(host: Host, g: Graph, s: State, ops: seq<Op>): (s': State)
    requires Fits(g, s)
    ensures Fits(g, s')
  {
    if ops == [] then s
    else Apply(host, g, ApplyAll(host, g, s, ops[..|ops| - 1]), ops[|ops| - 1])
  }

  /** One fresh run followed by any sequence of operations. */
  ghost function History(host: Host, m: Manifest, w: World, cfg: Config, ops: seq<Op>): (s': State)
    ensures Fits(GraphOf(m.tasks), s')
  {
    ApplyAll(host, GraphOf(m.tasks), Run(host, m, w, cfg), ops)
  }
}
