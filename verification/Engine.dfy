/**
 * The run loop in the imperative form of the source: one ledger object mutated in place, one port for the injected
 * callables. Every method leaves behind exactly what the function of the same name in RunLoop says.
 */
module Engine {
  import opened Prelude
  import opened HashChain
  import opened Topo
  import opened Ledgers
  import opened RunLoop

  // ---- Injected callables --------------------------------------------------------------------------

  /** The clock, id source, operator switch, executor and sleep of one process; `w` counts their uses. */
  class Port {
    const host: Host
    var w: World

    constructor (host: Host, w: World)
      ensures this.host == host && this.w == w
    {
      this.host, this.w := host, w;
    }

    /** A fresh run is handed its own executor and sleep. */
    method NewTranscript()
      modifies this
      ensures w == old(w).(calls := [], sleeps := [], undone := [])
    {
      w := w.(calls := [], sleeps := [], undone := []);
    }

    method Clock() returns (at: string)
      modifies this
      ensures at == host.clock(old(w.ticks)) && w == old(w).(ticks := old(w.ticks) + 1)
    {
      at := host.clock(w.ticks);
      w := w.(ticks := w.ticks + 1);
    }

    method MintId() returns (id: string)
      modifies this
      ensures id == host.ids(old(w.minted)) && w == old(w).(minted := old(w.minted) + 1)
    {
      id := host.ids(w.minted);
      w := w.(minted := w.minted + 1);
    }

    method Control() returns (signal: Signal)
      modifies this
      ensures signal == host.control(old(w.polls)) && w == old(w).(polls := old(w.polls) + 1)
    {
      signal := host.control(w.polls);
      w := w.(polls := w.polls + 1);
    }

    method Execute(t: string) returns (r: ExecResult)
      modifies this
      ensures r == host.execute(t, |old(w.calls)|) && w == old(w).(calls := old(w.calls) + [Call(t, r)])
    {
      r := host.execute(t, |w.calls|);
      w := w.(calls := w.calls + [Call(t, r)]);
    }

    method Sleep(pause: real)
      modifies this
      ensures w == old(w).(sleeps := old(w.sleeps) + [pause])
    {
      w := w.(sleeps := w.sleeps + [pause]);
    }

    method Compensate(paths: seq<string>)
      modifies this
      ensures w == old(w).(undone := old(w.undone) + [paths])
    {
      w := w.(undone := w.undone + [paths]);
    }
  }

  /** `execute_with_retry`: the attempt counter grows until success, a final failure, or the retry bound. */
  method ExecuteWithRetry(port: Port, t: string, cfg: Config) returns (r: ExecResult, attempts: nat)
    modifies port
    ensures var e := Retry(port.host, old(port.w), t, 0, cfg); r == e.result && attempts == e.attempts && port.w == e.w
  {
    attempts := 0;
    while true
      invariant Retry(port.host, port.w, t, attempts, cfg) == Retry(port.host, old(port.w), t, 0, cfg)
      decreases if cfg.maxRetries > attempts then cfg.maxRetries - attempts else 0
    {
      attempts := attempts + 1;
      r := port.Execute(t);
      if r.success { return; }
      if r.retriable && attempts <= cfg.maxRetries {
        port.Sleep(Backoff(attempts, cfg.backoffBase));
        continue;
      }
      return;
    }
  }

  // ---- The ledger object ---------------------------------------------------------------------------

  function Bodies(log: seq<LogEvent>): seq<Event> {
    seq(|log|, i requires 0 <= i < |log| => log[i].event)
  }

  lemma AppendSeals(h: Hash, log: seq<LogEvent>, e: Event)
    requires log == Seal(h, Bodies(log))
    ensures var log' := log + [Stamped(h, log, e)];
      log' == Seal(h, Bodies(log')) && Bodies(log') == Bodies(log) + [e]
  {
    hide Stamped;
    var log' := log + [Stamped(h, log, e)];
    StampedKeepsEvent(h, log, e);
    assert Bodies(log') == Bodies(log) + [e];
    SealAppend(h, Bodies(log), e);
  }

  lemma StampedKeepsEvent(h: Hash, log: seq<LogEvent>, e: Event)
    ensures Stamped(h, log, e).event == e
  {
  }

  function StatusMoved(l: Ledger, t: string, from: Status, to: Status, kind: Kind, at: string): (l': Ledger)
    requires t in l.tasks
    ensures l'.tasks.Keys == l.tasks.Keys && l'.journal == l.journal
  {
    l.(tasks := l.tasks[t := l.tasks[t].(status := to)], history := l.history + [HistoryRow(at, t, from, to)],
       events := l.events + [LedgerEvent(l, kind, Some(t), at, [])])
  }

  function Evidenced(l: Ledger, t: string, r: ExecResult, evidenceId: string): (l': Ledger)
    requires t in l.tasks
    ensures l'.tasks.Keys == l.tasks.Keys && l'.journal == l.journal
  {
    if r.evidence.None? then l
    else l.(evidence := l.evidence + [Evidence(evidenceId, t, r.evidence.value)],
            tasks := l.tasks[t := l.tasks[t].(evidenceRefs := l.tasks[t].evidenceRefs + [evidenceId], passed := true)])
  }

  function Finish(l: Ledger, t: string, attempts: nat, at: string): Ledger
    requires t in l.tasks && l.journal != []
  {
    StatusMoved(l, t, InProgress, Completed, TaskCompleted, at).(journal := CloseTxn(l.journal, attempts, Committed))
  }

  /** An accepted success is its edits, then its evidence, then its completion. */
  lemma AcceptInSteps(l: Ledger, t: string, attempts: nat, r: ExecResult, clock: nat -> string, tick: nat,
                      evidenceId: string)
    requires t in l.tasks && l.journal != []
    ensures var l1 := Evidenced(l.(events := l.events + Edits(l, t, r.paths, clock, tick)), t, r, evidenceId);
      Finish(l1, t, attempts, clock(tick + |r.paths|)) == Accept(l, t, attempts, r, clock, tick, evidenceId)
  {
    hide Edits, CloseTxn;
  }

  /** The ledger after an undo: the compensation event, and the transaction closed as compensated. */
  function Undone(l: Ledger, t: string, attempts: nat, paths: seq<string>, at: string): (l': Ledger)
    requires l.journal != []
    ensures l'.tasks == l.tasks
  {
    l.(events := l.events + [LedgerEvent(l, Compensation, Some(t), at, paths)],
       journal := CloseTxn(l.journal, attempts, Compensated))
  }

  lemma CloseTwice(journal: seq<Txn>, attempts: nat, status: TxnStatus, last: TxnStatus)
    requires journal != []
    ensures CloseTxn(journal, attempts, status) != []
    ensures CloseTxn(CloseTxn(journal, attempts, status), attempts, last) == CloseTxn(journal, attempts, last)
  {
  }

  /** A recorded failure is its attempts, then the undo if paths were touched, then its blocker. */
  lemma RejectInSteps(l: Ledger, t: string, attempts: nat, r: ExecResult, clock: nat -> string, tick: nat,
                      blockerId: string)
    requires t in l.tasks && l.journal != []
    ensures var l1 := l.(journal := CloseTxn(l.journal, attempts, Open));
      l1.journal != []
      && Reject(l, t, attempts, r, clock, tick, blockerId) ==
         if r.paths == [] then Block(l1, t, ReasonText(r), InProgress, blockerId, clock(tick))
         else Block(Undone(l1, t, attempts, r.paths, clock(tick)), t, ReasonText(r), InProgress, blockerId,
                    clock(tick + 1))
  {
    CloseTwice(l.journal, attempts, Open, Compensated);
    hide CloseTxn, ReasonText, Block;
  }

  class RunLedger {
    const h: Hash
    const source: Source
    const scope: Scope
    var status: LedgerStatus
    var runState: RunState
    var requiresLanding: bool
    var tasks: map<string, TaskEntry>
    var leases: seq<Lease>
    var evidence: seq<Evidence>
    var blockers: seq<Blocker>
    var reconciliation: Reconciliation
    var journal: seq<Txn>
    var history: seq<HistoryRow>
    var log: seq<LogEvent>
    var resolutions: seq<ResolutionRow>
    var branch: Option<string>
    var commits: seq<CommitRow>

    /** The stored log is the hash-chained form of its own events. */
    ghost predicate Valid()
      reads this`log
    {
      log == Seal(h, Bodies(log))
    }

    function Value(): Ledger reads this {
      Ledger(source, scope, status, runState, requiresLanding, tasks, leases, evidence, blockers, reconciliation,
             journal, history, Bodies(log), resolutions, branch, commits)
    }

    /** `_init_ledger`. */
    constructor (h: Hash, m: Manifest)
      ensures Valid() && Value() == InitLedger(m) && this.h == h
    {
      var g := GraphOf(m.tasks);
      this.h, source, scope := h, m.source, m.scope;
      status, runState, requiresLanding := LedgerInProgress, Running, false;
      tasks := map t | t in g.Keys :: TaskEntry(Pending, [], false, None, None);
      leases, evidence, blockers, journal, history := [], [], [], [], [];
      reconciliation := Reconciliation(false, |g|, 0);
      log, resolutions, branch, commits := [], [], None, [];
    }

    /** `append_event`: number, link and hash the event, then append it. */
    method AppendEvent(e: Event)
      requires Valid()
      modifies this`log
      ensures Valid() && Value() == old(Value()).(events := old(Value()).events + [e])
      ensures log == old(log) + [Stamped(h, old(log), e)]
    {
      hide Seal, Bodies, EventHash;
      AppendSeals(h, log, e);
      var previous := if log == [] then None else Some(log[|log| - 1].hash);
      var sequence := |log| + 1;
      log := log + [LogEvent(e, sequence, previous, EventHash(h, sequence, previous, e))];
    }

    method SetStatus(t: string, status: Status)
      requires t in tasks
      modifies this`tasks
      ensures tasks == old(tasks)[t := old(tasks)[t].(status := status)]
    {
      tasks := tasks[t := tasks[t].(status := status)];
    }

    method AddHistory(t: string, from: Status, to: Status, at: string)
      modifies this`history
      ensures history == old(history) + [HistoryRow(at, t, from, to)]
    {
      history := history + [HistoryRow(at, t, from, to)];
    }

    function EventOf(kind: Kind, t: string, at: string, paths: seq<string>): Event {
      Event(kind, Some(t), at, paths, scope.clientId, scope.projectId)
    }

    /** The three writes every state change makes: status, history row, log event. */
    method MoveTask(t: string, from: Status, to: Status, kind: Kind, at: string)
      requires Valid() && t in tasks
      modifies this`tasks, this`history, this`log
      ensures Valid() && Value() == StatusMoved(old(Value()), t, from, to, kind, at)
    {
      hide Bodies, RunLedger.Valid, Stamped;
      SetStatus(t, to);
      AddHistory(t, from, to, at);
      AppendEvent(EventOf(kind, t, at, []));
    }

    /** The common body of `_escalate` and `_block_unmet_deps`. */
    method OpenBlocker(t: string, reason: string, from: Status, blockerId: string, at: string)
      requires Valid() && t in tasks
      modifies this`blockers, this`tasks, this`history, this`log
      ensures Valid() && Value() == Block(old(Value()), t, reason, from, blockerId, at)
    {
      hide Bodies, RunLedger.Valid;
      blockers := blockers + [Blocker(blockerId, t, reason, "operator")];
      tasks := tasks[t := tasks[t].(blockedReason := Some(reason), decisionOwner := Some("operator"))];
      MoveTask(t, from, Blocked, TaskBlocked, at);
    }

    method StartTask(t: string, leaseId: string, txnId: string, acquiredAt: string, startedAt: string)
      requires Valid() && t in tasks
      modifies this`leases, this`journal, this`tasks, this`history, this`log
      ensures Valid() && Value() == Begin(old(Value()), t, leaseId, txnId, acquiredAt, startedAt)
    {
      hide Bodies, RunLedger.Valid, TxnKey;
      leases := leases + [Lease(leaseId, t, acquiredAt, None, None)];
      journal := journal + [Txn(txnId, t, TxnKey(t), Open, None)];
      MoveTask(t, Pending, InProgress, TaskStarted, startedAt);
    }

    /** One `file_edited` event per touched path, each with its own reading of the clock. */
    method RecordEdits(port: Port, t: string, paths: seq<string>)
      requires Valid()
      modifies this`log, port
      ensures Valid() && port.w == old(port.w).(ticks := old(port.w.ticks) + |paths|)
      ensures var l := old(Value());
        Value() == l.(events := l.events + Edits(l, t, paths, port.host.clock, old(port.w.ticks)))
    {
      hide Bodies, RunLedger.Valid, Stamped;
      ghost var l, w := Value(), port.w;
      assert l.events + [] == l.events && Edits(l, t, [], port.host.clock, w.ticks) == [];
      for i := 0 to |paths|
        invariant Valid() && port.w == w.(ticks := w.ticks + i)
        invariant Value() == l.(events := l.events + Edits(l, t, paths[..i], port.host.clock, w.ticks))
      {
        var at := port.Clock();
        AppendEvent(EventOf(FileEdited, t, at, [paths[i]]));
        ghost var before := Edits(l, t, paths[..i], port.host.clock, w.ticks);
        ghost var now := Edits(l, t, paths[..i + 1], port.host.clock, w.ticks);
        assert now == before + [LedgerEvent(l, FileEdited, Some(t), at, [paths[i]])];
        assert l.events + now == (l.events + before) + [LedgerEvent(l, FileEdited, Some(t), at, [paths[i]])];
      }
      assert paths[..|paths|] == paths;
    }

    /** Evidence, when there is any, makes the acceptance pass. */
    method RecordEvidence(port: Port, t: string, r: ExecResult)
      requires Valid() && t in tasks
      modifies this`evidence, this`tasks, port
      ensures Valid() && Value() == Evidenced(old(Value()), t, r, port.host.ids(old(port.w.minted)))
      ensures port.w == old(port.w).(minted := if r.evidence.Some? then old(port.w.minted) + 1 else old(port.w.minted))
    {
      hide Bodies, RunLedger.Valid;
      if r.evidence.Some? {
        var evidenceId := port.MintId();
        evidence := evidence + [Evidence(evidenceId, t, r.evidence.value)];
        tasks := tasks[t := tasks[t].(evidenceRefs := tasks[t].evidenceRefs + [evidenceId], passed := true)];
      }
    }

    method CompleteTask(t: string, attempts: nat, at: string)
      requires Valid() && t in tasks && journal != []
      modifies this
      ensures Valid() && Value() == Finish(old(Value()), t, attempts, at)
    {
      hide Bodies, RunLedger.Valid, CloseTxn;
      MoveTask(t, InProgress, Completed, TaskCompleted, at);
      journal := CloseTxn(journal, attempts, Committed);
    }

    /** The success branch of `_run_task`. */
    method RecordSuccess(port: Port, t: string, attempts: nat, r: ExecResult)
      requires Valid() && t in tasks && journal != []
      modifies this, port
      ensures Valid()
      ensures Value() == Accept(old(Value()), t, attempts, r, port.host.clock, old(port.w.ticks),
                                port.host.ids(old(port.w.minted)))
      ensures port.w == old(port.w).(ticks := old(port.w.ticks) + |r.paths| + 1,
                                     minted := if r.evidence.Some? then old(port.w.minted) + 1 else old(port.w.minted))
    {
      hide Edits, Bodies, RunLedger.Valid, Finish, Evidenced, Accept;
      AcceptInSteps(Value(), t, attempts, r, port.host.clock, port.w.ticks, port.host.ids(port.w.minted));
      RecordEdits(port, t, r.paths);
      RecordEvidence(port, t, r);
      var completedAt := port.Clock();
      CompleteTask(t, attempts, completedAt);
    }

    /**
     * The failure branch of `_run_task`. Without touched paths nothing is compensated and the transaction stays open.
     */
    method RecordFailure(port: Port, t: string, attempts: nat, r: ExecResult)
      requires Valid() && t in tasks && journal != []
      modifies this, port
      ensures Valid()
      ensures Value() == Reject(old(Value()), t, attempts, r, port.host.clock, old(port.w.ticks),
                                port.host.ids(old(port.w.minted)))
      ensures port.w == old(port.w).(ticks := old(port.w.ticks) + if r.paths == [] then 1 else 2,
                                     minted := old(port.w.minted) + 1,
                                     undone := if r.paths == [] then old(port.w.undone)
                                               else old(port.w.undone) + [r.paths])
    {
      hide Bodies, RunLedger.Valid, ReasonText, Block, Undone, Reject, CloseTxn;
      RejectInSteps(Value(), t, attempts, r, port.host.clock, port.w.ticks, port.host.ids(port.w.minted));
      CountAttempts(attempts);
      UndoTouched(port, t, attempts, r.paths);
      var blockedAt := port.Clock();
      var blockerId := port.MintId();
      OpenBlocker(t, ReasonText(r), InProgress, blockerId, blockedAt);
    }

    method CountAttempts(attempts: nat)
      requires Valid() && journal != []
      modifies this`journal
      ensures Valid() && journal != []
      ensures Value() == old(Value()).(journal := CloseTxn(old(Value()).journal, attempts, Open))
    {
      hide Bodies, RunLedger.Valid, CloseTxn;
      CloseTwice(journal, attempts, Open, Open);
      journal := CloseTxn(journal, attempts, Open);
    }

    /** Compensate and record it, when there is something to undo. */
    method UndoTouched(port: Port, t: string, attempts: nat, paths: seq<string>)
      requires Valid() && journal != []
      modifies this`log, this`journal, port
      ensures Valid()
      ensures Value() == if paths == [] then old(Value())
                         else Undone(old(Value()), t, attempts, paths, port.host.clock(old(port.w.ticks)))
      ensures port.w == if paths == [] then old(port.w)
                        else old(port.w).(ticks := old(port.w.ticks) + 1, undone := old(port.w.undone) + [paths])
    {
      hide Bodies, RunLedger.Valid, Undone;
      if paths != [] {
        port.Compensate(paths);
        var undoneAt := port.Clock();
        RecordUndo(t, attempts, paths, undoneAt);
      }
    }

    method RecordUndo(t: string, attempts: nat, paths: seq<string>, at: string)
      requires Valid() && journal != []
      modifies this`log, this`journal
      ensures Valid() && Value() == Undone(old(Value()), t, attempts, paths, at)
    {
      hide Bodies, RunLedger.Valid, Stamped, CloseTxn;
      AppendEvent(EventOf(Compensation, t, at, paths));
      journal := CloseTxn(journal, attempts, Compensated);
    }

    /** Record the outcome of the last attempt. */
    method RecordOutcome(port: Port, t: string, attempts: nat, r: ExecResult)
      requires Valid() && t in tasks && journal != []
      modifies this, port
      ensures Valid()
      ensures var clock, tick, lastId := port.host.clock, old(port.w.ticks), port.host.ids(old(port.w.minted));
        Value() == if r.success then Accept(old(Value()), t, attempts, r, clock, tick, lastId)
                   else Reject(old(Value()), t, attempts, r, clock, tick, lastId)
      ensures var w := old(port.w);
        port.w == w.(ticks := w.ticks + Ticks(r),
                     minted := if r.success && r.evidence.None? then w.minted else w.minted + 1,
                     undone := if r.success || r.paths == [] then w.undone else w.undone + [r.paths])
    {
      hide Bodies, RunLedger.Valid, RunLedger.Value, Accept, Reject;
      if r.success {
        RecordSuccess(port, t, attempts, r);
      } else {
        RecordFailure(port, t, attempts, r);
      }
    }

    method ReleaseLease(at: string)
      requires Valid() && leases != []
      modifies this`leases
      ensures Valid() && Value() == Release(old(Value()), at)
    {
      hide Bodies, RunLedger.Valid;
      var n := |leases| - 1;
      leases := leases[n := leases[n].(releasedAt := Some(at))];
    }

    /** Take the lease, open the transaction, start the task and try it until the retries settle it. */
    method AttemptTask(port: Port, t: string, cfg: Config, acquiredAt: string) returns (r: ExecResult, attempts: nat)
      requires Valid() && t in tasks
      modifies this, port
      ensures Valid()
      ensures var host, w := port.host, old(port.w);
        var e := Retry(host, w.(ticks := w.ticks + 1, minted := w.minted + 2), t, 0, cfg);
        && r == e.result && attempts == e.attempts && port.w == e.w
        && e.w.ticks == w.ticks + 1 && e.w.minted == w.minted + 2
        && Value() == Begin(old(Value()), t, host.ids(w.minted), host.ids(w.minted + 1), acquiredAt,
                            host.clock(w.ticks))
    {
      hide Bodies, RunLedger.Valid, Retry, Begin;
      ghost var w := port.w;
      var leaseId := port.MintId();
      var txnId := port.MintId();
      var startedAt := port.Clock();
      StartTask(t, leaseId, txnId, acquiredAt, startedAt);
      r, attempts := ExecuteWithRetry(port, t, cfg);
      RetryUses(port.host, w.(ticks := w.ticks + 1, minted := w.minted + 2), t, 0, cfg);
    }

    /** The task from its start to the release of its lease, once the lease is known to be free. */
    method ExecuteTask(port: Port, t: string, cfg: Config, acquiredAt: string)
      requires Valid() && t in tasks && port.w.ticks >= 1 && acquiredAt == port.host.clock(port.w.ticks - 1)
      modifies this, port
      ensures Valid()
      ensures var host, w := port.host, old(port.w);
        var e := Retry(host, w.(ticks := w.ticks + 1, minted := w.minted + 2), t, 0, cfg);
        && Value() == Execution(old(Value()), t, e.attempts, e.result, host.clock, w.ticks - 1,
                                host.ids(w.minted), host.ids(w.minted + 1), host.ids(w.minted + 2))
        && port.w == e.w.(ticks := w.ticks + 2 + Ticks(e.result),
                          minted := if e.result.success && e.result.evidence.None? then w.minted + 2 else w.minted + 3,
                          undone := if e.result.success || e.result.paths == [] then e.w.undone
                                    else e.w.undone + [e.result.paths])
    {
      hide Bodies, RunLedger.Valid, Retry, Accept, Reject, Begin, Release, Ticks;
      var r, attempts := AttemptTask(port, t, cfg, acquiredAt);
      RecordOutcome(port, t, attempts, r);
      var releasedAt := port.Clock();
      ReleaseLease(releasedAt);
    }

    /** `_run_task`. */
    method RunTaskInPlace(port: Port, t: string, cfg: Config)
      requires Valid() && t in tasks
      modifies this, port
      ensures Valid() && State(Value(), port.w) == RunTask(port.host, State(old(Value()), old(port.w)), t, cfg)
    {
      hide Bodies, RunLedger.Valid, Retry, Execution, Block, AlreadyCommitted, CanAcquire, Ticks;
      if AlreadyCommitted(journal, t) { return; }
      var acquiredAt := port.Clock();
      if !CanAcquire(leases, t, acquiredAt) {
        var blockerId := port.MintId();
        OpenBlocker(t, "lease conflict", InProgress, blockerId, acquiredAt);
        return;
      }
      ExecuteTask(port, t, cfg, acquiredAt);
    }

    /** `_block_unmet_deps`. */
    method BlockUnmetDeps(port: Port, t: string)
      requires Valid() && t in tasks
      modifies this, port
      ensures Valid() && State(Value(), port.w) == BlockUnmet(port.host, State(old(Value()), old(port.w)), t)
    {
      hide Bodies, RunLedger.Valid, Block;
      var blockerId := port.MintId();
      var at := port.Clock();
      OpenBlocker(t, UNMET, Pending, blockerId, at);
    }

    /** `_reconcile`. */
    method ReconcileInPlace()
      modifies this`reconciliation, this`status
      ensures Value() == Reconcile(old(Value()))
    {
      var pending := |set t | t in tasks && tasks[t].status in {Pending, InProgress}|;
      var open := |blockers|;
      reconciliation := Reconciliation(pending == 0 && open == 0, pending, open);
      if pending == 0 && open == 0 {
        status := LedgerCompleted;
      } else if open > 0 {
        status := LedgerBlocked;
      }
    }
  }
}
