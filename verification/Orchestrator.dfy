/** Run, resume, operator decisions and landing on the ledger object, in the imperative form of the source. */
module Orchestrator {
  import opened Prelude
  import opened HashChain
  import opened Topo
  import opened Ledgers
  import opened RunLoop
  import opened Engine
  import opened Gates
  import opened Validation
  import Visits

  // ---- The loop ------------------------------------------------------------------------------------

  ghost predicate OthersKept(l: Ledger, l': Ledger, t: string) {
    l'.tasks.Keys == l.tasks.Keys && forall u :: u in l.tasks && u != t ==> l'.tasks[u] == l.tasks[u]
  }

  lemma RunTaskKeepsOthers(host: Host, s: State, t: string, cfg: Config)
    requires t in s.l.tasks
    ensures OthersKept(s.l, RunTask(host, s, t, cfg).l, t)
  {
    hide Retry, AlreadyCommitted, CanAcquire, CloseTxn, Edits, TxnKey, ReasonText;
  }

  /** The loop's own set of completed tasks stays the set of tasks whose status says so. */
  lemma CompletedGrows(l: Ledger, l': Ledger, t: string)
    requires t in l.tasks && l.tasks[t].status != Completed && OthersKept(l, l', t)
    ensures CompletedSet(l'.tasks) == CompletedSet(l.tasks) + if l'.tasks[t].status == Completed then {t} else {}
  {
  }

  /** One turn of the loop; answers why the loop must stop, if it must. */
  method VisitInPlace(ledger: RunLedger, port: Port, g: Graph, t: string, completed: set<string>, cfg: Config)
    returns (stop: Option<RunState>, completed': set<string>)
    requires ledger.Valid() && t in ledger.tasks && t in g && completed == CompletedSet(ledger.tasks)
    modifies ledger, port
    ensures ledger.Valid() && ledger.tasks.Keys == old(ledger.tasks.Keys) && completed' == CompletedSet(ledger.tasks)
    ensures var turn := Visit(port.host, g, State(old(ledger.Value()), old(port.w)), t, cfg);
      && turn.s == State(ledger.Value(), port.w)
      && match turn { case Next(_) => stop == None case Stop(_, runState) => stop == Some(runState) }
  {
    hide Bodies, RunLedger.Valid, RunTask, BlockUnmet, CompletedSet, OthersKept;
    stop, completed' := None, completed;
    if ledger.tasks[t].status == Completed {
      CompletedHas(ledger.tasks, t);
      completed' := completed + {t};
      return;
    }
    ghost var before := State(ledger.Value(), port.w.(polls := port.w.polls + 1));
    var signal := port.Control();
    if signal == Abort { return Some(Aborted), completed; }
    if signal == Pause { return Some(Paused), completed; }
    if g[t] <= completed {
      RunTaskKeepsOthers(port.host, before, t, cfg);
      ledger.RunTaskInPlace(port, t, cfg);
      CompletedGrows(before.l, ledger.Value(), t);
      if ledger.tasks[t].status == Completed {
        completed' := completed + {t};
      }
    } else {
      BlockUnmetKeepsOthers(port.host, before, t);
      ledger.BlockUnmetDeps(port, t);
      CompletedGrows(before.l, ledger.Value(), t);
    }
  }

  lemma CompletedHas(tasks: map<string, TaskEntry>, t: string)
    requires t in tasks && tasks[t].status == Completed
    ensures CompletedSet(tasks) == CompletedSet(tasks) + {t}
  {
  }

  lemma BlockUnmetKeepsOthers(host: Host, s: State, t: string)
    requires t in s.l.tasks
    ensures OthersKept(s.l, BlockUnmet(host, s, t).l, t) && BlockUnmet(host, s, t).l.tasks[t].status == Blocked
  {
  }

  /** The loop of `_drive`: visit the tasks in order until done, paused or aborted. */
  method VisitAll(ledger: RunLedger, port: Port, g: Graph, order: seq<string>, done: set<string>, cfg: Config)
    returns (runState: RunState)
    requires ledger.Valid() && ledger.tasks.Keys == g.Keys && Elems(order) <= g.Keys
    requires done == CompletedSet(ledger.tasks)
    modifies ledger, port
    ensures ledger.Valid() && ledger.tasks.Keys == g.Keys
    ensures (State(ledger.Value(), port.w), runState) == Loop(port.host, g, State(old(ledger.Value()), old(port.w)),
                                                              order, cfg)
  {
    hide Bodies, RunLedger.Valid, Visit, CompletedSet, Loop;
    ghost var start := State(ledger.Value(), port.w);
    var completed := done;
    assert order[0..] == order;
    for i := 0 to |order|
      invariant ledger.Valid() && ledger.tasks.Keys == g.Keys && completed == CompletedSet(ledger.tasks)
      invariant Elems(order[i..]) <= g.Keys
      invariant Loop(port.host, g, start, order, cfg) == Loop(port.host, g, State(ledger.Value(), port.w), order[i..],
                                                              cfg)
    {
      ghost var s := State(ledger.Value(), port.w);
      Visits.LoopTurn(port.host, g, s, order, i, cfg);
      var stop;
      stop, completed := VisitInPlace(ledger, port, g, order[i], completed, cfg);
      if stop.Some? {
        assert Visit(port.host, g, s, order[i], cfg) == Stop(State(ledger.Value(), port.w), stop.value);
        return stop.value;
      }
    }
    assert order[|order|..] == [];
    LoopEnds(port.host, g, State(ledger.Value(), port.w), cfg);
    return Finished;
  }

  lemma LoopEnds(host: Host, g: Graph, s: State, cfg: Config)
    requires Fits(g, s)
    ensures Elems<string>([]) <= g.Keys && Loop(host, g, s, [], cfg) == (s, Finished)
  {
  }

  /** The gate on the ledger as it stands: validate, then evaluate rule by rule. */
  method EvaluateGate(ledger: RunLedger, gate: Option<seq<GateRule>>) returns (r: GateResult)
    requires ledger.Valid()
    ensures GateReport(ledger.h, ledger.Value(), GateOf(gate), r)
    ensures gate.None? ==> (r.passed <==> GatePasses(ledger.h, ledger.Value(), DEFAULT_GATE))
    ensures gate.Some? ==> (r.passed <==> GatePasses(ledger.h, ledger.Value(), gate.value))
  {
    hide RunLedger.Value, Bodies;
    var l := ledger.Value();
    EventsOfValue(ledger);
    var fired := ValidateLedger(ledger.h, l, ledger.log);
    FiredMeans(ledger.h, l, ledger.log, fired);
    hide Fires, FiresOn, Seal;
    var passed, rules := RunGate(fired, GateOf(gate));
    r := GateResult(passed, rules);
  }

  lemma EventsOfValue(ledger: RunLedger)
    ensures ledger.Value().events == Bodies(ledger.log)
  {
  }

  /** `_drive`: the tasks in order, then reconciliation, then the gate. */
  method DriveInPlace(ledger: RunLedger, port: Port, nodes: seq<TaskNode>, done: set<string>, cfg: Config,
                      gate: Option<seq<GateRule>>)
    returns (r: GateResult)
    requires ledger.Valid() && ledger.tasks.Keys == GraphOf(nodes).Keys && done == CompletedSet(ledger.tasks)
    modifies ledger, port
    ensures ledger.Valid() && ledger.tasks.Keys == GraphOf(nodes).Keys
    ensures State(ledger.Value(), port.w) == Drive(port.host, GraphOf(nodes), State(old(ledger.Value()), old(port.w)),
                                                   cfg)
    ensures GateReport(ledger.h, ledger.Value(), GateOf(gate), r)
  {
    hide Bodies, RunLedger.Valid, Visit, CompletedSet, Order, GraphOf, Reconcile, Loop, GateReport, GateOf;
    var g := GraphOf(nodes);
    var order := ComputeOrder(g, DefaultRank);
    OrderIsPermutation(g, DefaultRank);
    var runState := VisitAll(ledger, port, g, order, done, cfg);
    ledger.runState := runState;
    ledger.ReconcileInPlace();
    r := EvaluateGate(ledger, gate);
  }

  /** `run`: refuse an invalid manifest, else drive a new ledger. None stands for the exception. */
  method RunManifest(h: Hash, m: Manifest, port: Port, cfg: Config, gate: Option<seq<GateRule>>)
    returns (ledger: RunLedger?, r: Option<GateResult>)
    modifies port
    ensures ledger == null <==> !ValidIntake(m)
    ensures ledger == null ==> port.w == old(port.w)
    ensures ledger != null ==> fresh(ledger) && ledger.Valid() && ledger.h == h
    ensures ledger != null ==> ledger.tasks.Keys == GraphOf(m.tasks).Keys
    ensures ledger != null ==> State(ledger.Value(), port.w) == Run(port.host, m, old(port.w), cfg)
    ensures ledger != null ==> r.Some? && GateReport(h, ledger.Value(), GateOf(gate), r.value)
  {
    hide Bodies, RunLedger.Valid, Drive, GraphOf, GateReport, GateOf, ValidIntake;
    var findings := ValidateIntake(m);
    if findings != {} { return null, None; }
    ledger := new RunLedger(h, m);
    port.NewTranscript();
    var result := DriveInPlace(ledger, port, m.tasks, {}, cfg, gate);
    r := Some(result);
  }

  /** `resume` with the manifest the ledger was made from. */
  method ResumeLedger(ledger: RunLedger, port: Port, nodes: seq<TaskNode>, cfg: Config, gate: Option<seq<GateRule>>)
    returns (r: GateResult)
    requires ledger.Valid() && ledger.tasks.Keys == GraphOf(nodes).Keys
    modifies ledger, port
    ensures ledger.Valid() && ledger.tasks.Keys == GraphOf(nodes).Keys
    ensures State(ledger.Value(), port.w) == Resume(port.host, GraphOf(nodes), State(old(ledger.Value()), old(port.w)),
                                                    cfg)
    ensures GateReport(ledger.h, ledger.Value(), GateOf(gate), r)
  {
    hide Bodies, RunLedger.Valid, Drive, GraphOf, CompletedSet, GateReport, GateOf;
    var completed := CompletedSet(ledger.tasks);
    ledger.runState := Running;
    r := DriveInPlace(ledger, port, nodes, completed, cfg, gate);
  }

  // ---- Operator decisions --------------------------------------------------------------------------

  /** The first open blocker with this id. */
  method FindInPlace(blockers: seq<Blocker>, id: string) returns (found: Option<Blocker>)
    ensures var i := FindBlocker(blockers, id); found == if i < |blockers| then Some(blockers[i]) else None
  {
    for i := 0 to |blockers|
      invariant forall j :: 0 <= j < i ==> blockers[j].blockerId != id
    {
      if blockers[i].blockerId == id { return Some(blockers[i]); }
    }
    return None;
  }

  /** The first `i` blockers are filtered into `kept`. */
  ghost predicate FilteredTo(blockers: seq<Blocker>, id: string, i: nat, kept: seq<Blocker>) {
    i <= |blockers| && kept + WithoutBlocker(blockers[i..], id) == WithoutBlocker(blockers, id)
  }

  lemma FilterEnds(blockers: seq<Blocker>, id: string)
    ensures FilteredTo(blockers, id, 0, [])
    ensures forall kept :: FilteredTo(blockers, id, |blockers|, kept) ==> kept == WithoutBlocker(blockers, id)
  {
    assert blockers[0..] == blockers && blockers[|blockers|..] == [] && WithoutBlocker([], id) == [];
  }

  lemma FilterStep(blockers: seq<Blocker>, id: string, i: nat, kept: seq<Blocker>)
    requires i < |blockers| && FilteredTo(blockers, id, i, kept)
    ensures FilteredTo(blockers, id, i + 1, if blockers[i].blockerId == id then kept else kept + [blockers[i]])
  {
    var rest := blockers[i..];
    assert rest[0] == blockers[i] && rest[1..] == blockers[i + 1..];
    var tail := WithoutBlocker(rest[1..], id);
    if blockers[i].blockerId == id {
      assert WithoutBlocker(rest, id) == [] + tail == tail;
    } else {
      assert WithoutBlocker(rest, id) == [blockers[i]] + tail;
      assert kept + ([blockers[i]] + tail) == (kept + [blockers[i]]) + tail;
    }
  }

  method FilterOut(blockers: seq<Blocker>, id: string) returns (kept: seq<Blocker>)
    ensures kept == WithoutBlocker(blockers, id)
  {
    hide FilteredTo, WithoutBlocker;
    kept := [];
    FilterEnds(blockers, id);
    for i := 0 to |blockers|
      invariant FilteredTo(blockers, id, i, kept)
    {
      FilterStep(blockers, id, i, kept);
      if blockers[i].blockerId != id { kept := kept + [blockers[i]]; }
    }
  }

  /** The effect of an override on blockers and tasks. */
  method CloseBlocker(ledger: RunLedger, id: string, t: string)
    requires ledger.Valid()
    modifies ledger`blockers, ledger`tasks
    ensures ledger.Valid()
    ensures var l := old(ledger.Value());
      ledger.Value() == l.(blockers := WithoutBlocker(l.blockers, id), tasks := Reopen(l.tasks, t))
  {
    hide Bodies, RunLedger.Valid, WithoutBlocker, Reopen;
    ledger.blockers := FilterOut(ledger.blockers, id);
    ledger.tasks := Reopen(ledger.tasks, t);
  }

  /** `resolve_blocker`: false stands for the authorization error, which changes nothing. */
  method ResolveInPlace(ledger: RunLedger, id: string, decision: string, actor: string, at: string, authorized: bool)
    returns (ok: bool)
    requires ledger.Valid()
    modifies ledger
    ensures ok == authorized && ledger.Valid()
    ensures ledger.Value() ==
              if authorized then Resolve(old(ledger.Value()), id, decision, actor, at) else old(ledger.Value())
  {
    hide Bodies, RunLedger.Valid, FindBlocker, WithoutBlocker, Reopen, Stamped;
    if !authorized { return false; }
    var blocker := FindInPlace(ledger.blockers, id);
    var subject := if blocker.Some? then Some(blocker.value.taskId) else None;
    ledger.resolutions := ledger.resolutions + [ResolutionRow(id, decision, actor, at)];
    if decision == OVERRIDE && blocker.Some? {
      CloseBlocker(ledger, id, subject.value);
    }
    ledger.AppendEvent(Event(Resolution, subject, at, [], ledger.scope.clientId, ledger.scope.projectId));
    return true;
  }

  // ---- Landing -------------------------------------------------------------------------------------

  /** `sorted(...)` by repeated selection of the least path. */
  method SortPaths(paths: set<string>) returns (sorted: seq<string>)
    ensures sorted == Sorted(paths)
  {
    hide IsFirst;
    var rest := paths;
    sorted := [];
    while rest != {}
      invariant sorted + Sorted(rest) == Sorted(paths)
      decreases |rest|
    {
      var p := FirstOf(DefaultRank, rest);
      FirstIsUnique(DefaultRank, rest, p, First(DefaultRank, rest));
      sorted := sorted + [p];
      rest := rest - {p};
    }
  }

  /** `land`, given what the working tree answered. */
  method LandInPlace(ledger: RunLedger, port: Port, changed: bool, branch: string, message: string, sha: string,
                     gate: Option<seq<GateRule>>)
    returns (r: GateResult)
    requires ledger.Valid()
    modifies ledger, port
    ensures ledger.Valid()
    ensures changed ==> ledger.Value() == Land(old(ledger.Value()), branch, message, sha,
                                               port.host.clock(old(port.w.ticks)))
    ensures changed ==> port.w == old(port.w).(ticks := old(port.w.ticks) + 1)
    ensures !changed ==> ledger.Value() == old(ledger.Value()) && port.w == old(port.w)
    ensures GateReport(ledger.h, ledger.Value(), GateOf(gate), r)
  {
    hide RunLedger.Valid, Bodies, GateReport, GateOf;
    if changed { CommitTree(ledger, port, branch, message, sha); }
    r := EvaluateGate(ledger, gate);
  }

  /** The ledger part of committing a changed tree. */
  method CommitTree(ledger: RunLedger, port: Port, branch: string, message: string, sha: string)
    requires ledger.Valid()
    modifies ledger, port
    ensures ledger.Valid()
    ensures ledger.Value() == Land(old(ledger.Value()), branch, message, sha, port.host.clock(old(port.w.ticks)))
    ensures port.w == old(port.w).(ticks := old(port.w.ticks) + 1)
  {
    hide RunLedger.Valid, Bodies, Stamped, Sorted;
    var at := port.Clock();
    var touched := SortPaths(EditedPaths(ledger.Value().events));
    ledger.branch := Some(branch);
    ledger.commits := ledger.commits + [CommitRow(sha, message, at, touched)];
    ledger.AppendEvent(Event(Commit, Some("LANDING"), at, touched, ledger.scope.clientId, ledger.scope.projectId));
    ledger.requiresLanding := true;
  }

  // ---- Verdict -------------------------------------------------------------------------------------

  /** `build_handover_receipt`: the status, from the gate result, the reconciliation and the open tasks. */
  method Handover(ledger: RunLedger, r: GateResult, ghost gate: seq<GateRule>) returns (completed: bool)
    requires GateReport(ledger.h, ledger.Value(), gate, r)
    ensures completed <==> HandsOver(ledger.h, ledger.Value(), gate)
  {
    hide GatePasses;
    completed := r.passed && ledger.reconciliation.allowed && PendingSet(ledger.tasks) == {};
  }

  lemma FiredMeans(h: Hash, l: Ledger, log: seq<LogEvent>, fired: set<Rule>)
    requires log == Seal(h, l.events) && forall rule :: rule in fired <==> FiresOn(h, l, log, rule)
    ensures forall rule :: rule in fired <==> Fires(h, l, rule)
  {
    hide Seal, Verified, HasEvidence, LeasesOverlap, InRoots;
    forall rule ensures rule in fired <==> Fires(h, l, rule) {
      if rule == ChainBroken {
        assert Fires(h, l, ChainBroken) <==> !Verified(h, log);
      }
    }
  }
}
