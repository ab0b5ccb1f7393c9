/** The outcome of a schedule does not depend on where it was interrupted. */
module Schedules {
  import opened Prelude
  import opened HashChain
  import opened Topo
  import opened Ledgers
  import opened RunLoop
  import opened Steps
  import opened Invariants
  import opened Histories

  /** From the n-th call on, whether a task ends in success is a fixed function of the task: it does on `good`. */
  ghost predicate FixedOutcome(host: Host, g: Graph, cfg: Config, good: set<string>, n: nat) {
    forall w: World, t: string {:trigger Retry(host, w, t, 0, cfg)} :: |w.calls| >= n && t in g ==>
      (Retry(host, w, t, 0, cfg).result.success <==> t in good)
  }

  /** Committed tasks are completed and completed ones are grounded in `good`. */
  ghost predicate Sound(g: Graph, good: set<string>, s: State) {
    forall t :: t in s.l.tasks ==>
      && (CommittedIn(s.l.journal, t) ==> s.l.tasks[t].status == Completed)
      && (s.l.tasks[t].status == Completed ==> Grounded(g, good, t))
  }

  lemma DepsGrounded(g: Graph, good: set<string>, s: State, t: string)
    requires Fits(g, s) && Sound(g, good, s) && t in g && g[t] <= CompletedSet(s.l.tasks) && t in good
    ensures Grounded(g, good, t)
  {
    forall d | d in g[t] ensures Grounded(g, good, d) {
      assert d in CompletedSet(s.l.tasks);
    }
    GroundedIntro(g, good, t);
  }

  lemma AcceptedKeepsSound(g: Graph, good: set<string>, s: State, s': State, t: string, r: ExecResult, n: nat)
    requires Sound(g, good, s) && Accepted(s, s', t, r, n) && Grounded(g, good, t)
    ensures Sound(g, good, s')
  {
    hide Grounded;
    forall u | u in s'.l.tasks && CommittedIn(s'.l.journal, u) ensures s'.l.tasks[u].status == Completed {
      AcceptedMarks(s, s', t, r, n, u);
    }
  }

  lemma QuietKeepsSound(g: Graph, good: set<string>, s: State, s': State, t: string)
    requires Sound(g, good, s) && Quiet(s, s', t) && !CommittedIn(s.l.journal, t)
    requires SameOthers(s, s', t)
    ensures Sound(g, good, s')
  {
    hide Grounded;
    forall u | u in s'.l.tasks && CommittedIn(s'.l.journal, u) ensures s'.l.tasks[u].status == Completed {
      QuietMarks(s, s', t, u);
    }
  }

  ghost predicate SameOthers(s: State, s': State, t: string) {
    s'.l.tasks.Keys == s.l.tasks.Keys && forall u :: u in s.l.tasks && u != t ==> s'.l.tasks[u] == s.l.tasks[u]
  }

  lemma ExecutedKeepsSound(host: Host, g: Graph, good: set<string>, n: nat, s: State, s': State, t: string, cfg: Config,
                           w0: World)
    requires Fits(g, s) && Sound(g, good, s) && FixedOutcome(host, g, cfg, good, n) && n <= |s.w.calls| && t in g
    requires g[t] <= CompletedSet(s.l.tasks)
    requires !CommittedIn(s.l.journal, t) && Executed(host, s, s', t, cfg, w0)
    ensures Sound(g, good, s') && SameOthers(s, s', t) && (t in good ==> t in CompletedSet(s'.l.tasks))
  {
    hide Grounded, Ran, Opened;
    var e := Retry(host, w0, t, 0, cfg);
    if e.result.success {
      DepsGrounded(g, good, s, t);
      AcceptedKeepsSound(g, good, s, s', t, e.result, e.attempts);
      AcceptedChanges(s, s', t, e.result, e.attempts);
    } else {
      RejectedIsQuiet(host, s, s', t, e.result, e.attempts);
      RejectedChanges(host, s, s', t, e.result, e.attempts);
      QuietKeepsSound(g, good, s, s', t);
    }
  }

  lemma AcceptedChanges(s: State, s': State, t: string, r: ExecResult, n: nat)
    requires Accepted(s, s', t, r, n)
    ensures SameOthers(s, s', t) && t in CompletedSet(s'.l.tasks)
  {
  }

  lemma RejectedChanges(host: Host, s: State, s': State, t: string, r: ExecResult, n: nat)
    requires Rejected(host, s, s', t, r, n)
    ensures SameOthers(s, s', t)
  {
  }

  lemma UnmetChanges(host: Host, s: State, s': State, t: string)
    requires Unmet(host, s, s', t)
    ensures SameOthers(s, s', t)
  {
  }

  /** A turn keeps soundness; if it was not a stop and t is grounded with finished dependencies, t is now completed. */
  lemma TurnKeepsSound(host: Host, g: Graph, good: set<string>, n: nat, s: State, s': State, t: string, cfg: Config,
                       stopped: bool)
    requires Inv(g, s) && Sound(g, good, s) && FixedOutcome(host, g, cfg, good, n) && n <= |s.w.calls|
    requires t in g && Turned(host, g, s, s', t, cfg, stopped)
    ensures Sound(g, good, s')
    ensures SameOthers(s, s', t)
    ensures !stopped && t in good && g[t] <= CompletedSet(s.l.tasks) ==> t in CompletedSet(s'.l.tasks)
    ensures s.l.tasks[t].status == Completed ==> t in CompletedSet(s'.l.tasks)
  {
    hide Grounded, Quiet;
    CommittedByKey(s.l.journal, t);
    if stopped || s.l.tasks[t].status == Completed {
    } else if !(g[t] <= CompletedSet(s.l.tasks)) {
      UnmetIsQuiet(host, s, s', t);
      UnmetChanges(host, s, s', t);
      QuietKeepsSound(g, good, s, s', t);
    } else {
      assert !AlreadyCommitted(s.l.journal, t);
      var w0 :| Executed(host, s, s', t, cfg, w0);
      ExecutedKeepsSound(host, g, good, n, s, s', t, cfg, w0);
    }
  }

  lemma TurnGrowsCalls(host: Host, g: Graph, s: State, s': State, t: string, cfg: Config, stopped: bool)
    requires Inv(g, s) && t in g && Turned(host, g, s, s', t, cfg, stopped)
    ensures s.w.calls <= s'.w.calls
  {
    TurnEvolves(host, g, s, s', t, cfg, stopped);
  }

  lemma {:induction false} LoopKeepsSound(host: Host, g: Graph, good: set<string>, n: nat, s: State, order: seq<string>,
                                          cfg: Config)
    requires ClockOk(host) && Fits(g, s) && Inv(g, s) && Sound(g, good, s) && FixedOutcome(host, g, cfg, good, n)
    requires n <= |s.w.calls|
    requires Elems(order) <= g.Keys
    ensures Sound(g, good, Loop(host, g, s, order, cfg).0)
    decreases |order|
  {
    if order != [] {
      hide Inv, Turned, Visit, Sound, FixedOutcome;
      InvBasics(g, s);
      assert order[0] in Elems(order) && Elems(order[1..]) <= Elems(order);
      var turn := Visit(host, g, s, order[0], cfg);
      VisitEffect(host, g, s, order[0], cfg);
      TurnKeepsInv(host, g, s, turn.s, order[0], cfg, turn.Stop?);
      TurnKeepsSound(host, g, good, n, s, turn.s, order[0], cfg, turn.Stop?);
      TurnGrowsCalls(host, g, s, turn.s, order[0], cfg, turn.Stop?);
      if turn.Next? {
        LoopKeepsSound(host, g, good, n, turn.s, order[1..], cfg);
      }
    }
  }

  /** The first i tasks of the order that are grounded are completed. */
  ghost predicate DoneUpTo(g: Graph, good: set<string>, s: State, order: seq<string>, i: nat)
    requires i <= |order|
  {
    forall j :: 0 <= j < i && Grounded(g, good, order[j]) ==> order[j] in CompletedSet(s.l.tasks)
  }

  lemma GroundedMayRun(g: Graph, good: set<string>, s: State, order: seq<string>, i: nat)
    requires order == TopoOrder(g) && i < |order| && DoneUpTo(g, good, s, order, i) && Grounded(g, good, order[i])
    ensures order[i] in g && order[i] in good && g[order[i]] <= CompletedSet(s.l.tasks)
  {
    var t := order[i];
    GroundedElim(g, good, t);
    GroundedIsWellFounded(g, good, t);
    GroundedAfterDependencies(g, DefaultRank, i);
    forall d | d in g[t] ensures d in CompletedSet(s.l.tasks) {
      assert d in Elems(order[..i]);
      var j :| 0 <= j < i && order[j] == d;
    }
  }

  lemma DoneStep(host: Host, g: Graph, good: set<string>, n: nat, s: State, s': State, order: seq<string>, i: nat,
                 cfg: Config)
    requires order == TopoOrder(g) && i < |order| && DoneUpTo(g, good, s, order, i)
    requires Inv(g, s) && Sound(g, good, s) && FixedOutcome(host, g, cfg, good, n) && n <= |s.w.calls|
    requires order[i] in g && Turned(host, g, s, s', order[i], cfg, false)
    ensures DoneUpTo(g, good, s', order, i + 1)
  {
    hide Inv, Turned, Sound, FixedOutcome, Grounded;
    TurnKeepsSound(host, g, good, n, s, s', order[i], cfg, false);
    TurnKeepsInv(host, g, s, s', order[i], cfg, false);
    InvBasics(g, s);
    InvBasics(g, s');
    if Grounded(g, good, order[i]) {
      GroundedMayRun(g, good, s, order, i);
    }
  }

  lemma {:induction false} LoopReachesGrounded(host: Host, g: Graph, good: set<string>, n: nat, s: State,
                                               order: seq<string>, i: nat, cfg: Config)
    requires ClockOk(host) && Fits(g, s) && Inv(g, s) && Sound(g, good, s) && FixedOutcome(host, g, cfg, good, n)
    requires n <= |s.w.calls|
    requires order == TopoOrder(g) && i <= |order| && DoneUpTo(g, good, s, order, i) && Elems(order[i..]) <= g.Keys
    requires Loop(host, g, s, order[i..], cfg).1 == Finished
    ensures DoneUpTo(g, good, Loop(host, g, s, order[i..], cfg).0, order, |order|)
    decreases |order| - i
  {
    if i < |order| {
      hide Inv, Turned, Visit, Sound, FixedOutcome, DoneUpTo, Order;
      InvBasics(g, s);
      var t, rest := order[i], order[i..][1..];
      assert rest == order[i + 1..] && t == order[i..][0] && t in Elems(order[i..]) && Elems(rest) <= Elems(order[i..]);
      var turn := Visit(host, g, s, t, cfg);
      VisitEffect(host, g, s, t, cfg);
      if turn.Stop? {
        VisitStops(host, g, s, t, cfg);
        assert false;
      }
      TurnKeepsInv(host, g, s, turn.s, t, cfg, false);
      TurnKeepsSound(host, g, good, n, s, turn.s, t, cfg, false);
      TurnGrowsCalls(host, g, s, turn.s, t, cfg, false);
      DoneStep(host, g, good, n, s, turn.s, order, i, cfg);
      LoopReachesGrounded(host, g, good, n, turn.s, order, i + 1, cfg);
    }
  }

  // ---- Histories without overrides -----------------------------------------------------------------

  /** Pauses, aborts, resumes, landings, approvals and rejections, but no override. */
  ghost predicate Interruption(host: Host, g: Graph, good: set<string>, op: Op) {
    match op
    case ResumeOp(cfg) => FixedOutcome(host, g, cfg, good, 0)
    case ResolveOp(authorized, _, decision, _, _) => !authorized || decision != OVERRIDE
    case LandOp(_, _, _, _) => true
  }

  lemma DoneIsGrounded(g: Graph, good: set<string>, s: State, order: seq<string>)
    requires Fits(g, s) && Sound(g, good, s) && Elems(order) == g.Keys && DoneUpTo(g, good, s, order, |order|)
    ensures CompletedSet(s.l.tasks) == GroundedSet(g, good)
  {
    hide Grounded;
    forall t | t in GroundedSet(g, good) ensures t in CompletedSet(s.l.tasks) {
      assert t in Elems(order);
      var j :| 0 <= j < |order| && order[j] == t;
    }
  }

  lemma SameFactsSound(g: Graph, good: set<string>, s: State, s': State)
    requires SameFacts(s, s')
    ensures Sound(g, good, s) ==> Sound(g, good, s')
  {
  }

  /** Driving keeps soundness, and an uninterrupted drive completes exactly the grounded tasks. */
  lemma DriveKeepsSound(host: Host, g: Graph, good: set<string>, n: nat, s: State, cfg: Config)
    requires ClockOk(host) && Fits(g, s) && Inv(g, s) && Sound(g, good, s) && FixedOutcome(host, g, cfg, good, n)
    requires n <= |s.w.calls|
    ensures Sound(g, good, Drive(host, g, s, cfg))
    ensures Drive(host, g, s, cfg).l.runState == Finished ==>
              CompletedSet(Drive(host, g, s, cfg).l.tasks) == GroundedSet(g, good)
  {
    hide Inv, FixedOutcome, Order, NoDuplicates, Sound, DoneUpTo, Loop, GroundedSet;
    OrderIsPermutation(g, DefaultRank);
    var order := TopoOrder(g);
    LoopKeepsSound(host, g, good, n, s, order, cfg);
    var r := Loop(host, g, s, order, cfg);
    SameFactsSound(g, good, r.0, Drive(host, g, s, cfg));
    if r.1 == Finished {
      assert order[0..] == order;
      NothingDoneYet(g, good, s, order);
      LoopReachesGrounded(host, g, good, n, s, order, 0, cfg);
      DoneIsGrounded(g, good, r.0, order);
    }
  }

  lemma NothingDoneYet(g: Graph, good: set<string>, s: State, order: seq<string>)
    ensures DoneUpTo(g, good, s, order, 0)
  {
  }

  lemma ApplyKeepsSound(host: Host, g: Graph, good: set<string>, s: State, op: Op)
    requires ClockOk(host) && Fits(g, s) && Inv(g, s) && Sound(g, good, s) && Interruption(host, g, good, op)
    ensures Sound(g, good, Apply(host, g, s, op))
  {
    match op {
      case ResumeOp(cfg) =>
        var s1 := s.(l := s.l.(runState := Running));
        SameFactsKeep(g, s, s1);
        SameFactsSound(g, good, s, s1);
        DriveKeepsSound(host, g, good, 0, s1, cfg);
      case _ =>
    }
  }

  lemma GoodIsInv(g: Graph, s: State)
    requires Good(g, s)
    ensures Inv(g, s)
  {
  }

  lemma {:induction false} ApplyAllKeepsSound(host: Host, g: Graph, good: set<string>, s: State, ops: seq<Op>)
    requires ClockOk(host) && Fits(g, s) && Good(g, s) && Sound(g, good, s)
    requires forall i :: 0 <= i < |ops| ==> Interruption(host, g, good, ops[i])
    ensures Sound(g, good, ApplyAll(host, g, s, ops))
  {
    hide Good, Sound, Evolves;
    if ops != [] {
      var n := |ops| - 1;
      ApplyAllKeepsSound(host, g, good, s, ops[..n]);
      ApplyAllEffect(host, g, s, ops[..n]);
      GoodIsInv(g, ApplyAll(host, g, s, ops[..n]));
      ApplyKeepsSound(host, g, good, ApplyAll(host, g, s, ops[..n]), ops[n]);
    }
  }

  /** X holds a task exactly when it is in `good` and X holds all the dependencies its node names. */
  ghost predicate Fixpoint(nodes: seq<TaskNode>, good: set<string>, X: set<string>) {
    && X <= TaskIds(nodes)
    && forall k: nat :: Counts(nodes, k) ==>
         (nodes[k].taskId in X <==> nodes[k].taskId in good && forall d :: d in nodes[k].dependsOn ==> d in X)
  }

  /** The least such set. */
  ghost predicate LeastFixpoint(nodes: seq<TaskNode>, good: set<string>, C: set<string>) {
    Fixpoint(nodes, good, C) && forall X: set<string> :: Fixpoint(nodes, good, X) ==> C <= X
  }

  lemma FixpointOnGraph(nodes: seq<TaskNode>, good: set<string>, X: set<string>)
    ensures var g := GraphOf(nodes);
      Fixpoint(nodes, good, X) <==> forall t :: t in X <==> t in g && t in good && g[t] <= X
  {
    hide GraphOf;
    var g := GraphOf(nodes);
    GraphIsOfNodes(nodes);
    if Fixpoint(nodes, good, X) {
      forall t ensures t in X <==> t in g && t in good && g[t] <= X {
        if t in g { var k := NodeOf(nodes, t); }
      }
    }
  }

  lemma GroundedIsLeastFixpoint(nodes: seq<TaskNode>, good: set<string>)
    ensures LeastFixpoint(nodes, good, GroundedSet(GraphOf(nodes), good))
  {
    hide GraphOf, GroundedSet, Fixpoint;
    GroundedSetIsLeastFixpoint(GraphOf(nodes), good);
    FixpointOnGraph(nodes, good, GroundedSet(GraphOf(nodes), good));
    forall X: set<string> | Fixpoint(nodes, good, X) ensures GroundedSet(GraphOf(nodes), good) <= X {
      FixpointOnGraph(nodes, good, X);
    }
  }

  /**
   * Wherever a run was paused or aborted and however often it was resumed, one uninterrupted resume ends with
   * exactly the tasks of the least set C with: t in C iff t succeeds and all dependencies t names are in C.
   * The graph may be cyclic and may name unknown dependencies.
   */
  lemma InterruptionsDoNotMatter(host: Host, m: Manifest, w: World, cfg: Config, ops: seq<Op>, last: Config,
                                 good: set<string>)
    requires ClockOk(host) && FixedOutcome(host, GraphOf(m.tasks), cfg, good, 0)
    requires FixedOutcome(host, GraphOf(m.tasks), last, good, 0)
    requires forall i :: 0 <= i < |ops| ==> Interruption(host, GraphOf(m.tasks), good, ops[i])
    requires Resume(host, GraphOf(m.tasks), History(host, m, w, cfg, ops), last).l.runState == Finished
    ensures var C := CompletedSet(Resume(host, GraphOf(m.tasks), History(host, m, w, cfg, ops), last).l.tasks);
      LeastFixpoint(m.tasks, good, C) && C == GroundedSet(GraphOf(m.tasks), good)
  {
    hide Inv, FixedOutcome, Sound, GroundedSet, Evolves, Drive, LeastFixpoint, GraphOf;
    var g := GraphOf(m.tasks);
    var s0 := Fresh(m, w);
    FreshInv(m, w);
    FreshIsSound(m, w, good);
    DriveKeepsSound(host, g, good, 0, s0, cfg);
    RunIsGood(host, m, w, cfg);
    ApplyAllKeepsSound(host, g, good, Run(host, m, w, cfg), ops);
    HistoryIsGood(host, m, w, cfg, ops);
    var s := History(host, m, w, cfg, ops);
    var s1 := s.(l := s.l.(runState := Running));
    SameFactsKeep(g, s, s1);
    SameFactsSound(g, good, s, s1);
    DriveKeepsSound(host, g, good, 0, s1, last);
    GroundedIsLeastFixpoint(m.tasks, good);
  }

  /** The same holds of a run that was never interrupted. */
  lemma UninterruptedRun(host: Host, m: Manifest, w: World, cfg: Config, good: set<string>)
    requires ClockOk(host) && FixedOutcome(host, GraphOf(m.tasks), cfg, good, 0)
    requires Run(host, m, w, cfg).l.runState == Finished
    ensures var C := CompletedSet(Run(host, m, w, cfg).l.tasks);
      LeastFixpoint(m.tasks, good, C) && C == GroundedSet(GraphOf(m.tasks), good)
  {
    hide Inv, FixedOutcome, Sound, GroundedSet, Drive, LeastFixpoint, GraphOf;
    FreshInv(m, w);
    FreshIsSound(m, w, good);
    DriveKeepsSound(host, GraphOf(m.tasks), good, 0, Fresh(m, w), cfg);
    GroundedIsLeastFixpoint(m.tasks, good);
  }

  lemma FreshIsSound(m: Manifest, w: World, good: set<string>)
    ensures Sound(GraphOf(m.tasks), good, Fresh(m, w))
  {
  }
}
