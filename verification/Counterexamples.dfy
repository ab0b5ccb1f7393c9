/** Two histories an operator can meet: ids restarted by each resume, and a task stranded by a stale override. */
module Counterexamples {
  import opened Prelude
  import opened TextOrder
  import opened HashChain
  import opened Topo
  import opened Ledgers
  import opened RunLoop
  import opened Steps
  import opened Invariants
  import opened Histories
  import opened Coverage
  import opened DistinctIds
  import opened IdSources
  import opened Safety
  import opened Briefs

  const WORLD := World(0, 0, 0, [], [], [])
  const SOURCE := Source("IPLAN-1", "1", "c")
  const SCOPE := Scope("c", "p", ["src/"])

  // ---- Requests to the id source -------------------------------------------------------------------

  /** A process whose tasks all fail asks for lease, transaction, blocker, over and over. */
  function Failing(k: nat): string { if k % 3 == 0 then "L" else if k % 3 == 1 then "TX" else "B" }

  /** One success first, then failures. */
  function Recovering(k: nat): string { if k == 0 then "L" else if k == 1 then "TX" else Failing(k - 2) }

  lemma FailingIds()
    ensures IdFor(Failing, 2) == "B" + Decimal(1) && IdFor(Failing, 5) == "B" + Decimal(2)
  {
    assert "L" != "B" && "TX" != "B";
    assert Asked(Failing, 0, "B") == 0;
    assert Asked(Failing, 1, "B") == 0 && Asked(Failing, 2, "B") == 0 && Asked(Failing, 3, "B") == 1;
    assert Asked(Failing, 4, "B") == 1 && Asked(Failing, 5, "B") == 1 && Asked(Failing, 6, "B") == 2;
  }

  lemma RecoveringIds()
    ensures IdFor(Recovering, 4) == "B" + Decimal(1) && IdFor(Recovering, 7) == "B" + Decimal(2)
  {
    assert "L" != "B" && "TX" != "B";
    assert Asked(Recovering, 0, "B") == 0;
    assert Asked(Recovering, 1, "B") == 0 && Asked(Recovering, 2, "B") == 0;
    assert Asked(Recovering, 3, "B") == 0 && Asked(Recovering, 4, "B") == 0 && Asked(Recovering, 5, "B") == 1;
    assert Asked(Recovering, 6, "B") == 1 && Asked(Recovering, 7, "B") == 1 && Asked(Recovering, 8, "B") == 2;
  }

  // ---- A new id source for each resume -------------------------------------------------------------

  const NODES := [TaskNode("A", "a", true, []), TaskNode("X", "x", true, []), TaskNode("Y", "y", true, [])]
  const MANIFEST := Manifest("1.0", SOURCE, true, 90, SCOPE, NODES)
  const GRAPH: Graph := map["A" := {}, "X" := {}, "Y" := {}]

  function Answer(t: string, n: nat): ExecResult { ExecResult(n == 2 || n == 5, [], None, None, false) }
  function Switch(n: nat): Signal { if n == 2 || n == 7 then Pause else Go }

  /** Ids by request: the run, and three resumes that each start a new source. */
  function RestartedIds(k: nat): string {
    if k < 6 then IdFor(Failing, k)
    else if k < 14 then IdFor(Recovering, k - 6)
    else if k < 16 then IdFor(Recovering, k - 14)
    else IdFor(Failing, k - 16)
  }

  const HOST := Host(n => "t", RestartedIds, Answer, Switch)
  const FIRST := "B" + Decimal(1)
  const SECOND := "B" + Decimal(2)

  function OverrideOp(id: string): Op { ResolveOp(true, id, OVERRIDE, "op", "t") }

  const OPS := [OverrideOp(FIRST), ResumeOp(CFG), OverrideOp(SECOND), OverrideOp(FIRST), ResumeOp(CFG), ResumeOp(CFG)]

  function Failed(id: string, t: string): Blocker { Blocker(id, t, "execution failed", "operator") }

  /** The history step by step: fresh, run until paused, then the six operations. */
  const FRESH := Brief(map["A" := Pending, "X" := Pending, "Y" := Pending], [], {}, 0, 0, 0)
  const RAN := Brief(map["A" := Blocked, "X" := Blocked, "Y" := Pending], [Failed(FIRST, "A"), Failed(SECOND, "X")], {},
                     3, 2, 6)
  const OVERRIDDEN := Brief(map["A" := Pending, "X" := Blocked, "Y" := Pending], [Failed(SECOND, "X")], {}, 3, 2, 6)
  const RESUMED := Brief(map["A" := Completed, "X" := Blocked, "Y" := Blocked],
                         [Failed(SECOND, "X"), Failed(FIRST, "X"), Failed(SECOND, "Y")], {"A"}, 6, 5, 14)
  const UNCOVERED := Brief(map["A" := Completed, "X" := Pending, "Y" := Blocked], [Failed(FIRST, "X")], {"A"}, 6, 5, 14)
  const CLOSED := Brief(map["A" := Completed, "X" := Pending, "Y" := Blocked], [], {"A"}, 6, 5, 14)
  const WRONG := Brief(map["A" := Completed, "X" := Completed, "Y" := Blocked], [], {"A", "X"}, 8, 6, 16)
  const REOPENED := Brief(map["A" := Completed, "X" := Completed, "Y" := Blocked], [Failed(FIRST, "Y")], {"A", "X"}, 9,
                          7, 19)

  lemma FirstIsNotSecond()
    ensures FIRST != SECOND
  {
    assert FIRST[1] == Digit(1) && SECOND[1] == Digit(2);
  }

  lemma RestartedFacts()
    ensures HOST.ids(2) == FIRST && HOST.ids(5) == SECOND && HOST.ids(10) == FIRST && HOST.ids(13) == SECOND
    ensures HOST.ids(18) == FIRST
    ensures Plain(HOST) && ClockOk(HOST)
  {
    FailingIds();
    RecoveringIds();
  }

  lemma GraphIs()
    ensures GraphOf(NODES) == GRAPH
  {
    var none: seq<string> := [];
    assert Elems(none) == {};
    assert NODES[..2] == [NODES[0], NODES[1]] && NODES[..2][..1] == [NODES[0]] && [NODES[0]][..0] == [];
    assert GraphOf([NODES[0]]) == map["A" := {}];
    assert GraphOf(NODES[..2]) == map["A" := {}, "X" := {}];
  }

  lemma FirstIsA(o: seq<string>)
    requires o == TopoOrder(GRAPH)
    ensures |o| == 3 && o[0] == "A" && NoDuplicates(o) && Elems(o) == GRAPH.Keys
  {
    hide Order;
    OrderIsPermutation(GRAPH, DefaultRank);
    assert GRAPH.Keys == {"A", "X", "Y"} && |GRAPH| == 3;
    ABeforeOthers();
    OrderTurn(GRAPH, DefaultRank, 0);
    assert Elems(o[..0]) == {} && GRAPH.Keys - {} == GRAPH.Keys;
    assert o[0] in Elems(o) && o[0] in {"A", "X", "Y"};
    ReadyA();
    hide Ready;
  }

  lemma ABeforeOthers()
    ensures Before("A", "X") && Before("A", "Y") && !Before("X", "A") && !Before("Y", "A")
  {
  }

  lemma ReadyA()
    ensures "A" in Ready(GRAPH, {}, GRAPH.Keys)
  {
  }

  lemma SecondIsX(o: seq<string>)
    requires o == TopoOrder(GRAPH) && |o| == 3 && o[0] == "A" && NoDuplicates(o) && Elems(o) == GRAPH.Keys
    ensures o[1] == "X"
  {
    hide Order;
    XBeforeY();
    OrderTurn(GRAPH, DefaultRank, 1);
    assert Elems(o[..1]) == {"A"};
    assert o[1] in Elems(o) && o[1] in {"X", "Y"};
    ReadyX();
    hide Ready;
  }

  lemma XBeforeY()
    ensures Before("X", "Y") && !Before("Y", "X")
  {
  }

  lemma ReadyX()
    ensures "X" in Ready(GRAPH, {"A"}, GRAPH.Keys - {"A"})
  {
  }

  lemma OrderIs()
    ensures TopoOrder(GRAPH) == ["A", "X", "Y"]
  {
    hide Order;
    var o := TopoOrder(GRAPH);
    FirstIsA(o);
    SecondIsX(o);
    assert o[2] in Elems(o) && o[2] in GRAPH;
  }

  lemma FreshLooks()
    ensures Looks(GRAPH, Fresh(MANIFEST, WORLD), FRESH)
  {
    GraphIs();
  }

  /** One visit that runs and fails, runs and succeeds, is skipped, or stops the loop. */
  lemma Computes(b: Brief, t: string)
    requires b.status.Keys == GRAPH.Keys && t in GRAPH
    ensures var v := BriefVisit(HOST, GRAPH, b, t);
      v == if b.status[t] == Completed then BriefTurn(b, false)
           else if Switch(b.polls) != Go then BriefTurn(b.(polls := b.polls + 1), true)
           else BriefTurn(BriefRun(HOST, b.(polls := b.polls + 1), t), false)
  {
    assert GRAPH[t] == {};
  }

  lemma LoopOfThree(b: Brief)
    requires b.status.Keys == GRAPH.Keys
    ensures Elems(["A", "X", "Y"]) <= GRAPH.Keys
    ensures var v := BriefVisit(HOST, GRAPH, b, "A");
      BriefLoop(HOST, GRAPH, b, ["A", "X", "Y"]) ==
      if v.stop || v.brief.status.Keys != GRAPH.Keys then v.brief
      else
        var u := BriefVisit(HOST, GRAPH, v.brief, "X");
        if u.stop || u.brief.status.Keys != GRAPH.Keys then u.brief
        else BriefVisit(HOST, GRAPH, u.brief, "Y").brief
  {
    hide BriefVisit;
    KeysKept(b, "A");
    var v := BriefVisit(HOST, GRAPH, b, "A").brief;
    KeysKept(v, "X");
    var u := BriefVisit(HOST, GRAPH, v, "X").brief;
    KeysKept(u, "Y");
    assert ["A", "X", "Y"][1..] == ["X", "Y"] && ["X", "Y"][1..] == ["Y"] && ["Y"][1..] == [];
    assert BriefLoop(HOST, GRAPH, u, ["Y"]) == BriefVisit(HOST, GRAPH, u, "Y").brief;
  }

  lemma KeysKept(b: Brief, t: string)
    requires b.status.Keys == GRAPH.Keys && t in GRAPH
    ensures BriefVisit(HOST, GRAPH, b, t).brief.status.Keys == GRAPH.Keys
  {
  }

  /** A failing visit and a succeeding one. */
  lemma Fails(b: Brief, t: string, b': Brief)
    requires b.status.Keys == GRAPH.Keys && t in GRAPH && t !in b.committed && b.status[t] != Completed
    requires Switch(b.polls) == Go && b.calls != 2 && b.calls != 5
    requires b' == Brief(b.status[t := Blocked], b.blockers + [Failed(HOST.ids(b.minted + 2), t)], b.committed,
                         b.polls + 1, b.calls + 1, b.minted + 3)
    ensures BriefVisit(HOST, GRAPH, b, t) == BriefTurn(b', false)
  {
    hide RestartedIds;
    Computes(b, t);
  }

  lemma Succeeds(b: Brief, t: string, b': Brief)
    requires b.status.Keys == GRAPH.Keys && t in GRAPH && t !in b.committed && b.status[t] != Completed
    requires Switch(b.polls) == Go && (b.calls == 2 || b.calls == 5)
    requires b' == Brief(b.status[t := Completed], b.blockers, b.committed + {t}, b.polls + 1, b.calls + 1,
                         b.minted + 2)
    ensures BriefVisit(HOST, GRAPH, b, t) == BriefTurn(b', false)
  {
    hide RestartedIds;
    Computes(b, t);
  }

  lemma RunComputes()
    ensures Elems(["A", "X", "Y"]) <= GRAPH.Keys && BriefLoop(HOST, GRAPH, FRESH, ["A", "X", "Y"]) == RAN
  {
    hide BriefVisit, BriefLoop;
    var v := Brief(map["A" := Blocked, "X" := Pending, "Y" := Pending], [Failed(FIRST, "A")], {}, 1, 1, 3);
    var u := Brief(map["A" := Blocked, "X" := Blocked, "Y" := Pending], RAN.blockers, {}, 2, 2, 6);
    RestartedFacts();
    LoopOfThree(FRESH);
    Fails(FRESH, "A", v);
    Fails(v, "X", u);
    Computes(u, "Y");
  }

  lemma FirstResumeComputes()
    ensures Elems(["A", "X", "Y"]) <= GRAPH.Keys && BriefLoop(HOST, GRAPH, OVERRIDDEN, ["A", "X", "Y"]) == RESUMED
  {
    hide BriefVisit, BriefLoop;
    var v := Brief(map["A" := Completed, "X" := Blocked, "Y" := Pending], [Failed(SECOND, "X")], {"A"}, 4, 3, 8);
    var u := Brief(map["A" := Completed, "X" := Blocked, "Y" := Pending], [Failed(SECOND, "X"), Failed(FIRST, "X")],
                   {"A"},
                   5, 4, 11);
    RestartedFacts();
    LoopOfThree(OVERRIDDEN);
    Succeeds(OVERRIDDEN, "A", v);
    Fails(v, "X", u);
    Fails(u, "Y", RESUMED);
  }

  lemma SecondResumeComputes()
    ensures Elems(["A", "X", "Y"]) <= GRAPH.Keys && BriefLoop(HOST, GRAPH, CLOSED, ["A", "X", "Y"]) == WRONG
  {
    hide BriefVisit, BriefLoop;
    var u := Brief(map["A" := Completed, "X" := Completed, "Y" := Blocked], [], {"A", "X"}, 7, 6, 16);
    LoopOfThree(CLOSED);
    Computes(CLOSED, "A");
    Succeeds(CLOSED, "X", u);
    Computes(u, "Y");
  }

  lemma ThirdResumeComputes()
    ensures Elems(["A", "X", "Y"]) <= GRAPH.Keys && BriefLoop(HOST, GRAPH, WRONG, ["A", "X", "Y"]) == REOPENED
  {
    hide BriefVisit, BriefLoop;
    RestartedFacts();
    LoopOfThree(WRONG);
    Computes(WRONG, "A");
    Computes(WRONG, "X");
    Fails(WRONG, "Y", REOPENED);
  }

  lemma OverridesCompute()
    ensures BriefOverride(RAN, FIRST) == OVERRIDDEN
    ensures BriefOverride(RESUMED, SECOND) == UNCOVERED
    ensures BriefOverride(UNCOVERED, FIRST) == CLOSED
  {
    FirstIsNotSecond();
    RemovesFirstOfTwo(RAN.blockers[0], RAN.blockers[1], FIRST);
    RemovesEnds(RESUMED.blockers[0], RESUMED.blockers[1], RESUMED.blockers[2], SECOND);
    RemovesOnly(UNCOVERED.blockers[0], FIRST);
  }

  lemma RemovesOnly(a: Blocker, id: string)
    requires a.blockerId == id
    ensures WithoutBlocker([a], id) == [] && FindBlocker([a], id) == 0
  {
    assert [a][1..] == [];
  }

  lemma RemovesFirstOfTwo(a: Blocker, b: Blocker, id: string)
    requires a.blockerId == id && b.blockerId != id
    ensures WithoutBlocker([a, b], id) == [b] && FindBlocker([a, b], id) == 0
  {
    assert [a, b][1..] == [b] && [b][1..] == [];
    assert WithoutBlocker([b], id) == [b];
  }

  lemma RemovesEnds(a: Blocker, b: Blocker, c: Blocker, id: string)
    requires a.blockerId == id && b.blockerId != id && c.blockerId == id
    ensures WithoutBlocker([a, b, c], id) == [b] && FindBlocker([a, b, c], id) == 0
  {
    assert [a, b, c][1..] == [b, c] && [b, c][1..] == [c];
    RemovesOnly(c, id);
    assert WithoutBlocker([b, c], id) == [b];
  }

  /** The state after the first n operations; there are six. */
  ghost function At(n: nat): State
    requires n <= 6
  {
    assert |OPS| == 6;
    History(HOST, MANIFEST, WORLD, CFG, OPS[..n])
  }

  lemma AtNext(n: nat)
    requires n < 6
    ensures Fits(GraphOf(NODES), At(n)) && At(n + 1) == Apply(HOST, GraphOf(NODES), At(n), OPS[n])
  {
    hide Apply, Run;
    assert OPS[..n + 1][..n] == OPS[..n];
  }

  lemma RunLooksRan()
    ensures Looks(GRAPH, At(0), RAN)
  {
    hide Drive, Looks, BriefLoop, Order, InitLedger;
    GraphIs();
    OrderIs();
    FreshLooks();
    RestartedFacts();
    RunComputes();
    DriveLooks(HOST, GRAPH, Fresh(MANIFEST, WORLD), FRESH);
    assert OPS[..0] == [];
  }

  lemma AfterOverride(n: nat, b: Brief, id: string)
    requires n < 6 && OPS[n] == OverrideOp(id) && Looks(GRAPH, At(n), b)
    ensures Looks(GRAPH, At(n + 1), BriefOverride(b, id))
  {
    hide Looks, History, BriefOverride, Apply;
    GraphIs();
    AtNext(n);
    OverrideLooks(HOST, GRAPH, At(n), b, id, "op", "t");
  }

  lemma AfterResume(n: nat, b: Brief)
    requires n < 6 && OPS[n] == ResumeOp(CFG) && Looks(GRAPH, At(n), b)
    ensures Elems(["A", "X", "Y"]) <= GRAPH.Keys && b.status.Keys == GRAPH.Keys
    ensures var b' := BriefLoop(HOST, GRAPH, b, ["A", "X", "Y"]);
      Looks(GRAPH, At(n + 1), b') && (At(n + 1).l.reconciliation.allowed <==> Clear(b'))
  {
    hide Looks, History, BriefLoop, Drive, Order;
    GraphIs();
    OrderIs();
    RestartedFacts();
    LooksFit(GRAPH, At(n), b);
    AtNext(n);
    ResumeLooks(HOST, GRAPH, At(n), b);
  }

  /** Where the history stands after its run and after each operation. */
  lemma HistoryComputes()
    ensures Looks(GRAPH, At(0), RAN) && Looks(GRAPH, At(1), OVERRIDDEN) && Looks(GRAPH, At(2), RESUMED)
    ensures Looks(GRAPH, At(3), UNCOVERED) && Looks(GRAPH, At(4), CLOSED)
    ensures Looks(GRAPH, At(5), WRONG) && (At(5).l.reconciliation.allowed <==> Clear(WRONG))
    ensures Looks(GRAPH, At(6), REOPENED) && (At(6).l.reconciliation.allowed <==> Clear(REOPENED))
  {
    hide Looks, At, BriefLoop, BriefOverride, Clear;
    RunLooksRan();
    OverridesCompute();
    AfterOverride(0, RAN, FIRST);
    AfterResume(1, OVERRIDDEN);
    FirstResumeComputes();
    AfterOverride(2, RESUMED, SECOND);
    AfterOverride(3, UNCOVERED, FIRST);
    AfterResume(4, CLOSED);
    SecondResumeComputes();
    AfterResume(5, WRONG);
    ThirdResumeComputes();
  }

  /** The segments of `RestartedIds` are single sources, and they begin where the run and the resumes begin. */
  lemma SegmentsAreSources()
    ensures forall k: nat :: k < 6 ==> HOST.ids(k) == IdFor(Failing, k)
    ensures forall k: nat :: k < 8 ==> HOST.ids(At(1).w.minted + k) == IdFor(Recovering, k)
    ensures forall k: nat :: k < 2 ==> HOST.ids(At(4).w.minted + k) == IdFor(Recovering, k)
    ensures forall k: nat :: HOST.ids(At(5).w.minted + k) == IdFor(Failing, k)
  {
    hide At, IdFor;
    HistoryComputes();
  }

  /**
   * With a new id source for each resume, an override of one task's blocker also takes the last blocker of another:
   * `allowed` becomes true with a blocked task, and a further resume takes it back. The guard sees it coming: the
   * second override does not spare the others.
   */
  lemma RestartedIdsReconcileTooEarly()
    ensures ClockOk(HOST)
    ensures var l := At(5).l;
      l.reconciliation.allowed && l.blockers == [] && "Y" in l.tasks && l.tasks["Y"].status == Blocked
    ensures !At(6).l.reconciliation.allowed
    ensures SparesOthers(At(0).l, FIRST) && !SparesOthers(At(2).l, SECOND)
  {
    hide At, Looks, SparesOthers;
    HistoryComputes();
    RestartedFacts();
    LooksRead(At(0), RAN, "Y");
    LooksRead(At(2), RESUMED, "Y");
    LooksRead(At(5), WRONG, "Y");
    FirstSpares(At(0).l);
    SecondDoesNot(At(2).l);
  }

  lemma LooksRead(s: State, b: Brief, t: string)
    requires Looks(GRAPH, s, b) && t in GRAPH
    ensures s.l.tasks.Keys == GRAPH.Keys && t in b.status && s.l.tasks[t].status == b.status[t]
    ensures s.l.blockers == b.blockers
  {
  }

  lemma FirstSpares(l: Ledger)
    requires l.tasks.Keys == GRAPH.Keys && l.blockers == RAN.blockers
    requires l.tasks["Y"].status == Pending
    ensures SparesOthers(l, FIRST)
  {
    FirstIsNotSecond();
    RemovesFirstOfTwo(RAN.blockers[0], RAN.blockers[1], FIRST);
    assert KeepsBlocker(l.blockers, FIRST, "X") by { assert l.blockers[1].taskId == "X"; }
  }

  lemma SecondDoesNot(l: Ledger)
    requires l.tasks.Keys == GRAPH.Keys && l.blockers == RESUMED.blockers && l.tasks["Y"].status == Blocked
    ensures !SparesOthers(l, SECOND)
  {
    FirstIsNotSecond();
    RemovesEnds(RESUMED.blockers[0], RESUMED.blockers[1], RESUMED.blockers[2], SECOND);
    assert !Reopens(l.blockers, SECOND, "Y") && !KeepsBlocker(l.blockers, SECOND, "Y");
  }

  // ---- A stale override ----------------------------------------------------------------------------

  const ONE_NODE := [TaskNode("A", "a", true, [])]
  const ONE := Manifest("1.0", SOURCE, true, 90, SCOPE, ONE_NODE)
  const ONE_GRAPH: Graph := map["A" := {}]

  function AnswerLater(t: string, n: nat): ExecResult { ExecResult(n > 0, [], None, None, false) }
  function TwoSources(k: nat): string { if k < 3 then IdFor(Failing, k) else IdFor(Recovering, k - 3) }

  const LATER := Host(n => "t", TwoSources, AnswerLater, n => Go)
  const STALE_OPS := [ResumeOp(CFG), OverrideOp(FIRST)]

  const BEGUN := Brief(map["A" := Pending], [], {}, 0, 0, 0)
  const BLOCKED := Brief(map["A" := Blocked], [Failed(FIRST, "A")], {}, 1, 1, 3)
  const RECOVERED := Brief(map["A" := Completed], [Failed(FIRST, "A")], {"A"}, 2, 2, 5)
  const STRANDED := Brief(map["A" := Pending], [], {"A"}, 2, 2, 5)

  lemma OneGraphIs()
    ensures GraphOf(ONE_NODE) == ONE_GRAPH && TopoOrder(ONE_GRAPH) == ["A"]
  {
    var none: seq<string> := [];
    assert Elems(none) == {};
    assert ONE_NODE[..0] == [];
    OrderIsPermutation(ONE_GRAPH, DefaultRank);
    var o := TopoOrder(ONE_GRAPH);
    assert ONE_GRAPH.Keys == {"A"} && |o| == 1 && o[0] in Elems(o);
  }

  lemma LaterFacts()
    ensures LATER.ids(2) == FIRST && Plain(LATER) && ClockOk(LATER)
  {
    FailingIds();
  }

  lemma OneVisit(b: Brief, b': Brief)
    requires b.status.Keys == ONE_GRAPH.Keys && !BriefVisit(LATER, ONE_GRAPH, b, "A").stop
    requires BriefVisit(LATER, ONE_GRAPH, b, "A").brief == b'
    ensures Elems(["A"]) <= ONE_GRAPH.Keys && BriefLoop(LATER, ONE_GRAPH, b, ["A"]) == b'
  {
    assert ["A"][1..] == [];
  }

  lemma StaleRun()
    ensures Looks(ONE_GRAPH, Run(LATER, ONE, WORLD, CFG), BLOCKED)
  {
    hide BriefLoop, Drive, Order;
    OneGraphIs();
    LaterFacts();
    assert Looks(ONE_GRAPH, Fresh(ONE, WORLD), BEGUN);
    OneVisit(BEGUN, BLOCKED);
    DriveLooks(LATER, ONE_GRAPH, Fresh(ONE, WORLD), BEGUN);
  }

  lemma StaleResume(s: State)
    requires Looks(ONE_GRAPH, s, BLOCKED)
    ensures Fits(ONE_GRAPH, s) && Looks(ONE_GRAPH, Resume(LATER, ONE_GRAPH, s, CFG), RECOVERED)
  {
    hide BriefLoop, Drive, Order, Looks;
    OneGraphIs();
    LaterFacts();
    LooksFit(ONE_GRAPH, s, BLOCKED);
    OneVisit(BLOCKED, RECOVERED);
    ResumeLooks(LATER, ONE_GRAPH, s, BLOCKED);
  }

  lemma LooksStuck(s: State)
    requires Looks(ONE_GRAPH, s, STRANDED) && KeysMatch(s.l.journal)
    ensures Stuck(s, "A")
  {
    CommittedByKey(s.l.journal, "A");
  }

  lemma GoodKeys(g: Graph, s: State)
    requires Good(g, s)
    ensures KeysMatch(s.l.journal)
  {
  }

  /**
   * A stuck task is reached by three ordinary steps: A fails, a resume runs it again and succeeds, and an operator
   * overrides the blocker the first failure left open.
   */
  lemma StaleOverrideStrands()
    ensures ClockOk(LATER)
    ensures var s := History(LATER, ONE, WORLD, CFG, STALE_OPS);
      Good(GraphOf(ONE_NODE), s) && Stuck(s, "A") && "A" in s.l.tasks && s.l.tasks["A"].status == Pending
  {
    hide Looks, Resume, Run, Good;
    var g := ONE_GRAPH;
    OneGraphIs();
    LaterFacts();
    StaleRun();
    var s0 := Run(LATER, ONE, WORLD, CFG);
    StaleResume(s0);
    var s1 := Resume(LATER, g, s0, CFG);
    RemovesOnly(RECOVERED.blockers[0], FIRST);
    assert BriefOverride(RECOVERED, FIRST) == STRANDED;
    OverrideLooks(LATER, g, s1, RECOVERED, FIRST, "op", "t");
    assert STALE_OPS[..1] == [STALE_OPS[0]] && [STALE_OPS[0]][..0] == [];
    assert ApplyAll(LATER, g, s0, []) == s0;
    assert ApplyAll(LATER, g, s0, [STALE_OPS[0]]) == s1;
    var s := History(LATER, ONE, WORLD, CFG, STALE_OPS);
    assert s == Apply(LATER, g, s1, STALE_OPS[1]);
    HistoryIsGood(LATER, ONE, WORLD, CFG, STALE_OPS);
    GoodKeys(g, s);
    LooksStuck(s);
    OneRead(s);
  }

  lemma OneRead(s: State)
    requires Looks(ONE_GRAPH, s, STRANDED)
    ensures "A" in s.l.tasks && s.l.tasks["A"].status == Pending
  {
  }
}
