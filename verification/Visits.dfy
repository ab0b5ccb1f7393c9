/** Inside a run or resume: the state at each visit of its loop, and what the visit does there. */
module Visits {
  import opened Prelude
  import opened HashChain
  import opened Topo
  import opened Ledgers
  import opened RunLoop
  import opened Steps
  import opened Invariants
  import opened Histories

  /** The state in which the loop comes to position i of its order, unless it stopped before. */
  function AtVisit(host: Host, g: Graph, s: State, order: seq<string>, i: nat, cfg: Config): (r: Option<State>)
    requires Fits(g, s) && Elems(order) <= g.Keys && i <= |order|
    ensures r.Some? ==> Fits(g, r.value)
    decreases i
  {
    if i == 0 then Some(s)
    else
      assert order[i - 1] in Elems(order);
      match AtVisit(host, g, s, order, i - 1, cfg)
      case None => None
      case Some(before) =>
        match Visit(host, g, before, order[i - 1], cfg)
        case Next(after) => Some(after)
        case Stop(_, _) => None
  }

  lemma LoopTurn(host: Host, g: Graph, s: State, order: seq<string>, i: nat, cfg: Config)
    requires Fits(g, s) && Elems(order) <= g.Keys && i < |order|
    ensures Elems(order[i..]) <= g.Keys && Elems(order[i + 1..]) <= g.Keys && order[i] in g
    ensures var turn := Visit(host, g, s, order[i], cfg);
      Loop(host, g, s, order[i..], cfg) ==
      match turn { case Next(s1) => Loop(host, g, s1, order[i + 1..], cfg) case Stop(s1, runState) => (s1, runState) }
  {
    hide Visit;
    assert order[i] in Elems(order) && Elems(order[i..]) <= Elems(order) && Elems(order[i + 1..]) <= Elems(order);
    assert order[i] == order[i..][0] && order[i..][1..] == order[i + 1..];
  }

  /** The visits are those of the loop: from a visit that is reached, the loop goes on with the rest of the order. */
  lemma {:induction false} LoopPassesVisit(host: Host, g: Graph, s: State, order: seq<string>, i: nat, cfg: Config)
    requires Fits(g, s) && Elems(order) <= g.Keys && i <= |order| && AtVisit(host, g, s, order, i, cfg).Some?
    ensures Elems(order[i..]) <= g.Keys
    ensures Loop(host, g, s, order, cfg) == Loop(host, g, AtVisit(host, g, s, order, i, cfg).value, order[i..], cfg)
  {
    hide Visit, Loop;
    if i == 0 {
      assert order[0..] == order;
    } else {
      LoopPassesVisit(host, g, s, order, i - 1, cfg);
      LoopTurn(host, g, AtVisit(host, g, s, order, i - 1, cfg).value, order, i - 1, cfg);
    }
  }

  lemma VisitBefore(host: Host, g: Graph, s: State, order: seq<string>, i: nat, cfg: Config)
    requires Fits(g, s) && Elems(order) <= g.Keys && 0 < i <= |order| && AtVisit(host, g, s, order, i, cfg).Some?
    ensures order[i - 1] in g && AtVisit(host, g, s, order, i - 1, cfg).Some?
    ensures Visit(host, g, AtVisit(host, g, s, order, i - 1, cfg).value, order[i - 1], cfg)
            == Next(AtVisit(host, g, s, order, i, cfg).value)
  {
    hide Visit;
    assert order[i - 1] in Elems(order);
  }

  /** A sound state that came about from s by turns of the loop alone. */
  ghost predicate LoopedTo(g: Graph, s: State, s': State) {
    Inv(g, s') && Evolves(s, s') && LoopFrame(s, s')
  }

  lemma VisitLoops(host: Host, g: Graph, s: State, before: State, t: string, cfg: Config, after: State)
    requires ClockOk(host) && LoopedTo(g, s, before) && t in g
    requires Fits(g, before) && Visit(host, g, before, t, cfg) == Next(after)
    ensures LoopedTo(g, s, after)
  {
    hide Inv, Evolves, Turned, Visit;
    InvBasics(g, before);
    VisitEffect(host, g, before, t, cfg);
    TurnKeepsInv(host, g, before, after, t, cfg, false);
    TurnEvolves(host, g, before, after, t, cfg, false);
    EvolvesTransitive(s, before, after);
  }

  lemma {:induction false} VisitsKeepInv(host: Host, g: Graph, s: State, order: seq<string>, i: nat, cfg: Config)
    requires ClockOk(host) && Fits(g, s) && Inv(g, s) && Elems(order) <= g.Keys && i <= |order|
    requires AtVisit(host, g, s, order, i, cfg).Some?
    ensures LoopedTo(g, s, AtVisit(host, g, s, order, i, cfg).value)
  {
    hide Visit, Inv, Evolves;
    if i == 0 {
      EvolvesReflexive(s);
    } else {
      hide AtVisit, LoopedTo;
      VisitBefore(host, g, s, order, i, cfg);
      VisitsKeepInv(host, g, s, order, i - 1, cfg);
      VisitLoops(host, g, s, AtVisit(host, g, s, order, i - 1, cfg).value, order[i - 1], cfg,
                 AtVisit(host, g, s, order, i, cfg).value);
    }
  }

  /** The entry of t and whether it was committed are as they were. */
  ghost predicate KeptFor(s: State, s': State, t: string) {
    && t in s.l.tasks && t in s'.l.tasks && s'.l.tasks[t] == s.l.tasks[t]
    && (CommittedIn(s'.l.journal, t) <==> CommittedIn(s.l.journal, t))
  }

  /** A turn for another task leaves t's entry and t's commits alone. */
  lemma TurnSparesOthers(host: Host, g: Graph, s: State, s': State, u: string, cfg: Config, stopped: bool, t: string)
    requires Fits(g, s) && u in g && t in g && t != u && Turned(host, g, s, s', u, cfg, stopped)
    ensures KeptFor(s, s', t)
  {
    hide Called, Opened;
    if !stopped && s.l.tasks[u].status != Completed && g[u] <= CompletedSet(s.l.tasks)
       && !AlreadyCommitted(s.l.journal, u)
    {
      var w0 :| Executed(host, s, s', u, cfg, w0);
      var e := Retry(host, w0, u, 0, cfg);
      RanSparesOthers(s, s', u, e.result, e.attempts, t);
    }
  }

  lemma RanSparesOthers(s: State, s': State, u: string, r: ExecResult, n: nat, t: string)
    requires Ran(s, s', u, r, n) && t in s.l.tasks && t != u
    ensures KeptFor(s, s', t)
  {
    hide Called;
    var J, J' := s.l.journal, s'.l.journal;
    assert forall i :: 0 <= i < |J| ==> J'[i] == J[i];
  }

  /** Until its own visit, a task keeps the status and the commits it had when the loop began. */
  lemma {:induction false} UntouchedUntilVisit(host: Host, g: Graph, s: State, order: seq<string>, i: nat, cfg: Config,
                                               t: string)
    requires ClockOk(host) && Fits(g, s) && Inv(g, s) && Elems(order) <= g.Keys && i <= |order|
    requires AtVisit(host, g, s, order, i, cfg).Some? && t in g && forall k :: 0 <= k < i ==> order[k] != t
    ensures KeptFor(s, AtVisit(host, g, s, order, i, cfg).value, t)
  {
    hide Inv, Evolves, Turned, Visit, CommittedIn, LoopFrame;
    if i > 0 {
      hide AtVisit;
      VisitBefore(host, g, s, order, i, cfg);
      UntouchedUntilVisit(host, g, s, order, i - 1, cfg, t);
      VisitsKeepInv(host, g, s, order, i - 1, cfg);
      var before := AtVisit(host, g, s, order, i - 1, cfg).value;
      InvBasics(g, before);
      VisitEffect(host, g, before, order[i - 1], cfg);
      TurnSparesOthers(host, g, before, AtVisit(host, g, s, order, i, cfg).value, order[i - 1], cfg, false, t);
    }
  }

  // ---- Every visit of every drive ------------------------------------------------------------------

  /** A state from which a history drives the loop: its fresh run, or one of its resumes. */
  ghost predicate StartsDrive(host: Host, m: Manifest, w: World, cfg: Config, ops: seq<Op>, s: State, c: Config) {
    || (s == Fresh(m, w) && c == cfg)
    || exists k :: 0 <= k < |ops| && ops[k] == ResumeOp(c) && s == Resumed(History(host, m, w, cfg, ops[..k]))
  }

  function Resumed(s: State): State { s.(l := s.l.(runState := Running)) }

  lemma DriveStartsGood(host: Host, m: Manifest, w: World, cfg: Config, ops: seq<Op>, s: State, c: Config)
    requires ClockOk(host) && StartsDrive(host, m, w, cfg, ops, s, c)
    ensures Fits(GraphOf(m.tasks), s) && Inv(GraphOf(m.tasks), s)
  {
    hide Inv, History, Evolves;
    var g := GraphOf(m.tasks);
    if s == Fresh(m, w) && c == cfg {
      FreshInv(m, w);
      InvBasics(g, s);
    } else {
      var k :| 0 <= k < |ops| && ops[k] == ResumeOp(c) && s == Resumed(History(host, m, w, cfg, ops[..k]));
      HistoryIsGood(host, m, w, cfg, ops[..k]);
      SameFactsKeep(g, History(host, m, w, cfg, ops[..k]), s);
      InvBasics(g, s);
    }
  }

  /** The state in which a run or resume comes to the i-th task of the topological order. */
  ghost function VisitIn(host: Host, g: Graph, s: State, i: nat, cfg: Config): (r: Option<State>)
    requires Fits(g, s) && i < |TopoOrder(g)|
    ensures TopoOrder(g)[i] in g && (r.Some? ==> Fits(g, r.value))
  {
    OrderIsPermutation(g, DefaultRank);
    assert TopoOrder(g)[i] in Elems(TopoOrder(g));
    AtVisit(host, g, s, TopoOrder(g), i, cfg)
  }

  /** At every visit of every run and resume of a history, all leases are released and the task's lease can be had. */
  lemma NoLeaseConflict(host: Host, m: Manifest, w: World, cfg: Config, ops: seq<Op>, s: State, c: Config, i: nat)
    requires ClockOk(host)
    ensures StartsDrive(host, m, w, cfg, ops, s, c) ==> Fits(GraphOf(m.tasks), s)
    ensures var g := GraphOf(m.tasks);
      StartsDrive(host, m, w, cfg, ops, s, c) && i < |TopoOrder(g)| && VisitIn(host, g, s, i, c).Some? ==>
        var s' := VisitIn(host, g, s, i, c).value;
        LeasesReleased(s'.l) && CanAcquire(s'.l.leases, TopoOrder(g)[i], host.clock(s'.w.ticks))
  {
    hide Inv, Order, Evolves, StartsDrive, AtVisit, LeasesReleased, CanAcquire;
    var g := GraphOf(m.tasks);
    var order := TopoOrder(g);
    if StartsDrive(host, m, w, cfg, ops, s, c) {
      DriveStartsGood(host, m, w, cfg, ops, s, c);
      if i < |order| && VisitIn(host, g, s, i, c).Some? {
        OrderIsPermutation(g, DefaultRank);
        VisitsKeepInv(host, g, s, order, i, c);
        var s' := VisitIn(host, g, s, i, c).value;
        InvBasics(g, s');
        ReleasedMeansAcquirable(s'.l, order[i], host.clock(s'.w.ticks));
      }
    }
  }

  // ---- When a visit runs its task --------------------------------------------------------------------

  /**
   * The loop calls the executor on a visit exactly when nothing stops it: not done, no stop, dependencies, no commit.
   */
  lemma VisitCallsIff(host: Host, g: Graph, s: State, t: string, cfg: Config)
    requires ClockOk(host) && Fits(g, s) && Inv(g, s) && t in g
    ensures var s' := Visit(host, g, s, t, cfg).s;
      && s.w.calls <= s'.w.calls && s.l.blockers <= s'.l.blockers
      && (s'.w.calls != s.w.calls <==>
            && s.l.tasks[t].status != Completed && host.control(s.w.polls) == Go
            && g[t] <= CompletedSet(s.l.tasks) && !CommittedIn(s.l.journal, t))
  {
    hide Retry, CommittedIn, AlreadyCommitted, RunTask, BlockUnmet, Opened, Owned;
    VisitEffect(host, g, s, t, cfg);
    CommittedByKey(s.l.journal, t);
    var turn := Visit(host, g, s, t, cfg);
    StopsIff(host, g, s, t, cfg);
    if !turn.Stop? && s.l.tasks[t].status != Completed && g[t] <= CompletedSet(s.l.tasks)
        && !AlreadyCommitted(s.l.journal, t) {
      var w0 :| Executed(host, s, turn.s, t, cfg, w0);
      assert |turn.s.w.calls| > |s.w.calls|;
    }
  }

  lemma StopsIff(host: Host, g: Graph, s: State, t: string, cfg: Config)
    requires t in s.l.tasks && t in g
    ensures Visit(host, g, s, t, cfg).Stop? <==> s.l.tasks[t].status != Completed && host.control(s.w.polls) != Go
  {
  }

  /**
   * A resume runs a blocked task again without any override, exactly when its visit is reached and not stopped, its
   * dependencies are completed by then and it was never committed; its old blockers stay open.
   */
  lemma ResumeRunsBlockedIff(host: Host, m: Manifest, w: World, cfg: Config, ops: seq<Op>, last: Config, i: nat)
    requires ClockOk(host)
    ensures var g, s := GraphOf(m.tasks), History(host, m, w, cfg, ops);
      && i < |TopoOrder(g)| && VisitIn(host, g, Resumed(s), i, last).Some?
      && s.l.tasks[TopoOrder(g)[i]].status == Blocked ==>
        var t := TopoOrder(g)[i];
        var s1 := VisitIn(host, g, Resumed(s), i, last).value;
        var s2 := Visit(host, g, s1, t, last).s;
        && s.l.blockers <= s1.l.blockers <= s2.l.blockers
        && (s2.w.calls != s1.w.calls <==>
              host.control(s1.w.polls) == Go && g[t] <= CompletedSet(s1.l.tasks) && !CommittedIn(s.l.journal, t))
  {
    hide Inv, Order, Evolves, History, AtVisit, Visit, CommittedIn, CompletedSet;
    var g, s := GraphOf(m.tasks), History(host, m, w, cfg, ops);
    var order := TopoOrder(g);
    if i < |order| && VisitIn(host, g, Resumed(s), i, last).Some? && s.l.tasks[order[i]].status == Blocked {
      var t := order[i];
      OrderIsPermutation(g, DefaultRank);
      HistoryIsGood(host, m, w, cfg, ops);
      SameFactsKeep(g, s, Resumed(s));
      VisitsKeepInv(host, g, Resumed(s), order, i, last);
      UntouchedUntilVisit(host, g, Resumed(s), order, i, last, t);
      VisitCallsIff(host, g, VisitIn(host, g, Resumed(s), i, last).value, t, last);
    }
  }
}
