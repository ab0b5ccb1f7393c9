/** A fresh run in detail: what each task has left behind, and when the run hands over as completed. */
module FreshRuns {
  import opened Prelude
  import opened HashChain
  import opened Topo
  import opened Ledgers
  import opened RunLoop
  import opened Steps
  import opened Invariants
  import opened Histories
  import opened Gates

  // ---- Per-task facts ------------------------------------------------------------------------------

  /** The status changes recorded for one task, in order. */
  function RowsOf(history: seq<HistoryRow>, t: string): seq<(Status, Status)> {
    if history == [] then []
    else
      var n := |history| - 1;
      RowsOf(history[..n], t) + if history[n].taskId == t then [(history[n].from, history[n].to)] else []
  }

  lemma RowsAppend(history: seq<HistoryRow>, row: HistoryRow, t: string)
    ensures RowsOf(history + [row], t) == RowsOf(history, t) + if row.taskId == t then [(row.from, row.to)] else []
  {
    assert (history + [row])[..|history|] == history;
  }

  /** The rows link up: each starts where the one before ended, the first at `from`, the last at `to`. */
  ghost predicate Chained(rows: seq<(Status, Status)>, from: Status, to: Status) {
    && (rows == [] ==> from == to)
    && (rows != [] ==> rows[0].0 == from && rows[|rows| - 1].1 == to)
    && forall i :: 0 <= i < |rows| - 1 ==> rows[i].1 == rows[i + 1].0
  }

  ghost predicate Untouched(s: State, t: string)
    requires t in s.l.tasks
  {
    && s.l.tasks[t] == TaskEntry(Pending, [], false, None, None)
    && !HasBlocker(s.l.blockers, t)
    && (forall i :: 0 <= i < |s.w.calls| ==> s.w.calls[i].taskId != t)
    && RowsOf(s.l.history, t) == []
  }

  ghost predicate Visited(s: State, t: string)
    requires t in s.l.tasks
  {
    if s.l.tasks[t].status == Completed then
      && CommittedIn(s.l.journal, t) && !HasBlocker(s.l.blockers, t)
      && RowsOf(s.l.history, t) == [(Pending, InProgress), (InProgress, Completed)]
    else
      && s.l.tasks[t].status == Blocked && !CommittedIn(s.l.journal, t) && HasBlocker(s.l.blockers, t)
      && (|| RowsOf(s.l.history, t) == [(Pending, InProgress), (InProgress, Blocked)]
          || RowsOf(s.l.history, t) == [(Pending, Blocked)])
  }

  ghost predicate PerTask(s: State, todo: set<string>) {
    && (forall i :: 0 <= i < |s.l.blockers| ==> s.l.blockers[i].taskId in s.l.tasks)
    && forall t :: t in s.l.tasks ==> if t in todo then Untouched(s, t) else Visited(s, t)
  }

  /** A task passed, and has evidence, exactly when the result accepted for it carried evidence. */
  ghost predicate EvidenceMatches(s: State) {
    && (forall i :: 0 <= i < |s.w.calls| && s.w.calls[i].result.success ==>
          var t := s.w.calls[i].taskId;
          t in s.l.tasks && (s.l.tasks[t].passed <==> s.w.calls[i].result.evidence.Some?)
          && (s.l.tasks[t].evidenceRefs != [] <==> s.w.calls[i].result.evidence.Some?))
    && (forall i :: 0 <= i < |s.l.evidence| ==>
          s.l.evidence[i].taskId in s.l.tasks && s.l.tasks[s.l.evidence[i].taskId].passed)
  }

  ghost predicate PathReported(calls: seq<Call>, p: string) {
    exists i :: 0 <= i < |calls| && calls[i].result.success && p in calls[i].result.paths
  }

  ghost predicate PathLogged(events: seq<Event>, p: string) {
    exists i :: 0 <= i < |events| && p in events[i].paths
  }

  /** Accepted paths are logged; logged ones were accepted, or belong to the undo of a blocked task. */
  ghost predicate PathsMatch(s: State) {
    && (forall p :: PathReported(s.w.calls, p) ==> PathLogged(s.l.events, p))
    && (forall i, p :: 0 <= i < |s.l.events| && p in s.l.events[i].paths && s.l.events[i].kind != Compensation ==>
          PathReported(s.w.calls, p))
    && (forall i :: 0 <= i < |s.l.events| && s.l.events[i].kind == Compensation ==> s.l.blockers != [])
  }

  ghost predicate FreshFacts(s: State, todo: set<string>) {
    PerTask(s, todo) && EvidenceMatches(s) && PathsMatch(s)
  }

  // ---- Turns ---------------------------------------------------------------------------------------

  /** Nothing about other tasks changed. */
  lemma OthersUnchanged(host: Host, s: State, s': State, t: string, u: string)
    requires Frame(s, s', t) && u != t && u in s.l.tasks
    requires s.w.calls <= s'.w.calls && forall i :: |s.w.calls| <= i < |s'.w.calls| ==> s'.w.calls[i].taskId == t
    requires forall i :: |s.l.journal| <= i < |s'.l.journal| ==> s'.l.journal[i].taskId == t
    requires forall i :: |s.l.blockers| <= i < |s'.l.blockers| ==> s'.l.blockers[i].taskId == t
    requires RowsOf(s'.l.history, u) == RowsOf(s.l.history, u)
    ensures s'.l.tasks[u] == s.l.tasks[u]
    ensures Untouched(s, u) ==> Untouched(s', u)
    ensures Visited(s, u) ==> Visited(s', u)
  {
    assert forall i :: 0 <= i < |s.l.blockers| ==> s'.l.blockers[i] == s.l.blockers[i];
    assert forall i :: 0 <= i < |s.l.journal| ==> s'.l.journal[i] == s.l.journal[i];
    assert HasBlocker(s'.l.blockers, u) <==> HasBlocker(s.l.blockers, u);
    assert CommittedIn(s'.l.journal, u) <==> CommittedIn(s.l.journal, u);
  }

  lemma RowsTwo(h: seq<HistoryRow>, h': seq<HistoryRow>, t: string, u: string)
    requires h <= h' && |h'| == |h| + 2 && h'[|h|].taskId == t && h'[|h| + 1].taskId == t
    ensures RowsOf(h', u) == RowsOf(h, u) +
              if u == t then [(h'[|h|].from, h'[|h|].to), (h'[|h| + 1].from, h'[|h| + 1].to)] else []
  {
    var h1 := h + [h'[|h|]];
    assert h' == h1 + [h'[|h| + 1]];
    RowsAppend(h, h'[|h|], u);
    RowsAppend(h1, h'[|h| + 1], u);
  }

  lemma RowsOne(h: seq<HistoryRow>, h': seq<HistoryRow>, t: string, u: string)
    requires h <= h' && |h'| == |h| + 1 && h'[|h|].taskId == t
    ensures RowsOf(h', u) == RowsOf(h, u) + if u == t then [(h'[|h|].from, h'[|h|].to)] else []
  {
    assert h' == h + [h'[|h|]];
    RowsAppend(h, h'[|h|], u);
  }

  lemma AcceptedVisits(host: Host, s: State, s': State, todo: set<string>, t: string, r: ExecResult, n: nat)
    requires PerTask(s, todo) && Accepted(s, s', t, r, n) && t in todo
    ensures PerTask(s', todo - {t})
  {
    hide RowsOf;
    forall u | u in s'.l.tasks ensures if u in todo - {t} then Untouched(s', u) else Visited(s', u) {
      RowsTwo(s.l.history, s'.l.history, t, u);
      if u != t {
        OthersUnchanged(host, s, s', t, u);
      } else {
        AcceptedMarks(s, s', t, r, n, t);
      }
    }
  }

  lemma OpenedBlocks(host: Host, s: State, s': State, t: string)
    requires Opened(host, s, s', t)
    ensures HasBlocker(s'.l.blockers, t) && s'.l.tasks[t].status == Blocked
    ensures forall i :: |s.l.blockers| <= i < |s'.l.blockers| ==> s'.l.blockers[i].taskId == t
  {
    assert s'.l.blockers[|s.l.blockers|].taskId == t;
  }

  lemma RejectedVisits(host: Host, s: State, s': State, todo: set<string>, t: string, r: ExecResult, n: nat)
    requires PerTask(s, todo) && Rejected(host, s, s', t, r, n) && t in todo && !CommittedIn(s.l.journal, t)
    ensures PerTask(s', todo - {t})
  {
    hide RowsOf;
    OpenedBlocks(host, s, s', t);
    forall u | u in s'.l.tasks ensures if u in todo - {t} then Untouched(s', u) else Visited(s', u) {
      RowsTwo(s.l.history, s'.l.history, t, u);
      if u != t {
        OthersUnchanged(host, s, s', t, u);
      } else {
        RejectedIsQuiet(host, s, s', t, r, n);
        QuietMarks(s, s', t, t);
      }
    }
  }

  lemma UnmetVisits(host: Host, s: State, s': State, todo: set<string>, t: string)
    requires PerTask(s, todo) && Unmet(host, s, s', t) && t in todo && !CommittedIn(s.l.journal, t)
    ensures PerTask(s', todo - {t})
  {
    hide RowsOf;
    OpenedBlocks(host, s, s', t);
    forall u | u in s'.l.tasks ensures if u in todo - {t} then Untouched(s', u) else Visited(s', u) {
      RowsOne(s.l.history, s'.l.history, t, u);
      if u != t {
        OthersUnchanged(host, s, s', t, u);
      }
    }
  }

  lemma AcceptedEvidence(s: State, s': State, t: string, r: ExecResult, n: nat)
    requires EvidenceMatches(s) && Accepted(s, s', t, r, n) && Untouched(s, t)
    ensures EvidenceMatches(s')
  {
    var C, C' := s.w.calls, s'.w.calls;
    forall i | 0 <= i < |C'| && C'[i].result.success
      ensures var u := C'[i].taskId;
        u in s'.l.tasks && (s'.l.tasks[u].passed <==> C'[i].result.evidence.Some?)
        && (s'.l.tasks[u].evidenceRefs != [] <==> C'[i].result.evidence.Some?)
    {
      if i < |C| { assert C'[i] == C[i]; }
    }
    forall i | 0 <= i < |s'.l.evidence|
      ensures s'.l.evidence[i].taskId in s'.l.tasks && s'.l.tasks[s'.l.evidence[i].taskId].passed
    {
      if i < |s.l.evidence| { assert s'.l.evidence[i] == s.l.evidence[i]; }
    }
  }

  lemma OpenedEvidence(host: Host, s: State, s': State, t: string)
    requires EvidenceMatches(s) && Frame(s, s', t) && Opened(host, s, s', t) && Quiet(s, s', t)
    ensures EvidenceMatches(s')
  {
    var C, C' := s.w.calls, s'.w.calls;
    forall i | 0 <= i < |C'| && C'[i].result.success
      ensures var u := C'[i].taskId;
        u in s'.l.tasks && (s'.l.tasks[u].passed <==> C'[i].result.evidence.Some?)
        && (s'.l.tasks[u].evidenceRefs != [] <==> C'[i].result.evidence.Some?)
    {
      assert C'[i] == C[i];
    }
  }

  lemma ReportedExtends(C: seq<Call>, C': seq<Call>, p: string)
    requires C <= C' && PathReported(C, p)
    ensures PathReported(C', p)
  {
    var i :| 0 <= i < |C| && C[i].result.success && p in C[i].result.paths;
    assert C'[i] == C[i];
  }

  lemma LoggedExtends(E: seq<Event>, E': seq<Event>, p: string)
    requires E <= E' && PathLogged(E, p)
    ensures PathLogged(E', p)
  {
    var i :| 0 <= i < |E| && p in E[i].paths;
    assert E'[i] == E[i];
  }

  lemma AcceptedPaths(s: State, s': State, t: string, r: ExecResult, n: nat)
    requires PathsMatch(s) && Accepted(s, s', t, r, n)
    ensures PathsMatch(s')
  {
    var C, C', E, E' := s.w.calls, s'.w.calls, s.l.events, s'.l.events;
    var last := |C'| - 1;
    assert C'[last] == Call(t, r);
    forall p | PathReported(C', p) ensures PathLogged(E', p) {
      var i :| 0 <= i < |C'| && C'[i].result.success && p in C'[i].result.paths;
      if i < |C| {
        assert C[i] == C'[i];
        assert PathReported(C, p);
        LoggedExtends(E, E', p);
      } else {
        var k :| 0 <= k < |r.paths| && r.paths[k] == p;
        assert p in E'[|E| + 1 + k].paths;
      }
    }
    forall i, p | 0 <= i < |E'| && p in E'[i].paths && E'[i].kind != Compensation ensures PathReported(C', p) {
      if i < |E| {
        assert E'[i] == E[i];
        ReportedExtends(C, C', p);
      } else {
        assert p in C'[last].result.paths;
      }
    }
    forall i | 0 <= i < |E'| && E'[i].kind == Compensation ensures s'.l.blockers != [] {
      assert E'[i] == E[i];
    }
  }

  lemma OpenedPaths(host: Host, s: State, s': State, t: string)
    requires PathsMatch(s) && Frame(s, s', t) && Opened(host, s, s', t) && Quiet(s, s', t)
    requires OnlyUndoPaths(s, s')
    ensures PathsMatch(s')
  {
    var C, C', E, E' := s.w.calls, s'.w.calls, s.l.events, s'.l.events;
    forall p | PathReported(C', p) ensures PathLogged(E', p) {
      var i :| 0 <= i < |C'| && C'[i].result.success && p in C'[i].result.paths;
      assert C[i] == C'[i];
      assert PathReported(C, p);
      LoggedExtends(E, E', p);
    }
    forall i, p | 0 <= i < |E'| && p in E'[i].paths && E'[i].kind != Compensation ensures PathReported(C', p) {
      assert E'[i] == E[i];
      ReportedExtends(C, C', p);
    }
  }

  lemma TurnKeepsFresh(host: Host, g: Graph, s: State, s': State, todo: set<string>, t: string, cfg: Config)
    requires Inv(g, s) && FreshFacts(s, todo) && t in todo && t in g && Turned(host, g, s, s', t, cfg, false)
    ensures FreshFacts(s', todo - {t})
  {
    hide Inv, Frame, Ran, EvidenceMatches, PathsMatch, Accepted, Rejected, Unmet, Visited, Quiet;
    InvBasics(g, s);
    UntouchedIsUncommitted(g, s, t);
    if !(g[t] <= CompletedSet(s.l.tasks)) {
      UnmetFacts(host, s, s', todo, t);
    } else {
      var w0 :| Executed(host, s, s', t, cfg, w0);
      var e := Retry(host, w0, t, 0, cfg);
      if e.result.success {
        AcceptedVisits(host, s, s', todo, t, e.result, e.attempts);
        AcceptedEvidence(s, s', t, e.result, e.attempts);
        AcceptedPaths(s, s', t, e.result, e.attempts);
      } else {
        RejectedFacts(host, s, s', todo, t, e.result, e.attempts);
      }
    }
  }

  lemma UntouchedIsUncommitted(g: Graph, s: State, t: string)
    requires Inv(g, s) && t in g && Untouched(s, t)
    ensures !CommittedIn(s.l.journal, t) && !AlreadyCommitted(s.l.journal, t)
  {
    CommittedByKey(s.l.journal, t);
    assert !SucceededIn(s.w.calls, t);
  }

  /** Only the undo event of a turn that opened a blocker names paths. */
  ghost predicate OnlyUndoPaths(s: State, s': State) {
    forall i :: |s.l.events| <= i < |s'.l.events| && s'.l.events[i].paths != [] ==> s'.l.events[i].kind == Compensation
  }

  lemma UnmetParts(host: Host, s: State, s': State, t: string)
    requires Unmet(host, s, s', t)
    ensures Frame(s, s', t) && Opened(host, s, s', t) && OnlyUndoPaths(s, s')
  {
  }

  lemma RejectedParts(host: Host, s: State, s': State, t: string, r: ExecResult, n: nat)
    requires Rejected(host, s, s', t, r, n)
    ensures Frame(s, s', t) && Opened(host, s, s', t) && OnlyUndoPaths(s, s')
  {
  }

  lemma UnmetFacts(host: Host, s: State, s': State, todo: set<string>, t: string)
    requires FreshFacts(s, todo) && t in todo && !CommittedIn(s.l.journal, t) && Unmet(host, s, s', t)
    ensures FreshFacts(s', todo - {t})
  {
    hide Quiet, EvidenceMatches, PathsMatch, PerTask, Opened, CommittedIn;
    UnmetIsQuiet(host, s, s', t);
    UnmetParts(host, s, s', t);
    UnmetVisits(host, s, s', todo, t);
    OpenedEvidence(host, s, s', t);
    OpenedPaths(host, s, s', t);
  }

  lemma RejectedFacts(host: Host, s: State, s': State, todo: set<string>, t: string, r: ExecResult, n: nat)
    requires FreshFacts(s, todo) && t in todo && !CommittedIn(s.l.journal, t) && Rejected(host, s, s', t, r, n)
    ensures FreshFacts(s', todo - {t})
  {
    hide Quiet, EvidenceMatches, PathsMatch, PerTask, Opened, CommittedIn;
    RejectedIsQuiet(host, s, s', t, r, n);
    RejectedParts(host, s, s', t, r, n);
    RejectedVisits(host, s, s', todo, t, r, n);
    OpenedEvidence(host, s, s', t);
    OpenedPaths(host, s, s', t);
  }

  // ---- The run -------------------------------------------------------------------------------------

  lemma {:induction false} LoopKeepsFresh(host: Host, g: Graph, s: State, order: seq<string>, cfg: Config)
    returns (todo: set<string>)
    requires ClockOk(host) && Fits(g, s) && Inv(g, s) && NoDuplicates(order) && Elems(order) <= g.Keys
    requires FreshFacts(s, Elems(order))
    ensures FreshFacts(Loop(host, g, s, order, cfg).0, todo)
    ensures Loop(host, g, s, order, cfg).1 == Finished ==> todo == {}
    decreases |order|
  {
    todo := Elems(order);
    if order != [] {
      hide Inv, FreshFacts, Turned, Visit;
      InvBasics(g, s);
      var t, rest := order[0], order[1..];
      assert t in Elems(order);
      assert Elems(rest) == Elems(order) - {t} && NoDuplicates(rest) by { RestOfOrder(order); }
      var turn := Visit(host, g, s, t, cfg);
      VisitEffect(host, g, s, t, cfg);
      TurnKeepsInv(host, g, s, turn.s, t, cfg, turn.Stop?);
      if turn.Next? {
        TurnKeepsFresh(host, g, s, turn.s, Elems(order), t, cfg);
        todo := LoopKeepsFresh(host, g, turn.s, rest, cfg);
      } else {
        VisitStops(host, g, s, t, cfg);
        StoppedKeepsFresh(host, g, s, turn.s, t, cfg, todo);
      }
    }
  }

  lemma RestOfOrder(order: seq<string>)
    requires order != [] && NoDuplicates(order)
    ensures Elems(order[1..]) == Elems(order) - {order[0]} && NoDuplicates(order[1..])
  {
    var rest := order[1..];
    assert forall i :: 0 <= i < |rest| ==> rest[i] == order[i + 1];
    assert order == [order[0]] + rest;
  }

  lemma StoppedKeepsFresh(host: Host, g: Graph, s: State, s': State, t: string, cfg: Config, todo: set<string>)
    requires t in s.l.tasks && t in g && Turned(host, g, s, s', t, cfg, true) && FreshFacts(s, todo)
    ensures FreshFacts(s', todo)
  {
    hide RowsOf;
    assert forall u :: u in s.l.tasks ==> (Untouched(s, u) <==> Untouched(s', u))
                                           && (Visited(s, u) <==> Visited(s', u));
  }

  lemma SameFactsFresh(s: State, s': State, todo: set<string>)
    requires SameFacts(s, s') && FreshFacts(s, todo)
    ensures FreshFacts(s', todo)
  {
    hide RowsOf;
    assert forall u :: u in s.l.tasks ==> (Untouched(s, u) <==> Untouched(s', u))
                                           && (Visited(s, u) <==> Visited(s', u));
  }

  lemma InitIsFresh(m: Manifest, w: World)
    ensures FreshFacts(Fresh(m, w), GraphOf(m.tasks).Keys)
  {
  }

  /** After a fresh run, interrupted or not: the tasks not reached are untouched, the others visited once. */
  lemma RunIsFresh(host: Host, m: Manifest, w: World, cfg: Config) returns (todo: set<string>)
    requires ClockOk(host)
    ensures FreshFacts(Run(host, m, w, cfg), todo)
    ensures Run(host, m, w, cfg).l.runState == Finished ==> todo == {}
  {
    hide FreshFacts, Inv, Loop, Order;
    var g, s := GraphOf(m.tasks), Fresh(m, w);
    FreshInv(m, w);
    InitIsFresh(m, w);
    OrderIsPermutation(g, DefaultRank);
    todo := LoopKeepsFresh(host, g, s, TopoOrder(g), cfg);
    SameFactsFresh(Loop(host, g, s, TopoOrder(g), cfg).0, Run(host, m, w, cfg), todo);
  }

  /** In a fresh run every task's history rows lead from pending to its current status. */
  lemma HistoryRowsChain(host: Host, m: Manifest, w: World, cfg: Config, t: string)
    requires ClockOk(host) && t in GraphOf(m.tasks)
    ensures var l := Run(host, m, w, cfg).l; Chained(RowsOf(l.history, t), Pending, l.tasks[t].status)
  {
    hide RowsOf, Run;
    var todo := RunIsFresh(host, m, w, cfg);
    var s := Run(host, m, w, cfg);
    assert if t in todo then Untouched(s, t) else Visited(s, t);
  }
}
