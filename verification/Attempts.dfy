/**
 * What becomes of the paths each executor call names: kept in the log after a success, undone after the last failed
 * call of an execution, and neither after a failed call that was retried.
 */
module Attempts {
  import opened Prelude
  import opened HashChain
  import opened Topo
  import opened Ledgers
  import opened RunLoop
  import opened Steps
  import opened Invariants
  import opened Histories
  import opened Coverage
  import opened Compensations
  import TextOrder

  // ---- Executions and their calls ------------------------------------------------------------------

  /** The calls recorded by a journal: each transaction counts the attempts of its execution. */
  function CallsIn(journal: seq<Txn>): nat {
    if journal == [] then 0
    else
      var n := |journal| - 1;
      CallsIn(journal[..n]) + if journal[n].attempts.Some? then journal[n].attempts.value else 0
  }

  function StatusAfter(r: ExecResult): TxnStatus { if r.success then Committed else FailedStatus(r) }

  /** The transactions cut the calls into executions: failures that were retried, then the call that decided. */
  ghost predicate Spans(calls: seq<Call>, journal: seq<Txn>) {
    if journal == [] then calls == []
    else
      var n := |journal| - 1;
      var at := CallsIn(journal[..n]);
      && at < |calls| && journal[n].attempts == Some(|calls| - at)
      && Called(calls[..at], calls, journal[n].taskId, calls[|calls| - 1].result, |calls| - at)
      && journal[n].status == StatusAfter(calls[|calls| - 1].result)
      && Spans(calls[..at], journal[..n])
  }

  predicate NamesUndo(call: Call) { !call.result.success && call.result.paths != [] }

  /** The paths of the deciding calls that failed and named any. */
  ghost function FailedPaths(calls: seq<Call>, journal: seq<Txn>): seq<seq<string>>
    requires Spans(calls, journal)
    decreases |journal|
  {
    if journal == [] then []
    else
      var n := |journal| - 1;
      var last := calls[|calls| - 1];
      FailedPaths(calls[..CallsIn(journal[..n])], journal[..n]) + if NamesUndo(last) then [last.result.paths] else []
  }

  /** The paths of the successful calls, call by call. */
  function KeptPaths(calls: seq<Call>): seq<string> {
    if calls == [] then []
    else
      var n := |calls| - 1;
      KeptPaths(calls[..n]) + if calls[n].result.success then calls[n].result.paths else []
  }

  /** The paths of the edit events, in log order. */
  function EditedIn(events: seq<Event>): seq<string> {
    if events == [] then []
    else
      var n := |events| - 1;
      EditedIn(events[..n]) + if events[n].kind == FileEdited then events[n].paths else []
  }

  /** Log, journal and calls tell the same story. */
  ghost predicate Accounted(s: State) {
    && Spans(s.w.calls, s.l.journal)
    && UndoneIn(s.l.events) == FailedPaths(s.w.calls, s.l.journal)
    && EditedIn(s.l.events) == KeptPaths(s.w.calls)
  }

  // ---- One more execution --------------------------------------------------------------------------

  lemma SpansOneMore(calls: seq<Call>, calls': seq<Call>, journal: seq<Txn>, txn: Txn, r: ExecResult, n: nat)
    requires Spans(calls, journal) && Called(calls, calls', txn.taskId, r, n)
    requires txn.attempts == Some(n) && txn.status == StatusAfter(r)
    ensures Spans(calls', journal + [txn])
    ensures FailedPaths(calls', journal + [txn])
            == FailedPaths(calls, journal) + if NamesUndo(Call(txn.taskId, r)) then [r.paths] else []
  {
    SpansCount(calls, journal);
    assert (journal + [txn])[..|journal|] == journal;
    assert calls'[..|calls|] == calls;
  }

  lemma SpansCount(calls: seq<Call>, journal: seq<Txn>)
    requires Spans(calls, journal)
    ensures CallsIn(journal) == |calls|
  {
    hide Called;
  }

  lemma {:induction false} FailuresKeepNothing(calls: seq<Call>, calls': seq<Call>)
    requires calls <= calls' && forall i :: |calls| <= i < |calls'| ==> !calls'[i].result.success
    ensures KeptPaths(calls') == KeptPaths(calls)
    decreases |calls'|
  {
    if |calls'| > |calls| {
      FailuresKeepNothing(calls, calls'[..|calls'| - 1]);
    } else {
      assert calls' == calls;
    }
  }

  lemma ExecutionKeeps(calls: seq<Call>, calls': seq<Call>, t: string, r: ExecResult, n: nat)
    requires Called(calls, calls', t, r, n)
    ensures KeptPaths(calls') == KeptPaths(calls) + if r.success then r.paths else []
  {
    FailuresKeepNothing(calls, calls'[..|calls'| - 1]);
  }

  // ---- Events --------------------------------------------------------------------------------------

  lemma EventsOneMore(events: seq<Event>, e: Event)
    ensures UndoneIn(events + [e]) == UndoneIn(events) + if e.kind == Compensation then [e.paths] else []
    ensures EditedIn(events + [e]) == EditedIn(events) + if e.kind == FileEdited then e.paths else []
  {
    assert (events + [e])[..|events|] == events;
  }

  /** One edit event per path. */
  ghost predicate EditPerPath(edits: seq<Event>, paths: seq<string>) {
    |edits| == |paths| && forall i :: 0 <= i < |edits| ==> edits[i].kind == FileEdited && edits[i].paths == [paths[i]]
  }

  lemma {:induction false} EditsRead(before: seq<Event>, edits: seq<Event>, paths: seq<string>)
    requires EditPerPath(edits, paths)
    ensures UndoneIn(before + edits) == UndoneIn(before) && EditedIn(before + edits) == EditedIn(before) + paths
  {
    hide UndoneIn, EditedIn;
    if edits == [] {
      assert before + edits == before && EditedIn(before) + paths == EditedIn(before);
    } else {
      var n := |edits| - 1;
      EditsRead(before, edits[..n], paths[..n]);
      EventsOneMore(before + edits[..n], edits[n]);
      assert before + edits == (before + edits[..n]) + [edits[n]];
      assert paths == paths[..n] + [paths[n]];
    }
  }

  /** A start, one edit per path, a completion. */
  lemma SuccessParts(E: seq<Event>, E': seq<Event>, paths: seq<string>)
    requires E <= E' && |E'| == |E| + |paths| + 2
    requires forall i :: |E| < i < |E'| - 1 ==> E'[i].kind == FileEdited && E'[i].paths == [paths[i - |E| - 1]]
    ensures E' == E + [E'[|E|]] + E'[|E| + 1..|E'| - 1] + [E'[|E'| - 1]]
    ensures EditPerPath(E'[|E| + 1..|E'| - 1], paths)
  {
    var edits := E'[|E| + 1..|E'| - 1];
    forall i | 0 <= i < |edits| ensures edits[i].kind == FileEdited && edits[i].paths == [paths[i]] {
      assert edits[i] == E'[i + |E| + 1];
    }
  }

  lemma SuccessReads(E: seq<Event>, start: Event, edits: seq<Event>, last: Event, paths: seq<string>)
    requires start.kind == TaskStarted && last.kind == TaskCompleted && EditPerPath(edits, paths)
    ensures var E' := E + [start] + edits + [last];
      UndoneIn(E') == UndoneIn(E) && EditedIn(E') == EditedIn(E) + paths
  {
    hide UndoneIn, EditedIn, EditPerPath;
    EventsOneMore(E, start);
    EditsRead(E + [start], edits, paths);
    EventsOneMore(E + [start] + edits, last);
  }

  /** A start, the undo if paths were named, a blocked task. */
  lemma FailureParts(E: seq<Event>, E': seq<Event>, paths: seq<string>)
    requires E <= E' && |E'| == |E| + if paths == [] then 2 else 3
    ensures E' == E + [E'[|E|]] + (if paths == [] then [] else [E'[|E| + 1]]) + [E'[|E'| - 1]]
  {
  }

  lemma FailureReads(E: seq<Event>, start: Event, undo: seq<Event>, last: Event, paths: seq<string>)
    requires start.kind == TaskStarted && last.kind == TaskBlocked && |undo| == (if paths == [] then 0 else 1)
    requires paths != [] ==> undo[0].kind == Compensation && undo[0].paths == paths
    ensures var E' := E + [start] + undo + [last];
      UndoneIn(E') == UndoneIn(E) + (if paths == [] then [] else [paths]) && EditedIn(E') == EditedIn(E)
  {
    hide UndoneIn, EditedIn;
    EventsOneMore(E, start);
    if paths == [] {
      assert E + [start] + undo == E + [start];
    } else {
      EventsOneMore(E + [start], undo[0]);
      assert undo == [undo[0]];
    }
    EventsOneMore(E + [start] + undo, last);
  }

  lemma AcceptedReads(s: State, s': State, t: string, r: ExecResult, n: nat)
    requires Accepted(s, s', t, r, n)
    ensures UndoneIn(s'.l.events) == UndoneIn(s.l.events)
    ensures EditedIn(s'.l.events) == EditedIn(s.l.events) + r.paths
  {
    hide Called, UndoneIn, EditedIn, EditPerPath;
    var E, E' := s.l.events, s'.l.events;
    SuccessParts(E, E', r.paths);
    SuccessReads(E, E'[|E|], E'[|E| + 1..|E'| - 1], E'[|E'| - 1], r.paths);
  }

  lemma RejectedReads(host: Host, s: State, s': State, t: string, r: ExecResult, n: nat)
    requires Rejected(host, s, s', t, r, n)
    ensures UndoneIn(s'.l.events) == UndoneIn(s.l.events) + if r.paths == [] then [] else [r.paths]
    ensures EditedIn(s'.l.events) == EditedIn(s.l.events)
  {
    hide Called, UndoneIn, EditedIn, EditPerPath;
    var E, E' := s.l.events, s'.l.events;
    FailureParts(E, E', r.paths);
    FailureReads(E, E'[|E|], if r.paths == [] then [] else [E'[|E| + 1]], E'[|E'| - 1], r.paths);
  }

  // ---- Every history -------------------------------------------------------------------------------

  lemma RanSpans(s: State, s': State, t: string, r: ExecResult, n: nat)
    requires Ran(s, s', t, r, n) && Spans(s.w.calls, s.l.journal)
    requires s'.l.journal[|s.l.journal|].status == StatusAfter(r)
    ensures Spans(s'.w.calls, s'.l.journal)
    ensures KeptPaths(s'.w.calls) == KeptPaths(s.w.calls) + if r.success then r.paths else []
    ensures FailedPaths(s'.w.calls, s'.l.journal)
            == FailedPaths(s.w.calls, s.l.journal) + if r.success || r.paths == [] then [] else [r.paths]
  {
    hide Called, KeptPaths, Spans, FailedPaths;
    var txn := s'.l.journal[|s.l.journal|];
    assert s'.l.journal == s.l.journal + [txn];
    SpansOneMore(s.w.calls, s'.w.calls, s.l.journal, txn, r, n);
    ExecutionKeeps(s.w.calls, s'.w.calls, t, r, n);
  }

  lemma TurnAccounts(host: Host, g: Graph, s: State, s': State, t: string, cfg: Config, stopped: bool)
    requires Fits(g, s) && Accounted(s) && t in g && Turned(host, g, s, s', t, cfg, stopped)
    ensures Accounted(s')
  {
    hide Ran, Spans, FailedPaths, KeptPaths, UndoneIn, EditedIn, Retry, AlreadyCommitted, Opened;
    if stopped || s.l.tasks[t].status == Completed {
    } else if !(g[t] <= CompletedSet(s.l.tasks)) {
      assert s'.l.events == s.l.events + [s'.l.events[|s.l.events|]];
      EventsOneMore(s.l.events, s'.l.events[|s.l.events|]);
    } else if !AlreadyCommitted(s.l.journal, t) {
      var w0 :| Executed(host, s, s', t, cfg, w0);
      var e := Retry(host, w0, t, 0, cfg);
      RanSpans(s, s', t, e.result, e.attempts);
      if e.result.success {
        AcceptedReads(s, s', t, e.result, e.attempts);
      } else {
        RejectedReads(host, s, s', t, e.result, e.attempts);
      }
    }
  }

  lemma {:induction false} LoopAccounts(host: Host, g: Graph, s: State, order: seq<string>, cfg: Config)
    requires ClockOk(host) && Fits(g, s) && Inv(g, s) && Accounted(s) && Elems(order) <= g.Keys
    ensures Accounted(Loop(host, g, s, order, cfg).0)
    decreases |order|
  {
    if order != [] {
      hide Inv, Turned, Visit, Accounted;
      InvBasics(g, s);
      assert order[0] in Elems(order) && Elems(order[1..]) <= Elems(order);
      var turn := Visit(host, g, s, order[0], cfg);
      VisitEffect(host, g, s, order[0], cfg);
      TurnKeepsInv(host, g, s, turn.s, order[0], cfg, turn.Stop?);
      TurnAccounts(host, g, s, turn.s, order[0], cfg, turn.Stop?);
      if turn.Next? { LoopAccounts(host, g, turn.s, order[1..], cfg); }
    }
  }

  lemma DriveAccounts(host: Host, g: Graph, s: State, cfg: Config)
    requires ClockOk(host) && Fits(g, s) && Inv(g, s) && Accounted(s)
    ensures Accounted(Drive(host, g, s, cfg))
  {
    hide Inv, Loop, Order, Spans, FailedPaths, KeptPaths, UndoneIn, EditedIn;
    OrderIsPermutation(g, DefaultRank);
    LoopAccounts(host, g, s, TopoOrder(g), cfg);
  }

  lemma ApplyAccounts(host: Host, g: Graph, s: State, op: Op)
    requires ClockOk(host) && Fits(g, s) && Inv(g, s) && Accounted(s)
    ensures Accounted(Apply(host, g, s, op))
  {
    hide Inv, Drive, Spans, FailedPaths, KeptPaths, UndoneIn, EditedIn, Sorted, EditedPaths;
    var s' := Apply(host, g, s, op);
    match op
    case ResumeOp(cfg) =>
      var s1 := s.(l := s.l.(runState := Running));
      SameFactsKeep(g, s, s1);
      DriveAccounts(host, g, s1, cfg);
    case ResolveOp(_, _, _, _, _) =>
      if op.authorized { EventsOneMore(s.l.events, s'.l.events[|s.l.events|]); }
    case LandOp(changed, _, _, _) =>
      if changed { EventsOneMore(s.l.events, s'.l.events[|s.l.events|]); }
  }

  lemma {:induction false} HistoryAccounts(host: Host, m: Manifest, w: World, cfg: Config, ops: seq<Op>)
    requires ClockOk(host)
    ensures Accounted(History(host, m, w, cfg, ops))
  {
    var g := GraphOf(m.tasks);
    if ops == [] {
      hide Drive, Inv;
      FreshInv(m, w);
      DriveAccounts(host, g, Fresh(m, w), cfg);
    } else {
      hide Apply, Run, Inv, Good, Accounted;
      var n := |ops| - 1;
      HistoryAccounts(host, m, w, cfg, ops[..n]);
      RunIsGood(host, m, w, cfg);
      InvThroughout(host, g, Run(host, m, w, cfg), ops[..n]);
      ApplyAccounts(host, g, History(host, m, w, cfg, ops[..n]), ops[n]);
    }
  }

  // ---- Call by call --------------------------------------------------------------------------------

  /** How many calls were made by the end of execution `k`. */
  function CallsUpTo(journal: seq<Txn>, k: nat): nat
    requires k < |journal|
  {
    CallsIn(journal[..k + 1])
  }

  /** The call at position `c` decided its execution: the recorded attempts end with it. */
  ghost predicate Decided(journal: seq<Txn>, c: nat) {
    exists k: nat :: k < |journal| && c + 1 == CallsUpTo(journal, k)
  }

  lemma DecidedOneMore(journal: seq<Txn>, c: nat)
    requires journal != []
    ensures Decided(journal, c) <==> Decided(journal[..|journal| - 1], c) || c + 1 == CallsIn(journal)
  {
    hide CallsIn;
    var n := |journal| - 1;
    assert journal[..n + 1] == journal;
    forall k: nat | k < n ensures CallsUpTo(journal[..n], k) == CallsUpTo(journal, k) {
      assert journal[..n][..k + 1] == journal[..k + 1];
    }
    assert CallsUpTo(journal, n) == CallsIn(journal);
  }

  /** A call decided its execution, or it is a retriable failure and the next call is for the same task. */
  ghost predicate DecidedOrRetried(calls: seq<Call>, journal: seq<Txn>, c: nat)
    requires c < |calls|
  {
    || Decided(journal, c)
    || (!calls[c].result.success && calls[c].result.retriable
        && c + 1 < |calls| && calls[c + 1].taskId == calls[c].taskId)
  }

  lemma {:induction false} CallsDecide(calls: seq<Call>, journal: seq<Txn>, c: nat)
    requires Spans(calls, journal) && c < |calls|
    ensures DecidedOrRetried(calls, journal, c)
    decreases |journal|
  {
    var n := |journal| - 1;
    var at := CallsIn(journal[..n]);
    hide Decided, CallsIn;
    SpansCount(calls, journal);
    DecidedOneMore(journal, c);
    if c < at { CallsDecide(calls[..at], journal[..n], c); }
  }

  /** `at` lists, in order, the positions of the calls whose paths were undone. */
  ghost predicate UndoneAt(calls: seq<Call>, undone: seq<seq<string>>, at: seq<nat>) {
    && |at| == |undone| && (forall k :: 0 <= k < |at| ==> at[k] < |calls| && undone[k] == calls[at[k]].result.paths)
    && forall k, l :: 0 <= k < l < |at| ==> at[k] < at[l]
  }

  /** `at` lists exactly the deciding failures that named paths. */
  ghost predicate PicksUndone(calls: seq<Call>, journal: seq<Txn>, at: seq<nat>) {
    forall c: nat ::
      && (Decided(journal, c) ==> c < |calls|)
      && (c in at <==> c < |calls| && Decided(journal, c) && NamesUndo(calls[c]))
  }

  /** One more execution, whose deciding call is the last call. */
  lemma PickOneMore(calls: seq<Call>, journal: seq<Txn>, before: nat, rest: seq<nat>)
    requires journal != [] && before < |calls| == CallsIn(journal)
    requires PicksUndone(calls[..before], journal[..|journal| - 1], rest)
    ensures PicksUndone(calls, journal, rest + if NamesUndo(calls[|calls| - 1]) then [|calls| - 1] else [])
  {
    hide CallsIn, Decided, NamesUndo;
    var last := |calls| - 1;
    var at := rest + if NamesUndo(calls[last]) then [last] else [];
    forall c: nat
      ensures Decided(journal, c) ==> c < |calls|
      ensures c in at <==> c < |calls| && Decided(journal, c) && NamesUndo(calls[c])
    {
      DecidedOneMore(journal, c);
      assert c in at <==> c in rest || (NamesUndo(calls[last]) && c == last);
      if c < before { assert calls[..before][c] == calls[c]; }
    }
  }

  lemma UndoneOneMoreAt(calls: seq<Call>, before: nat, undone: seq<seq<string>>, at: seq<nat>)
    requires before < |calls| && UndoneAt(calls[..before], undone, at)
    ensures UndoneAt(calls, undone, at)
    ensures UndoneAt(calls, undone + [calls[|calls| - 1].result.paths], at + [|calls| - 1])
  {
  }

  lemma {:induction false} PickUndone(calls: seq<Call>, journal: seq<Txn>) returns (at: seq<nat>)
    requires Spans(calls, journal)
    ensures UndoneAt(calls, FailedPaths(calls, journal), at) && PicksUndone(calls, journal, at)
    decreases |journal|
  {
    hide Called, NamesUndo, StatusAfter;
    if journal == [] {
      at := [];
    } else {
      hide PicksUndone, UndoneAt;
      var n, last := |journal| - 1, |calls| - 1;
      var before := CallsIn(journal[..n]);
      SpansCount(calls, journal);
      var rest := PickUndone(calls[..before], journal[..n]);
      PickOneMore(calls, journal, before, rest);
      UndoneOneMoreAt(calls, before, FailedPaths(calls[..before], journal[..n]), rest);
      at := rest + if NamesUndo(calls[last]) then [last] else [];
      if !NamesUndo(calls[last]) {
        assert at == rest && FailedPaths(calls, journal) == FailedPaths(calls[..before], journal[..n]);
      }
    }
  }

  /**
   * Over every history: the undo calls are, in order, for exactly the failed calls that decided their execution and
   * named paths. A call that did not decide was a failure, was retried, and what it touched is never undone.
   */
  lemma UndoneIffDecided(host: Host, m: Manifest, w: World, cfg: Config, ops: seq<Op>) returns (at: seq<nat>)
    requires ClockOk(host)
    ensures var s := History(host, m, w, cfg, ops);
      && UndoneAt(s.w.calls, s.w.undone, at) && PicksUndone(s.w.calls, s.l.journal, at)
      && forall c: nat :: c < |s.w.calls| ==> DecidedOrRetried(s.w.calls, s.l.journal, c)
  {
    hide History, Spans, PicksUndone, DecidedOrRetried, UndoneAt, FailedPaths;
    var s := History(host, m, w, cfg, ops);
    HistoryAccounts(host, m, w, cfg, ops);
    UndoIsOnRecord(host, m, w, cfg, ops);
    at := PickUndone(s.w.calls, s.l.journal);
    forall c: nat | c < |s.w.calls| ensures DecidedOrRetried(s.w.calls, s.l.journal, c) {
      CallsDecide(s.w.calls, s.l.journal, c);
    }
  }

  // ---- What is kept --------------------------------------------------------------------------------

  lemma {:induction false} EditedPathsAre(events: seq<Event>)
    ensures EditedPaths(events) == Elems(EditedIn(events))
  {
    if events != [] {
      var n := |events| - 1;
      EditedPathsAre(events[..n]);
      var last := if events[n].kind == FileEdited then events[n].paths else [];
      forall p ensures p in EditedPaths(events) <==> p in EditedPaths(events[..n]) || p in last {
        if p in EditedPaths(events[..n]) {
          var i :| 0 <= i < n && events[..n][i].kind == FileEdited && p in events[..n][i].paths;
          assert events[i].kind == FileEdited && p in events[i].paths;
        }
        if p in EditedPaths(events) {
          var i :| 0 <= i < |events| && events[i].kind == FileEdited && p in events[i].paths;
          if i < n { assert events[..n][i] == events[i]; }
        }
      }
      assert EditedIn(events) == EditedIn(events[..n]) + last;
    }
  }

  /** Some successful call named the path. */
  ghost predicate Kept(calls: seq<Call>, p: string) {
    exists c :: 0 <= c < |calls| && calls[c].result.success && p in calls[c].result.paths
  }

  lemma {:induction false} KeptPathsAre(calls: seq<Call>)
    ensures forall p :: p in KeptPaths(calls) <==> Kept(calls, p)
  {
    if calls != [] {
      var n := |calls| - 1;
      KeptPathsAre(calls[..n]);
      forall p ensures p in KeptPaths(calls) <==> Kept(calls, p) {
        assert p in KeptPaths(calls) <==>
               Kept(calls[..n], p) || (calls[n].result.success && p in calls[n].result.paths);
        KeptOneMore(calls, p);
      }
    }
  }

  lemma KeptOneMore(calls: seq<Call>, p: string)
    requires calls != []
    ensures var n := |calls| - 1;
      Kept(calls, p) <==> Kept(calls[..n], p) || (calls[n].result.success && p in calls[n].result.paths)
  {
    var n := |calls| - 1;
    if Kept(calls[..n], p) {
      var c :| 0 <= c < n && calls[..n][c].result.success && p in calls[..n][c].result.paths;
      assert calls[c] == calls[..n][c];
    }
  }

  ghost predicate Ascending(paths: seq<string>) {
    forall i, j :: 0 <= i < j < |paths| ==> TextOrder.Before(paths[i], paths[j])
  }

  /** A sorted listing has each element of the set, once, in the order of the language. */
  lemma {:induction false} SortedIsAscending(paths: set<string>)
    ensures Ascending(Sorted(paths)) && forall p :: p in Sorted(paths) <==> p in paths
  {
    if paths != {} {
      var first := First(DefaultRank, paths);
      SortedIsAscending(paths - {first});
      assert Sorted(paths) == [first] + Sorted(paths - {first});
      var rest := Sorted(paths - {first});
      forall j | 0 <= j < |rest| ensures TextOrder.Before(first, rest[j]) {
        assert rest[j] in paths - {first};
        assert Precedes(DefaultRank, first, rest[j]);
      }
    }
  }

  /**
   * After any history, landing a changed tree puts the paths of the successful calls on record, all of them and no
   * others, ascending, in the commit row and in the commit event alike, whatever failed attempts left behind.
   */
  lemma LandedPathsAreKept(host: Host, m: Manifest, w: World, cfg: Config, ops: seq<Op>, branch: string,
                           message: string, sha: string)
    returns (landed: seq<string>)
    requires ClockOk(host)
    ensures var s := History(host, m, w, cfg, ops);
      var s' := Apply(host, GraphOf(m.tasks), s, LandOp(true, branch, message, sha));
      var at := host.clock(s.w.ticks);
      && Ascending(landed) && (forall p :: p in landed <==> Kept(s.w.calls, p))
      && s'.w == s.w.(ticks := s.w.ticks + 1)
      && s'.l == s.l.(branch := Some(branch), requiresLanding := true,
                      commits := s.l.commits + [CommitRow(sha, message, at, landed)],
                      events := s.l.events + [Event(Commit, Some("LANDING"), at, landed, s.l.scope.clientId,
                                                    s.l.scope.projectId)])
  {
    hide History, Spans, FailedPaths, KeptPaths, EditedIn, EditedPaths, Sorted, UndoneIn, Kept, Ascending;
    var s := History(host, m, w, cfg, ops);
    HistoryAccounts(host, m, w, cfg, ops);
    EditedPathsAre(s.l.events);
    landed := Sorted(EditedPaths(s.l.events));
    SortedIsAscending(EditedPaths(s.l.events));
    KeptPathsAre(s.w.calls);
    assert forall p :: p in EditedPaths(s.l.events) <==> p in KeptPaths(s.w.calls);
  }
}
