/** An operator can always recover a blocked run: override what is open, resume, and everything completes. */
module Recovery {
  import opened Prelude
  import opened HashChain
  import opened Topo
  import opened Ledgers
  import opened RunLoop
  import opened Steps
  import opened Invariants
  import opened Histories
  import opened Schedules
  import opened FreshRuns
  import opened Coverage
  import opened DistinctIds
  import opened Safety

  /** From its n-th call on, the executor succeeds at once, whatever the task. */
  ghost predicate AlwaysSucceeds(host: Host, n: nat) {
    forall t: string, k: nat {:trigger host.execute(t, k)} :: k >= n ==> host.execute(t, k).success
  }

  /** No open blocker is about a committed task, and committed tasks are completed. */
  ghost predicate NoStaleBlocker(s: State) {
    && (forall t :: t in s.l.tasks && CommittedIn(s.l.journal, t) ==> s.l.tasks[t].status == Completed)
    && (forall t :: t in s.l.tasks && CommittedIn(s.l.journal, t) ==> !HasBlocker(s.l.blockers, t))
  }

  ghost predicate IsOverride(op: Op) {
    op.ResolveOp? && op.authorized && op.decision == OVERRIDE
  }

  lemma RunHasNoStaleBlocker(host: Host, m: Manifest, w: World, cfg: Config)
    requires ClockOk(host)
    ensures NoStaleBlocker(Run(host, m, w, cfg))
  {
    hide RowsOf, Run, EvidenceMatches, PathsMatch, Inv;
    var todo := RunIsFresh(host, m, w, cfg);
    var s := Run(host, m, w, cfg);
    RunIsGood(host, m, w, cfg);
    forall t | t in s.l.tasks && CommittedIn(s.l.journal, t)
      ensures s.l.tasks[t].status == Completed && !HasBlocker(s.l.blockers, t)
    {
      if t in todo {
        UntouchedIsUncommitted(GraphOf(m.tasks), s, t);
        assert false;
      }
      assert Visited(s, t);
    }
  }

  lemma OverrideKeepsNoStale(host: Host, g: Graph, s: State, op: Op)
    requires Fits(g, s) && NoStaleBlocker(s) && IsOverride(op)
    ensures NoStaleBlocker(Apply(host, g, s, op)) && Apply(host, g, s, op).w == s.w
  {
    KeptBlockers(s.l.blockers, op.id);
    var i := FindBlocker(s.l.blockers, op.id);
    assert i < |s.l.blockers| ==> HasBlocker(s.l.blockers, s.l.blockers[i].taskId);
  }

  lemma KeptBlockers(blockers: seq<Blocker>, id: string)
    ensures forall t :: HasBlocker(WithoutBlocker(blockers, id), t) ==> HasBlocker(blockers, t)
  {
    var kept := WithoutBlocker(blockers, id);
    forall t | HasBlocker(kept, t) ensures HasBlocker(blockers, t) {
      var k :| 0 <= k < |kept| && kept[k].taskId == t;
      assert kept[k] in blockers;
    }
  }

  lemma {:induction false} OverridesKeepNoStale(host: Host, g: Graph, s: State, ops: seq<Op>)
    requires Fits(g, s) && NoStaleBlocker(s) && forall i :: 0 <= i < |ops| ==> IsOverride(ops[i])
    ensures NoStaleBlocker(ApplyAll(host, g, s, ops)) && ApplyAll(host, g, s, ops).w == s.w
  {
    if ops != [] {
      var n := |ops| - 1;
      OverridesKeepNoStale(host, g, s, ops[..n]);
      OverrideKeepsNoStale(host, g, ApplyAll(host, g, s, ops[..n]), ops[n]);
    }
  }

  // ---- The final resume ------------------------------------------------------------------------------

  lemma SucceedsAtOnce(host: Host, w: World, t: string, cfg: Config, n: nat)
    requires AlwaysSucceeds(host, n) && |w.calls| >= n
    ensures Retry(host, w, t, 0, cfg).result.success && Retry(host, w, t, 0, cfg).attempts == 1
  {
  }

  /** The task ids of the executor calls made since `before`. */
  function CalledSince(before: seq<Call>, after: seq<Call>): seq<string>
    requires |before| <= |after|
  {
    seq(|after| - |before|, k requires 0 <= k < |after| - |before| => after[|before| + k].taskId)
  }

  function NotCompleted(s: State, tasks: set<string>): set<string> {
    tasks - CompletedSet(s.l.tasks)
  }

  lemma CalledSinceFirst(C: seq<Call>, C1: seq<Call>, C2: seq<Call>, t: string)
    requires C <= C1 <= C2 && |C1| == |C| + 1 && C1[|C|].taskId == t
    ensures CalledSince(C, C2) == [t] + CalledSince(C1, C2)
  {
    assert C2[|C|] == C1[|C|];
  }

  lemma SuccessIsFixed(host: Host, g: Graph, cfg: Config, n: nat)
    requires AlwaysSucceeds(host, n)
    ensures FixedOutcome(host, g, cfg, g.Keys, n)
  {
    forall w: World, t: string | |w.calls| >= n && t in g ensures Retry(host, w, t, 0, cfg).result.success {
      SucceedsAtOnce(host, w, t, cfg, n);
    }
  }

  /** A turn for a task with completed dependencies and a succeeding executor: one call if it was open, no blocker. */
  lemma TurnSucceeds(host: Host, g: Graph, s: State, s': State, t: string, cfg: Config, n: nat)
    requires Inv(g, s) && AlwaysSucceeds(host, n) && n <= |s.w.calls| && Sound(g, g.Keys, s)
    requires t in g && g[t] <= CompletedSet(s.l.tasks) && Turned(host, g, s, s', t, cfg, false)
    ensures s'.l.blockers == s.l.blockers
    ensures CompletedSet(s'.l.tasks) == CompletedSet(s.l.tasks) + {t}
    ensures if t in CompletedSet(s.l.tasks) then s'.w.calls == s.w.calls
            else s.w.calls <= s'.w.calls && |s'.w.calls| == |s.w.calls| + 1 && s'.w.calls[|s.w.calls|].taskId == t
  {
    hide Grounded, AlwaysSucceeds;
    CommittedByKey(s.l.journal, t);
    if s.l.tasks[t].status != Completed {
      var w0 :| Executed(host, s, s', t, cfg, w0);
      SucceedsAtOnce(host, w0, t, cfg, n);
      var e := Retry(host, w0, t, 0, cfg);
      AcceptedOnce(s, s', t, e.result);
    }
  }

  lemma AcceptedOnce(s: State, s': State, t: string, r: ExecResult)
    requires Accepted(s, s', t, r, 1)
    ensures s'.l.blockers == s.l.blockers && CompletedSet(s'.l.tasks) == CompletedSet(s.l.tasks) + {t}
    ensures s.w.calls <= s'.w.calls && |s'.w.calls| == |s.w.calls| + 1 && s'.w.calls[|s.w.calls|].taskId == t
  {
  }

  /** What the loop asks of the executor from position i on: each open task once, no other. */
  ghost predicate OneCallEach(s: State, s': State, tasks: set<string>) {
    && s.w.calls <= s'.w.calls
    && NoDuplicates(CalledSince(s.w.calls, s'.w.calls))
    && Elems(CalledSince(s.w.calls, s'.w.calls)) == NotCompleted(s, tasks)
  }

  lemma OneMoreCall(s: State, s1: State, s2: State, t: string, rest: set<string>)
    requires t !in rest && OneCallEach(s1, s2, rest) && CompletedSet(s1.l.tasks) == CompletedSet(s.l.tasks) + {t}
    requires if t in CompletedSet(s.l.tasks) then s1.w.calls == s.w.calls
             else s.w.calls <= s1.w.calls && |s1.w.calls| == |s.w.calls| + 1 && s1.w.calls[|s.w.calls|].taskId == t
    ensures OneCallEach(s, s2, rest + {t})
  {
    var later := CalledSince(s1.w.calls, s2.w.calls);
    assert NotCompleted(s1, rest) == NotCompleted(s, rest);
    if t !in CompletedSet(s.l.tasks) {
      CalledSinceFirst(s.w.calls, s1.w.calls, s2.w.calls, t);
      assert NotCompleted(s, rest + {t}) == NotCompleted(s, rest) + {t};
      ConsKeepsDistinct(t, later);
    } else {
      assert NotCompleted(s, rest + {t}) == NotCompleted(s, rest);
    }
  }

  lemma {:induction false} LoopSucceeds(host: Host, g: Graph, s: State, order: seq<string>, i: nat, cfg: Config, n: nat)
    requires ClockOk(host) && Fits(g, s) && Inv(g, s) && Sound(g, g.Keys, s) && AlwaysSucceeds(host, n)
    requires n <= |s.w.calls|
    requires Acyclic(g) && order == TopoOrder(g) && i <= |order| && DoneUpTo(g, g.Keys, s, order, i)
    requires Elems(order[i..]) <= g.Keys && NoDuplicates(order[i..])
    requires Loop(host, g, s, order[i..], cfg).1 == Finished
    ensures var s' := Loop(host, g, s, order[i..], cfg).0;
            s'.l.blockers == s.l.blockers && OneCallEach(s, s', Elems(order[i..]))
    decreases |order| - i
  {
    hide Inv, Turned, Visit, Sound, DoneUpTo, Order, OneCallEach, AlwaysSucceeds, Grounded, FixedOutcome;
    InvBasics(g, s);
    if i == |order| {
      NoCalls(s);
      assert Elems(order[i..]) == {};
    } else {
      var t, rest := order[i], order[i..][1..];
      assert rest == order[i + 1..] && t == order[i..][0];
      RestOfOrder(order[i..]);
      assert t in g;
      var turn := Visit(host, g, s, t, cfg);
      VisitEffect(host, g, s, t, cfg);
      if turn.Stop? {
        VisitStops(host, g, s, t, cfg);
        assert false;
      }
      SuccessIsFixed(host, g, cfg, n);
      TurnKeepsInv(host, g, s, turn.s, t, cfg, false);
      TurnKeepsSound(host, g, g.Keys, n, s, turn.s, t, cfg, false);
      DoneStep(host, g, g.Keys, n, s, turn.s, order, i, cfg);
      GroundedMayRun(g, g.Keys, s, order, i);
      TurnSucceeds(host, g, s, turn.s, t, cfg, n);
      LoopSucceeds(host, g, turn.s, order, i + 1, cfg, n);
      OneMoreCall(s, turn.s, Loop(host, g, turn.s, rest, cfg).0, t, Elems(rest));
      assert Elems(rest) + {t} == Elems(order[i..]);
    }
  }

  lemma NoCalls(s: State)
    ensures OneCallEach(s, s, {})
  {
  }

  lemma AcyclicIsSound(host: Host, g: Graph, s: State)
    requires Inv(g, s) && NoStaleBlocker(s) && Acyclic(g)
    ensures Sound(g, g.Keys, s)
  {
    hide Grounded;
  }

  lemma ResumeRecovers(host: Host, g: Graph, s: State, cfg: Config)
    requires ClockOk(host) && Fits(g, s) && Inv(g, s) && NoStaleBlocker(s) && s.l.blockers == []
    requires Acyclic(g) && AlwaysSucceeds(host, |s.w.calls|)
    requires Resume(host, g, s, cfg).l.runState == Finished
    ensures var s' := Resume(host, g, s, cfg);
      AllCompleted(s'.l) && s'.l.reconciliation.allowed && OneCallEach(s, s', g.Keys)
  {
    hide Inv, Sound, Order, OneCallEach, Loop, GroundedSet, AlwaysSucceeds;
    hide FixedOutcome, DoneUpTo, Grounded, NoStaleBlocker;
    var s1 := s.(l := s.l.(runState := Running));
    SameFactsKeep(g, s, s1);
    AcyclicIsSound(host, g, s);
    SameFactsSound(g, g.Keys, s, s1);
    SuccessIsFixed(host, g, cfg, |s.w.calls|);
    DriveKeepsSound(host, g, g.Keys, |s.w.calls|, s1, cfg);
    OrderIsPermutation(g, DefaultRank);
    var order := TopoOrder(g);
    assert order[0..] == order;
    NothingDoneYet(g, g.Keys, s1, order);
    LoopSucceeds(host, g, s1, order, 0, cfg, |s.w.calls|);
    AcyclicMeansAll(g);
    var s2 := Loop(host, g, s1, order, cfg).0;
    SameCalls(s, s1, s2, Resume(host, g, s, cfg), g.Keys);
    AllDoneIsAllowed(s2.l.(runState := Finished));
  }

  lemma AcyclicMeansAll(g: Graph)
    requires Acyclic(g)
    ensures GroundedSet(g, g.Keys) == g.Keys
  {
    hide Grounded;
  }

  lemma SameCalls(s: State, s1: State, s2: State, s3: State, tasks: set<string>)
    requires s1.w == s.w && s1.l.tasks == s.l.tasks && s3.w == s2.w && OneCallEach(s1, s2, tasks)
    ensures OneCallEach(s, s3, tasks)
  {
  }

  /**
   * After any fresh run of an acyclic manifest, interrupted or not: once overrides have closed every blocker, an
   * uninterrupted resume with a succeeding executor completes all tasks and reconciles, calling the executor
   * exactly once for each task that was not completed and for no other.
   */
  lemma OverrideAndResumeRecovers(host: Host, m: Manifest, w: World, cfg: Config, overrides: seq<Op>, last: Config)
    requires ClockOk(host) && Acyclic(GraphOf(m.tasks))
    requires forall i :: 0 <= i < |overrides| ==> IsOverride(overrides[i])
    requires var s := History(host, m, w, cfg, overrides);
      && s.l.blockers == [] && AlwaysSucceeds(host, |s.w.calls|)
      && Resume(host, GraphOf(m.tasks), s, last).l.runState == Finished
    ensures var g := GraphOf(m.tasks);
      var s := History(host, m, w, cfg, overrides);
      var s' := Resume(host, g, s, last);
      AllCompleted(s'.l) && s'.l.reconciliation.allowed && OneCallEach(s, s', g.Keys)
  {
    hide Run, Evolves, Inv, NoStaleBlocker, OneCallEach, Resume, Acyclic, AlwaysSucceeds;
    var g := GraphOf(m.tasks);
    var s0 := Run(host, m, w, cfg);
    var s := History(host, m, w, cfg, overrides);
    RunHasNoStaleBlocker(host, m, w, cfg);
    OverridesKeepNoStale(host, g, s0, overrides);
    HistoryIsGood(host, m, w, cfg, overrides);
    ResumeRecovers(host, g, s, last);
  }

  lemma OverrideClosesOne(host: Host, g: Graph, s: State, op: Op)
    requires Fits(g, s) && IsOverride(op)
    ensures forall b :: b in Apply(host, g, s, op).l.blockers <==> b in s.l.blockers && !Overrides(op, b.blockerId)
  {
    var first := FindBlocker(s.l.blockers, op.id);
  }

  /** Overriding the open blockers one after the other closes them all, in any order of the ids. */
  lemma {:induction false} OverridesClose(host: Host, g: Graph, s: State, ops: seq<Op>)
    requires Fits(g, s) && forall i :: 0 <= i < |ops| ==> IsOverride(ops[i])
    ensures forall b :: b in ApplyAll(host, g, s, ops).l.blockers <==>
              b in s.l.blockers && forall i :: 0 <= i < |ops| ==> !Overrides(ops[i], b.blockerId)
  {
    if ops != [] {
      hide Apply, IsOverride, Overrides;
      var n := |ops| - 1;
      OverridesClose(host, g, s, ops[..n]);
      OverrideClosesOne(host, g, ApplyAll(host, g, s, ops[..n]), ops[n]);
      assert forall i :: 0 <= i < n ==> ops[..n][i] == ops[i];
    }
  }

  // ---- Recovery from any reachable ledger ------------------------------------------------------------

  /** Some task is beyond recovery: committed, but not completed any more. */
  ghost predicate AnyStuck(s: State) { exists t :: Stuck(s, t) }

  ghost predicate Recovered(s: State) { AllCompleted(s.l) && s.l.reconciliation.allowed }

  lemma StuckOrClean(s: State)
    requires s.l.blockers == []
    ensures NoStaleBlocker(s) <==> !AnyStuck(s)
  {
    hide CommittedIn;
    if !NoStaleBlocker(s) {
      var t :| t in s.l.tasks && CommittedIn(s.l.journal, t) && s.l.tasks[t].status != Completed;
      assert Stuck(s, t);
    }
    if AnyStuck(s) {
      var t :| Stuck(s, t);
    }
  }

  /**
   * With no blocker open, an uninterrupted resume with a succeeding executor recovers exactly a ledger with no stuck
   * task.
   */
  lemma ResumeRecoversIff(host: Host, g: Graph, s: State, cfg: Config)
    requires ClockOk(host) && Fits(g, s) && Good(g, s) && s.l.blockers == []
    requires Acyclic(g) && AlwaysSucceeds(host, |s.w.calls|)
    requires Resume(host, g, s, cfg).l.runState == Finished
    ensures var s' := Resume(host, g, s, cfg);
      (Recovered(s') <==> !AnyStuck(s)) && (!AnyStuck(s) ==> OneCallEach(s, s', g.Keys))
  {
    hide Inv, OneCallEach, AlwaysSucceeds, Drive, NoStaleBlocker, Acyclic, Stuck;
    StuckOrClean(s);
    if AnyStuck(s) {
      var t :| Stuck(s, t);
      ApplyKeepsStuck(host, g, s, ResumeOp(cfg), t);
      StuckNotDone(Resume(host, g, s, cfg), t);
    } else {
      ResumeRecovers(host, g, s, cfg);
    }
  }

  lemma StuckNotDone(s: State, t: string)
    requires Stuck(s, t)
    ensures !AllCompleted(s.l)
  {
  }

  /** The override reopens a committed task: the first blocker with its id is about one. */
  ghost predicate Strands(s: State, op: Op) {
    op.ResolveOp? && exists t :: t in s.l.tasks && CommittedIn(s.l.journal, t) && Reopens(s.l.blockers, op.id, t)
  }

  lemma OverrideStuckIff(host: Host, g: Graph, s: State, op: Op)
    requires Fits(g, s) && IsOverride(op)
    ensures AnyStuck(Apply(host, g, s, op)) <==> AnyStuck(s) || Strands(s, op)
  {
    hide CommittedIn, WithoutBlocker;
    var s' := Apply(host, g, s, op);
    if AnyStuck(s) {
      var t :| Stuck(s, t);
      assert Stuck(s', t);
    }
    if Strands(s, op) {
      var t :| t in s.l.tasks && CommittedIn(s.l.journal, t) && Reopens(s.l.blockers, op.id, t);
      assert Stuck(s', t);
    }
    if AnyStuck(s') {
      var t :| Stuck(s', t);
      assert Stuck(s, t) || Reopens(s.l.blockers, op.id, t);
    }
  }

  lemma OverrideKeepsCalls(host: Host, g: Graph, s: State, op: Op)
    requires Fits(g, s) && IsOverride(op)
    ensures Apply(host, g, s, op).w == s.w
  {
  }

  /** No override of the sequence reopens a committed task, judged on the ledger it is applied to. */
  ghost predicate NeverStrands(host: Host, g: Graph, s: State, ops: seq<Op>)
    requires Fits(g, s)
  {
    forall k :: 0 <= k < |ops| ==> !Strands(ApplyAll(host, g, s, ops[..k]), ops[k])
  }

  lemma NeverStrandsTurn(host: Host, g: Graph, s: State, ops: seq<Op>)
    requires Fits(g, s) && ops != []
    ensures var n := |ops| - 1;
      NeverStrands(host, g, s, ops) <==>
        NeverStrands(host, g, s, ops[..n]) && !Strands(ApplyAll(host, g, s, ops[..n]), ops[n])
  {
    hide Strands, Apply, ApplyAll;
    var n := |ops| - 1;
    assert forall k :: 0 <= k < n ==> ops[..n][..k] == ops[..k] && ops[..n][k] == ops[k];
  }

  lemma {:induction false} OverridesStuckIff(host: Host, g: Graph, s: State, ops: seq<Op>)
    requires Fits(g, s) && forall i :: 0 <= i < |ops| ==> IsOverride(ops[i])
    ensures ApplyAll(host, g, s, ops).w == s.w
    ensures AnyStuck(ApplyAll(host, g, s, ops)) <==> AnyStuck(s) || !NeverStrands(host, g, s, ops)
  {
    hide AnyStuck, Strands, Apply, IsOverride;
    if ops != [] {
      hide NeverStrands;
      var n := |ops| - 1;
      OverridesStuckIff(host, g, s, ops[..n]);
      OverrideStuckIff(host, g, ApplyAll(host, g, s, ops[..n]), ops[n]);
      OverrideKeepsCalls(host, g, ApplyAll(host, g, s, ops[..n]), ops[n]);
      NeverStrandsTurn(host, g, s, ops);
    }
  }

  /**
   * From any reachable ledger of an acyclic manifest: overriding until no blocker is open and resuming uninterrupted
   * with a succeeding executor completes and reconciles everything if and only if no task was stuck already and no
   * override reopened a committed task.
   */
  lemma RecoversIff(host: Host, m: Manifest, w: World, cfg: Config, ops: seq<Op>, overrides: seq<Op>, last: Config)
    requires ClockOk(host) && Acyclic(GraphOf(m.tasks))
    requires forall i :: 0 <= i < |overrides| ==> IsOverride(overrides[i])
    requires var s := History(host, m, w, cfg, ops);
      var s1 := ApplyAll(host, GraphOf(m.tasks), s, overrides);
      && s1.l.blockers == [] && AlwaysSucceeds(host, |s.w.calls|)
      && Resume(host, GraphOf(m.tasks), s1, last).l.runState == Finished
    ensures var g, s := GraphOf(m.tasks), History(host, m, w, cfg, ops);
      var s1 := ApplyAll(host, g, s, overrides);
      Recovered(Resume(host, g, s1, last)) <==> !AnyStuck(s) && NeverStrands(host, g, s, overrides)
  {
    hide Run, Evolves, Good, AnyStuck, NeverStrands, Recovered, OneCallEach;
    hide Resume, Acyclic, AlwaysSucceeds, History, IsOverride;
    var g, s := GraphOf(m.tasks), History(host, m, w, cfg, ops);
    HistoryIsGood(host, m, w, cfg, ops);
    ApplyAllEffect(host, g, s, overrides);
    OverridesStuckIff(host, g, s, overrides);
    ResumeRecoversIff(host, g, ApplyAll(host, g, s, overrides), last);
  }

  /** With distinct ids an override cannot hide a stale blocker: it keeps it, or strands its task. */
  lemma OverrideNoStaleIff(host: Host, g: Graph, s: State, op: Op)
    requires Fits(g, s) && IsOverride(op) && DistinctBlockers(s.l.blockers)
    ensures DistinctBlockers(Apply(host, g, s, op).l.blockers)
    ensures NoStaleBlocker(Apply(host, g, s, op)) <==> NoStaleBlocker(s)
  {
    hide DistinctBlockers, WithoutBlocker;
    var s' := Apply(host, g, s, op);
    WithoutKeepsDistinct(s.l.blockers, op.id);
    if NoStaleBlocker(s) {
      OverrideKeepsNoStale(host, g, s, op);
    } else if t :| t in s.l.tasks && CommittedIn(s.l.journal, t) && HasBlocker(s.l.blockers, t) {
      StaleStaysOrStrands(host, g, s, op, t);
    }
  }

  lemma StaleStaysOrStrands(host: Host, g: Graph, s: State, op: Op, t: string)
    requires Fits(g, s) && IsOverride(op) && DistinctBlockers(s.l.blockers)
    requires t in s.l.tasks && CommittedIn(s.l.journal, t) && HasBlocker(s.l.blockers, t)
    ensures !NoStaleBlocker(Apply(host, g, s, op))
  {
    hide CommittedIn;
    var s', B := Apply(host, g, s, op), s.l.blockers;
    var i :| 0 <= i < |B| && B[i].taskId == t;
    if B[i].blockerId == op.id {
      assert FindBlocker(B, op.id) == i;
      assert s'.l.tasks[t].status == Pending;
    } else {
      assert B[i] in s'.l.blockers;
      var k :| 0 <= k < |s'.l.blockers| && s'.l.blockers[k] == B[i];
      assert HasBlocker(s'.l.blockers, t);
    }
  }

  lemma {:induction false} OverridesNoStaleIff(host: Host, g: Graph, s: State, ops: seq<Op>)
    requires Fits(g, s) && DistinctBlockers(s.l.blockers) && forall i :: 0 <= i < |ops| ==> IsOverride(ops[i])
    ensures DistinctBlockers(ApplyAll(host, g, s, ops).l.blockers)
    ensures NoStaleBlocker(ApplyAll(host, g, s, ops)) <==> NoStaleBlocker(s)
  {
    hide NoStaleBlocker, Apply, IsOverride, DistinctBlockers;
    if ops != [] {
      var n := |ops| - 1;
      OverridesNoStaleIff(host, g, s, ops[..n]);
      OverrideNoStaleIff(host, g, ApplyAll(host, g, s, ops[..n]), ops[n]);
    }
  }

  /**
   * When the open blockers carry different ids the condition can be read off the ledger before the first override:
   * recovery works if and only if no open blocker names a committed task and no task is stuck.
   */
  lemma RecoversIffNoStale(host: Host, m: Manifest, w: World, cfg: Config, ops: seq<Op>, overrides: seq<Op>,
                           last: Config)
    requires ClockOk(host) && Acyclic(GraphOf(m.tasks))
    requires forall i :: 0 <= i < |overrides| ==> IsOverride(overrides[i])
    requires DistinctBlockers(History(host, m, w, cfg, ops).l.blockers)
    requires var s := History(host, m, w, cfg, ops);
      var s1 := ApplyAll(host, GraphOf(m.tasks), s, overrides);
      && s1.l.blockers == [] && AlwaysSucceeds(host, |s.w.calls|)
      && Resume(host, GraphOf(m.tasks), s1, last).l.runState == Finished
    ensures var g, s := GraphOf(m.tasks), History(host, m, w, cfg, ops);
      var s1 := ApplyAll(host, g, s, overrides);
      var s2 := Resume(host, g, s1, last);
      && (Recovered(s2) <==> NoStaleBlocker(s))
      && (NoStaleBlocker(s) ==> OneCallEach(s1, s2, g.Keys))
  {
    hide Run, Evolves, Good, AnyStuck, Recovered, NoStaleBlocker, OneCallEach;
    hide Resume, Acyclic, AlwaysSucceeds, History, IsOverride;
    var g, s := GraphOf(m.tasks), History(host, m, w, cfg, ops);
    var s1 := ApplyAll(host, g, s, overrides);
    HistoryIsGood(host, m, w, cfg, ops);
    ApplyAllEffect(host, g, s, overrides);
    OverridesStuckIff(host, g, s, overrides);
    OverridesNoStaleIff(host, g, s, overrides);
    StuckOrClean(s1);
    ResumeRecoversIff(host, g, s1, last);
  }

  /** Ids that never repeat are enough: open blockers then carry different ids in every ledger of every history. */
  lemma UniqueIdsRecoverIff(host: Host, m: Manifest, w: World, cfg: Config, ops: seq<Op>, overrides: seq<Op>,
                            last: Config)
    requires ClockOk(host) && UniqueIds(host) && Acyclic(GraphOf(m.tasks))
    requires forall i :: 0 <= i < |overrides| ==> IsOverride(overrides[i])
    requires var s := History(host, m, w, cfg, ops);
      var s1 := ApplyAll(host, GraphOf(m.tasks), s, overrides);
      && s1.l.blockers == [] && AlwaysSucceeds(host, |s.w.calls|)
      && Resume(host, GraphOf(m.tasks), s1, last).l.runState == Finished
    ensures var g, s := GraphOf(m.tasks), History(host, m, w, cfg, ops);
      var s1 := ApplyAll(host, g, s, overrides);
      var s2 := Resume(host, g, s1, last);
      && (Recovered(s2) <==> NoStaleBlocker(s))
      && (NoStaleBlocker(s) ==> OneCallEach(s1, s2, g.Keys))
  {
    hide *;
    HistoryIsTracked(host, m, w, cfg, ops);
    RecoversIffNoStale(host, m, w, cfg, ops, overrides, last);
  }
}
