/** Safety over every history: one `run`, then any sequence of `resume`, `resolve_blocker` and `land`. */
module Histories {
  import opened Prelude
  import opened HashChain
  import opened Topo
  import opened Ledgers
  import opened RunLoop
  import opened Steps
  import opened Invariants

  // ---- What an operation may change --------------------------------------------------------------------

  ghost predicate OverriddenSince(s: State, s': State, id: string) {
    exists k :: |s.l.resolutions| <= k < |s'.l.resolutions|
             && s'.l.resolutions[k].blockerId == id && s'.l.resolutions[k].decision == OVERRIDE
  }

  /** Records are only appended, finished tasks keep their verdict, and blockers go only by override. */
  ghost predicate Evolves(s: State, s': State) {
    && s'.l.scope == s.l.scope && s'.l.source == s.l.source && s'.l.tasks.Keys == s.l.tasks.Keys
    && s.l.events <= s'.l.events && s.l.journal <= s'.l.journal && s.l.leases <= s'.l.leases
    && s.l.history <= s'.l.history && s.l.evidence <= s'.l.evidence && s.l.resolutions <= s'.l.resolutions
    && s.w.calls <= s'.w.calls && s.w.minted <= s'.w.minted
    && (forall t :: t in s.l.tasks && CompletedIn(s.l.events, t) ==> s'.l.tasks[t].passed == s.l.tasks[t].passed)
    && (forall b :: b in s.l.blockers && b !in s'.l.blockers ==> OverriddenSince(s, s', b.blockerId))
  }

  lemma EvolvesTransitive(s: State, s1: State, s2: State)
    requires Evolves(s, s1) && Evolves(s1, s2)
    ensures Evolves(s, s2)
  {
    forall t | t in s.l.tasks && CompletedIn(s.l.events, t) ensures s2.l.tasks[t].passed == s.l.tasks[t].passed {
      CompletedInPrefix(s.l.events, s1.l.events, t);
    }
    forall b | b in s.l.blockers && b !in s2.l.blockers ensures OverriddenSince(s, s2, b.blockerId) {
      if b in s1.l.blockers {
        assert OverriddenSince(s1, s2, b.blockerId);
      } else {
        var k :| |s.l.resolutions| <= k < |s1.l.resolutions|
              && s1.l.resolutions[k].blockerId == b.blockerId && s1.l.resolutions[k].decision == OVERRIDE;
        assert s2.l.resolutions[k] == s1.l.resolutions[k];
      }
    }
  }

  lemma CompletedInPrefix(E: seq<Event>, E': seq<Event>, t: string)
    requires E <= E' && CompletedIn(E, t)
    ensures CompletedIn(E', t)
  {
    var i :| 0 <= i < |E| && Completes(E[i], t);
    assert E'[i] == E[i];
  }

  /** Nothing the loop itself does touches these. */
  ghost predicate LoopFrame(s: State, s': State) {
    && s'.l.resolutions == s.l.resolutions && s.l.blockers <= s'.l.blockers
        && s'.l.requiresLanding == s.l.requiresLanding
    && s'.l.commits == s.l.commits
  }

  lemma TurnEvolves(host: Host, g: Graph, s: State, s': State, t: string, cfg: Config, stopped: bool)
    requires Inv(g, s) && t in g && Turned(host, g, s, s', t, cfg, stopped)
    ensures Evolves(s, s') && LoopFrame(s, s')
  {
    hide Called, Opened, CompletedIn, CommittedIn, LeasesReleased, DepsFirst, AllScoped, Owned, NoneInProgress;
    hide OneCompletion, OneCommit, NoCallAfterSuccess, Evolves, LoopFrame;
    CommittedByKey(s.l.journal, t);
    if stopped || s.l.tasks[t].status == Completed {
      IdleEvolves(s, s');
    } else if !(g[t] <= CompletedSet(s.l.tasks)) {
      OpenedKeepsVerdict(host, s, s', t);
      FrameEvolves(s, s', t);
    } else if AlreadyCommitted(s.l.journal, t) {
      IdleEvolves(s, s');
    } else {
      var w0 :| Executed(host, s, s', t, cfg, w0);
      var e := Retry(host, w0, t, 0, cfg);
      CalledAppends(s.w.calls, s'.w.calls, t, e.result, e.attempts);
      FrameEvolves(s, s', t);
    }
  }

  lemma IdleEvolves(s: State, s': State)
    requires Idle(s, s')
    ensures Evolves(s, s') && LoopFrame(s, s')
  {
  }

  lemma OpenedKeepsVerdict(host: Host, s: State, s': State, t: string)
    requires Opened(host, s, s', t)
    ensures t in s.l.tasks && t in s'.l.tasks && s'.l.tasks[t].passed == s.l.tasks[t].passed
  {
  }

  lemma CalledAppends(before: seq<Call>, after: seq<Call>, t: string, r: ExecResult, n: nat)
    requires Called(before, after, t, r, n)
    ensures before <= after
  {
  }

  lemma FrameEvolves(s: State, s': State, t: string)
    requires Frame(s, s', t) && s.w.calls <= s'.w.calls
    requires !CompletedIn(s.l.events, t) || s'.l.tasks[t].passed == s.l.tasks[t].passed
    ensures Evolves(s, s') && LoopFrame(s, s')
  {
  }

  lemma {:induction false} LoopEffect(host: Host, g: Graph, s: State, order: seq<string>, cfg: Config)
    requires ClockOk(host) && Inv(g, s) && Elems(order) <= g.Keys
    ensures var r := Loop(host, g, s, order, cfg);
            Inv(g, r.0) && Evolves(s, r.0) && LoopFrame(s, r.0) && r.1 != Running
    decreases |order|
  {
    if order != [] {
      hide Inv, Evolves, Turned, Visit;
      InvBasics(g, s);
      assert order[0] in Elems(order) && Elems(order[1..]) <= Elems(order);
      var turn := Visit(host, g, s, order[0], cfg);
      VisitEffect(host, g, s, order[0], cfg);
      TurnKeepsInv(host, g, s, turn.s, order[0], cfg, turn.Stop?);
      TurnEvolves(host, g, s, turn.s, order[0], cfg, turn.Stop?);
      match turn {
        case Next(s1) =>
          LoopEffect(host, g, s1, order[1..], cfg);
          EvolvesTransitive(s, s1, Loop(host, g, s1, order[1..], cfg).0);
        case Stop(_, _) =>
          VisitStops(host, g, s, order[0], cfg);
      }
    } else {
      EvolvesReflexive(s);
    }
  }

  lemma InvBasics(g: Graph, s: State)
    requires Inv(g, s)
    ensures Fits(g, s) && LeasesReleased(s.l)
  {
  }

  lemma EvolvesReflexive(s: State)
    ensures Evolves(s, s)
  {
  }

  lemma VisitStops(host: Host, g: Graph, s: State, t: string, cfg: Config)
    requires t in s.l.tasks && t in g && Visit(host, g, s, t, cfg).Stop?
    ensures Visit(host, g, s, t, cfg).runState in {Paused, Aborted}
  {
  }

  // ---- Drive -------------------------------------------------------------------------------------------

  /** `allowed` is never left standing over an unfinished task or an open blocker. */
  ghost predicate NothingOpen(l: Ledger) {
    l.reconciliation.allowed ==> PendingSet(l.tasks) == {} && l.blockers == []
  }

  ghost predicate Good(g: Graph, s: State) {
    Inv(g, s) && NothingOpen(s.l)
  }

  lemma NonePending(l: Ledger)
    requires |PendingSet(l.tasks)| == 0
    ensures forall t :: t in l.tasks ==> l.tasks[t].status == Completed || l.tasks[t].status == Blocked
  {
    var open := PendingSet(l.tasks);
    assert open == {};
    forall t | t in l.tasks ensures l.tasks[t].status == Completed || l.tasks[t].status == Blocked {
      assert t !in open;
      assert l.tasks[t].status !in {Pending, InProgress};
    }
  }

  lemma AllDoneIsAllowed(l: Ledger)
    requires AllCompleted(l) && l.blockers == []
    ensures Reconcile(l).reconciliation.allowed
  {
    assert PendingSet(l.tasks) == {};
  }

  /** With covered blockers, reconciliation is allowed exactly when all tasks completed and no blocker is open. */
  lemma ReconcileExact(l: Ledger)
    requires Covered(l)
    ensures Reconcile(l).reconciliation.allowed <==> AllCompleted(l) && l.blockers == []
  {
    if Reconcile(l).reconciliation.allowed {
      NonePending(l);
    }
    if AllCompleted(l) && l.blockers == [] {
      AllDoneIsAllowed(l);
    }
  }

  /** Fields the invariants do not read. */
  ghost predicate SameFacts(s: State, s': State) {
    && s'.w == s.w
    && s'.l == s.l.(runState := s'.l.runState, status := s'.l.status, reconciliation := s'.l.reconciliation)
  }

  lemma SameFactsKeep(g: Graph, s: State, s': State)
    requires SameFacts(s, s')
    ensures Inv(g, s) ==> Inv(g, s')
    ensures Evolves(s, s')
  {
    assert Once(s) ==> Once(s');
  }

  lemma DriveEffect(host: Host, g: Graph, s: State, cfg: Config)
    requires ClockOk(host) && Inv(g, s)
    ensures var s' := Drive(host, g, s, cfg); Good(g, s') && Evolves(s, s') && LoopFrame(s, s')
  {
    hide Inv, Evolves;
    InvBasics(g, s);
    OrderIsPermutation(g, DefaultRank);
    LoopEffect(host, g, s, TopoOrder(g), cfg);
    var r := Loop(host, g, s, TopoOrder(g), cfg);
    var s' := Drive(host, g, s, cfg);
    SameFactsKeep(g, r.0, s');
    EvolvesTransitive(s, r.0, s');
    assert s'.l.reconciliation.allowed ==> |PendingSet(s'.l.tasks)| == 0;
  }

  lemma FreshInv(m: Manifest, w: World)
    ensures Inv(GraphOf(m.tasks), Fresh(m, w))
  {
  }

  // ---- Resolve -----------------------------------------------------------------------------------------

  lemma ResolveIsQuiet(s: State, id: string, decision: string, actor: string, at: string)
    ensures Quiet(s, s.(l := Resolve(s.l, id, decision, actor, at)), "")
  {
  }

  lemma ResolveKeepsScoped(l: Ledger, id: string, decision: string, actor: string, at: string)
    requires AllScoped(l)
    ensures AllScoped(Resolve(l, id, decision, actor, at))
  {
    hide FindBlocker, WithoutBlocker, Reopen;
    var l' := Resolve(l, id, decision, actor, at);
    forall i | 0 <= i < |l'.events| ensures Scoped(l'.events[i], l'.scope) {
      if i < |l.events| { assert l'.events[i] == l.events[i]; }
    }
  }

  lemma ResolveKeepsOwned(l: Ledger, id: string, decision: string, actor: string, at: string)
    requires Owned(l) && NoneInProgress(l)
    ensures var l' := Resolve(l, id, decision, actor, at); Owned(l') && NoneInProgress(l')
  {
    hide FindBlocker, WithoutBlocker, LedgerEvent;
    var l' := Resolve(l, id, decision, actor, at);
    forall i | 0 <= i < |l'.blockers| ensures l'.blockers[i].decisionOwner == "operator" {
      assert l'.blockers[i] in l.blockers;
    }
  }

  lemma ResolveKeepsInv(host: Host, g: Graph, s: State, id: string, decision: string, actor: string, at: string)
    requires Inv(g, s)
    ensures Inv(g, s.(l := Resolve(s.l, id, decision, actor, at)))
  {
    hide Once, DepsFirst, Owned, NoneInProgress, AllScoped, Quiet;
    var s' := s.(l := Resolve(s.l, id, decision, actor, at));
    ResolveIsQuiet(s, id, decision, actor, at);
    QuietKeepsOnce(s, s', "");
    QuietKeepsDepsFirst(g, s.l.events, s'.l.events);
    ResolveKeepsOwned(s.l, id, decision, actor, at);
    ResolveKeepsScoped(s.l, id, decision, actor, at);
  }

  lemma ResolveEvolves(s: State, id: string, decision: string, actor: string, at: string)
    ensures Evolves(s, s.(l := Resolve(s.l, id, decision, actor, at)))
  {
    var s' := s.(l := Resolve(s.l, id, decision, actor, at));
    forall b | b in s.l.blockers && b !in s'.l.blockers ensures OverriddenSince(s, s', b.blockerId) {
      assert s'.l.resolutions[|s.l.resolutions|] == ResolutionRow(id, decision, actor, at);
      assert b.blockerId == id && decision == OVERRIDE;
    }
  }

  // ---- Land --------------------------------------------------------------------------------------------

  lemma LandKeepsInv(host: Host, g: Graph, s: State, s': State, branch: string, message: string, sha: string,
                     at: string)
    requires Inv(g, s) && s'.l == Land(s.l, branch, message, sha, at) && s'.w == s.w.(ticks := s'.w.ticks)
    ensures Inv(g, s') && Evolves(s, s')
  {
    assert Quiet(s, s', "");
    QuietKeepsOnce(s, s', "");
    QuietKeepsDepsFirst(g, s.l.events, s'.l.events);
  }

  // ---- Histories ---------------------------------------------------------------------------------------

  lemma ApplyEffect(host: Host, g: Graph, s: State, op: Op)
    requires ClockOk(host) && Fits(g, s) && Good(g, s)
    ensures Good(g, Apply(host, g, s, op)) && Evolves(s, Apply(host, g, s, op))
  {
    hide Inv, Evolves;
    var s' := Apply(host, g, s, op);
    InvBasics(g, s);
    EvolvesReflexive(s);
    match op {
      case ResumeOp(cfg) =>
        var s1 := s.(l := s.l.(runState := Running));
        SameFactsKeep(g, s, s1);
        DriveEffect(host, g, s1, cfg);
        EvolvesTransitive(s, s1, s');
      case ResolveOp(authorized, id, decision, actor, at) =>
        if authorized {
          ResolveKeepsInv(host, g, s, id, decision, actor, at);
          ResolveEvolves(s, id, decision, actor, at);
        }
      case LandOp(changed, branch, message, sha) =>
        if changed {
          LandKeepsInv(host, g, s, s', branch, message, sha, host.clock(s.w.ticks));
        }
    }
  }

  lemma {:induction false} ApplyAllEffect(host: Host, g: Graph, s: State, ops: seq<Op>)
    requires ClockOk(host) && Fits(g, s) && Good(g, s)
    ensures Good(g, ApplyAll(host, g, s, ops)) && Evolves(s, ApplyAll(host, g, s, ops))
  {
    hide Good, Evolves;
    if ops == [] {
      EvolvesReflexive(s);
    } else {
      var n := |ops| - 1;
      ApplyAllEffect(host, g, s, ops[..n]);
      var s1 := ApplyAll(host, g, s, ops[..n]);
      ApplyEffect(host, g, s1, ops[n]);
      EvolvesTransitive(s, s1, Apply(host, g, s1, ops[n]));
    }
  }

  lemma {:induction false} ApplyAllConcat(host: Host, g: Graph, s: State, ops: seq<Op>, more: seq<Op>)
    requires Fits(g, s)
    ensures ApplyAll(host, g, s, ops + more) == ApplyAll(host, g, ApplyAll(host, g, s, ops), more)
    decreases |more|
  {
    hide Apply;
    if more == [] {
      assert ops + more == ops;
    } else {
      var n := |more| - 1;
      ApplyAllConcat(host, g, s, ops, more[..n]);
      assert (ops + more)[..|ops| + n] == ops + more[..n];
    }
  }

  lemma RunIsGood(host: Host, m: Manifest, w: World, cfg: Config)
    requires ClockOk(host)
    ensures Good(GraphOf(m.tasks), Run(host, m, w, cfg))
  {
    FreshInv(m, w);
    DriveEffect(host, GraphOf(m.tasks), Fresh(m, w), cfg);
  }

  /** Every ledger reached by any history satisfies every invariant. */
  lemma HistoryIsGood(host: Host, m: Manifest, w: World, cfg: Config, ops: seq<Op>)
    requires ClockOk(host)
    ensures Good(GraphOf(m.tasks), History(host, m, w, cfg, ops))
  {
    RunIsGood(host, m, w, cfg);
    ApplyAllEffect(host, GraphOf(m.tasks), Run(host, m, w, cfg), ops);
  }
}
