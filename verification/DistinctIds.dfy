/** Ids that never repeat are one way to meet the guard on overrides. */
module DistinctIds {
  import opened Prelude
  import opened Topo
  import opened Ledgers
  import opened RunLoop
  import opened Steps
  import opened Invariants
  import opened Histories
  import opened Coverage

  /** `ids` never repeats a value over the whole history. */
  ghost predicate UniqueIds(host: Host) {
    forall i: nat, j: nat :: host.ids(i) == host.ids(j) ==> i == j
  }

  /** The id is one of the first `minted` values of the id source. */
  ghost predicate Minted(host: Host, id: string, minted: nat) {
    exists k: nat :: k < minted && id == host.ids(k)
  }

  ghost predicate DistinctBlockers(blockers: seq<Blocker>) {
    forall i, j :: 0 <= i < j < |blockers| ==> blockers[i].blockerId != blockers[j].blockerId
  }

  /** Open blockers carry different ids, all handed out already. */
  ghost predicate Tracked(host: Host, s: State) {
    && (forall i :: 0 <= i < |s.l.blockers| ==> Minted(host, s.l.blockers[i].blockerId, s.w.minted))
    && DistinctBlockers(s.l.blockers)
  }

  /** With distinct ids an override takes away one blocker, that of the task it reopens. */
  lemma DistinctSpares(l: Ledger, id: string)
    requires Covered(l) && DistinctBlockers(l.blockers)
    ensures SparesOthers(l, id)
  {
    var first := FindBlocker(l.blockers, id);
    forall t | t in l.tasks && l.tasks[t].status == Blocked && !Reopens(l.blockers, id, t)
      ensures KeepsBlocker(l.blockers, id, t)
    {
      var i :| 0 <= i < |l.blockers| && l.blockers[i].taskId == t;
      assert l.blockers[i].blockerId == id ==> i == first;
    }
  }

  lemma OpenedKeepsTracked(host: Host, s: State, s': State, t: string)
    requires UniqueIds(host) && Tracked(host, s) && s.w.minted <= s'.w.minted && Opened(host, s, s', t)
    ensures Tracked(host, s')
  {
    var B, B' := s.l.blockers, s'.l.blockers;
    forall i | 0 <= i < |B'| ensures Minted(host, B'[i].blockerId, s'.w.minted) {
      if i < |B| { assert B'[i] == B[i] && Minted(host, B[i].blockerId, s.w.minted); }
    }
    forall i, j | 0 <= i < j < |B'| ensures B'[i].blockerId != B'[j].blockerId {
      assert B'[i] == B[i] && Minted(host, B[i].blockerId, s.w.minted);
      if j < |B| { assert B'[j] == B[j]; }
    }
  }

  lemma SameBlockersTracked(host: Host, s: State, s': State)
    requires Tracked(host, s) && s'.l.blockers == s.l.blockers && s.w.minted <= s'.w.minted
    ensures Tracked(host, s')
  {
    forall i | 0 <= i < |s'.l.blockers| ensures Minted(host, s'.l.blockers[i].blockerId, s'.w.minted) {
      assert Minted(host, s.l.blockers[i].blockerId, s.w.minted);
    }
  }

  lemma TurnKeepsTracked(host: Host, g: Graph, s: State, s': State, t: string, cfg: Config, stopped: bool)
    requires UniqueIds(host) && Fits(g, s) && Tracked(host, s) && t in g && Turned(host, g, s, s', t, cfg, stopped)
    ensures Tracked(host, s')
  {
    hide Tracked, UniqueIds;
    if stopped || s.l.tasks[t].status == Completed {
      SameBlockersTracked(host, s, s');
    } else if !(g[t] <= CompletedSet(s.l.tasks)) {
      OpenedKeepsTracked(host, s, s', t);
    } else if AlreadyCommitted(s.l.journal, t) {
      SameBlockersTracked(host, s, s');
    } else {
      var w0 :| Executed(host, s, s', t, cfg, w0);
      if Retry(host, w0, t, 0, cfg).result.success {
        SameBlockersTracked(host, s, s');
      } else {
        OpenedKeepsTracked(host, s, s', t);
      }
    }
  }

  lemma {:induction false} LoopKeepsTracked(host: Host, g: Graph, s: State, order: seq<string>, cfg: Config)
    requires ClockOk(host) && UniqueIds(host) && Fits(g, s) && Inv(g, s) && Tracked(host, s) && Elems(order) <= g.Keys
    ensures Tracked(host, Loop(host, g, s, order, cfg).0)
    decreases |order|
  {
    if order != [] {
      hide Inv, Turned, Visit, Tracked, UniqueIds;
      InvBasics(g, s);
      assert order[0] in Elems(order) && Elems(order[1..]) <= Elems(order);
      var turn := Visit(host, g, s, order[0], cfg);
      VisitEffect(host, g, s, order[0], cfg);
      TurnKeepsInv(host, g, s, turn.s, order[0], cfg, turn.Stop?);
      TurnKeepsTracked(host, g, s, turn.s, order[0], cfg, turn.Stop?);
      if turn.Next? { LoopKeepsTracked(host, g, turn.s, order[1..], cfg); }
    }
  }

  lemma DriveKeepsTracked(host: Host, g: Graph, s: State, cfg: Config)
    requires ClockOk(host) && UniqueIds(host) && Fits(g, s) && Inv(g, s) && Tracked(host, s)
    ensures Tracked(host, Drive(host, g, s, cfg))
  {
    hide Inv, Loop, Order, Tracked, UniqueIds;
    OrderIsPermutation(g, DefaultRank);
    LoopKeepsTracked(host, g, s, TopoOrder(g), cfg);
    SameBlockersTracked(host, Loop(host, g, s, TopoOrder(g), cfg).0, Drive(host, g, s, cfg));
  }

  lemma {:induction false} WithoutKeepsDistinct(blockers: seq<Blocker>, id: string)
    requires DistinctBlockers(blockers)
    ensures DistinctBlockers(WithoutBlocker(blockers, id))
  {
    var at := WithoutKeepsOrder(blockers, id);
    hide WithoutBlocker;
  }

  lemma ResolveKeepsTracked(host: Host, s: State, id: string, decision: string, actor: string, at: string)
    requires Tracked(host, s)
    ensures Tracked(host, s.(l := Resolve(s.l, id, decision, actor, at)))
  {
    var B, B' := s.l.blockers, Resolve(s.l, id, decision, actor, at).blockers;
    WithoutKeepsDistinct(B, id);
    forall i | 0 <= i < |B'| ensures Minted(host, B'[i].blockerId, s.w.minted) {
      assert B'[i] in B;
      var k :| 0 <= k < |B| && B[k] == B'[i];
      assert Minted(host, B[k].blockerId, s.w.minted);
    }
  }

  lemma ApplyKeepsTracked(host: Host, g: Graph, s: State, op: Op)
    requires ClockOk(host) && UniqueIds(host) && Fits(g, s) && Inv(g, s) && Tracked(host, s)
    ensures Tracked(host, Apply(host, g, s, op))
  {
    hide Inv, Tracked, UniqueIds, Drive, Resolve;
    match op
    case ResumeOp(cfg) =>
      var s1 := s.(l := s.l.(runState := Running));
      SameFactsKeep(g, s, s1);
      SameBlockersTracked(host, s, s1);
      DriveKeepsTracked(host, g, s1, cfg);
    case ResolveOp(_, id, decision, actor, at) => ResolveKeepsTracked(host, s, id, decision, actor, at);
    case LandOp(_, _, _, _) => SameBlockersTracked(host, s, Apply(host, g, s, op));
  }

  lemma {:induction false} HistoryKeepsTracked(host: Host, g: Graph, s: State, ops: seq<Op>)
    requires ClockOk(host) && UniqueIds(host) && Fits(g, s) && Good(g, s) && Tracked(host, s)
    ensures Tracked(host, ApplyAll(host, g, s, ops))
  {
    hide Inv, Good, Tracked, UniqueIds, Apply;
    if ops != [] {
      var n := |ops| - 1;
      HistoryKeepsTracked(host, g, s, ops[..n]);
      InvThroughout(host, g, s, ops[..n]);
      ApplyKeepsTracked(host, g, ApplyAll(host, g, s, ops[..n]), ops[n]);
    }
  }

  lemma RunIsTracked(host: Host, m: Manifest, w: World, cfg: Config)
    requires ClockOk(host) && UniqueIds(host)
    ensures Tracked(host, Run(host, m, w, cfg))
  {
    hide Inv, Drive;
    FreshInv(m, w);
    DriveKeepsTracked(host, GraphOf(m.tasks), Fresh(m, w), cfg);
  }

  /** If ids never repeat, open blockers carry different ids in every ledger of every history. */
  lemma HistoryIsTracked(host: Host, m: Manifest, w: World, cfg: Config, ops: seq<Op>)
    requires ClockOk(host) && UniqueIds(host)
    ensures DistinctBlockers(History(host, m, w, cfg, ops).l.blockers)
  {
    hide Run, Good, UniqueIds;
    RunIsGood(host, m, w, cfg);
    RunIsTracked(host, m, w, cfg);
    HistoryKeepsTracked(host, GraphOf(m.tasks), Run(host, m, w, cfg), ops);
  }

  lemma DistinctSparesOp(l: Ledger, op: Op)
    requires Covered(l) && DistinctBlockers(l.blockers)
    ensures Spares(l, op)
  {
    hide SparesOthers, Covered, DistinctBlockers;
    if op.ResolveOp? { DistinctSpares(l, op.id); }
  }

  lemma TrackedIsDistinct(host: Host, s: State)
    requires Tracked(host, s)
    ensures DistinctBlockers(s.l.blockers)
  {
  }

  lemma TrackedSpares(host: Host, g: Graph, s: State, ops: seq<Op>, k: nat)
    requires ClockOk(host) && UniqueIds(host) && Fits(g, s) && Good(g, s) && Tracked(host, s)
    requires k < |ops| && Covered(ApplyAll(host, g, s, ops[..k]).l)
    ensures Spares(ApplyAll(host, g, s, ops[..k]).l, ops[k])
  {
    hide Good, UniqueIds, Apply, Covered, Tracked, DistinctBlockers, Spares;
    HistoryKeepsTracked(host, g, s, ops[..k]);
    TrackedIsDistinct(host, ApplyAll(host, g, s, ops[..k]));
    DistinctSparesOp(ApplyAll(host, g, s, ops[..k]).l, ops[k]);
  }

  lemma {:induction false} TrackedCovers(host: Host, g: Graph, s: State, ops: seq<Op>, k: nat)
    requires ClockOk(host) && UniqueIds(host) && Fits(g, s) && Good(g, s) && Tracked(host, s) && Covered(s.l)
    requires k <= |ops|
    ensures Covered(ApplyAll(host, g, s, ops[..k]).l)
  {
    hide Inv, Good, UniqueIds, Apply, Covered, Tracked, Spares;
    if k == 0 {
      assert ops[..0] == [];
    } else {
      TrackedCovers(host, g, s, ops, k - 1);
      TrackedSpares(host, g, s, ops, k - 1);
      InvThroughout(host, g, s, ops[..k - 1]);
      ApplyCoveredIff(host, g, ApplyAll(host, g, s, ops[..k - 1]), ops[k - 1]);
      OneMoreOp(host, g, s, ops, k - 1);
    }
  }

  /** If ids never repeat, every override of every history spares the others. */
  lemma UniqueIdsSpare(host: Host, m: Manifest, w: World, cfg: Config, ops: seq<Op>)
    requires ClockOk(host) && UniqueIds(host)
    ensures SparedHistory(host, m, w, cfg, ops)
  {
    hide Run, Good, Covered, UniqueIds, Tracked, Spares;
    RunIsGood(host, m, w, cfg);
    RunIsCovered(host, m, w, cfg);
    RunIsTracked(host, m, w, cfg);
    var g, s := GraphOf(m.tasks), Run(host, m, w, cfg);
    forall k | 0 <= k < |ops| ensures Spares(ApplyAll(host, g, s, ops[..k]).l, ops[k]) {
      TrackedCovers(host, g, s, ops, k);
      TrackedSpares(host, g, s, ops, k);
    }
  }
}
