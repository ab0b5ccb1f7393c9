/** What goes out about a ledger, in plain words: which records are reported, in which order, with which contents. */
module Reports {
  import opened Prelude
  import opened HashChain
  import opened Topo
  import opened Ledgers
  import opened RunLoop
  import opened Steps
  import opened Invariants
  import opened Histories
  import opened Coverage
  import opened Projection

  // ---- Verdicts and evidence -----------------------------------------------------------------------

  /** A successful call for t carried evidence. */
  ghost predicate Evidenced(calls: seq<Call>, t: string) {
    exists c :: 0 <= c < |calls| && calls[c].taskId == t && calls[c].result.success && calls[c].result.evidence.Some?
  }

  /** An entry passes, and names evidence, exactly when a successful call for it carried some. */
  ghost predicate PassedMeans(s: State) {
    && (forall t :: t in s.l.tasks ==>
          && (s.l.tasks[t].passed <==> Evidenced(s.w.calls, t))
          && (s.l.tasks[t].evidenceRefs != [] <==> Evidenced(s.w.calls, t)))
    && forall c :: 0 <= c < |s.w.calls| ==> s.w.calls[c].taskId in s.l.tasks
  }

  lemma CalledEvidence(calls: seq<Call>, calls': seq<Call>, t: string, r: ExecResult, n: nat, u: string)
    requires Called(calls, calls', t, r, n)
    ensures Evidenced(calls', u) <==> Evidenced(calls, u) || (u == t && r.success && r.evidence.Some?)
    ensures forall c :: 0 <= c < |calls'| ==> if c < |calls| then calls'[c] == calls[c] else calls'[c].taskId == t
  {
    if Evidenced(calls, u) {
      var c :| 0 <= c < |calls| && calls[c].taskId == u && calls[c].result.success && calls[c].result.evidence.Some?;
      assert calls'[c] == calls[c];
    }
    assert calls'[|calls'| - 1] == Call(t, r);
  }

  lemma RanPasses(s: State, s': State, t: string, r: ExecResult, n: nat)
    requires Ran(s, s', t, r, n) && PassedMeans(s)
    requires s'.l.tasks[t].passed <==> s.l.tasks[t].passed || (r.success && r.evidence.Some?)
    requires s'.l.tasks[t].evidenceRefs != [] <==> s.l.tasks[t].evidenceRefs != [] || (r.success && r.evidence.Some?)
    ensures PassedMeans(s')
  {
    hide Called, Evidenced;
    forall u | u in s'.l.tasks
      ensures s'.l.tasks[u].passed <==> Evidenced(s'.w.calls, u)
      ensures s'.l.tasks[u].evidenceRefs != [] <==> Evidenced(s'.w.calls, u)
    {
      CalledEvidence(s.w.calls, s'.w.calls, t, r, n, u);
    }
    CalledEvidence(s.w.calls, s'.w.calls, t, r, n, t);
  }

  lemma SameCallsPass(s: State, s': State)
    requires PassedMeans(s) && s'.w.calls == s.w.calls && s'.l.tasks.Keys == s.l.tasks.Keys
    requires forall t :: t in s.l.tasks ==>
               s'.l.tasks[t].passed == s.l.tasks[t].passed && s'.l.tasks[t].evidenceRefs == s.l.tasks[t].evidenceRefs
    ensures PassedMeans(s')
  {
    hide Evidenced;
  }

  lemma TurnPasses(host: Host, g: Graph, s: State, s': State, t: string, cfg: Config, stopped: bool)
    requires Fits(g, s) && PassedMeans(s) && t in g && Turned(host, g, s, s', t, cfg, stopped)
    ensures PassedMeans(s')
  {
    hide Ran, PassedMeans, Retry, AlreadyCommitted;
    if stopped || s.l.tasks[t].status == Completed {
      SameCallsPass(s, s');
    } else if !(g[t] <= CompletedSet(s.l.tasks)) {
      SameCallsPass(s, s');
    } else if AlreadyCommitted(s.l.journal, t) {
      SameCallsPass(s, s');
    } else {
      var w0 :| Executed(host, s, s', t, cfg, w0);
      var e := Retry(host, w0, t, 0, cfg);
      RanPasses(s, s', t, e.result, e.attempts);
    }
  }

  lemma {:induction false} LoopPasses(host: Host, g: Graph, s: State, order: seq<string>, cfg: Config)
    requires ClockOk(host) && Fits(g, s) && Inv(g, s) && PassedMeans(s) && Elems(order) <= g.Keys
    ensures PassedMeans(Loop(host, g, s, order, cfg).0)
    decreases |order|
  {
    if order != [] {
      hide Inv, Turned, Visit, PassedMeans;
      InvBasics(g, s);
      assert order[0] in Elems(order) && Elems(order[1..]) <= Elems(order);
      var turn := Visit(host, g, s, order[0], cfg);
      VisitEffect(host, g, s, order[0], cfg);
      TurnKeepsInv(host, g, s, turn.s, order[0], cfg, turn.Stop?);
      TurnPasses(host, g, s, turn.s, order[0], cfg, turn.Stop?);
      if turn.Next? { LoopPasses(host, g, turn.s, order[1..], cfg); }
    }
  }

  lemma DrivePasses(host: Host, g: Graph, s: State, cfg: Config)
    requires ClockOk(host) && Fits(g, s) && Inv(g, s) && PassedMeans(s)
    ensures PassedMeans(Drive(host, g, s, cfg))
  {
    hide Inv, Loop, Order, PassedMeans;
    OrderIsPermutation(g, DefaultRank);
    LoopPasses(host, g, s, TopoOrder(g), cfg);
    SameCallsPass(Loop(host, g, s, TopoOrder(g), cfg).0, Drive(host, g, s, cfg));
  }

  lemma ApplyPasses(host: Host, g: Graph, s: State, op: Op)
    requires ClockOk(host) && Fits(g, s) && Inv(g, s) && PassedMeans(s)
    ensures PassedMeans(Apply(host, g, s, op))
  {
    hide Inv, Drive, PassedMeans, Sorted, EditedPaths, FindBlocker, WithoutBlocker;
    match op
    case ResumeOp(cfg) =>
      var s1 := s.(l := s.l.(runState := Running));
      SameFactsKeep(g, s, s1);
      SameCallsPass(s, s1);
      DrivePasses(host, g, s1, cfg);
    case _ => SameCallsPass(s, Apply(host, g, s, op));
  }

  lemma {:induction false} HistoryPasses(host: Host, m: Manifest, w: World, cfg: Config, ops: seq<Op>)
    requires ClockOk(host)
    ensures PassedMeans(History(host, m, w, cfg, ops))
  {
    var g := GraphOf(m.tasks);
    if ops == [] {
      hide Drive, Inv;
      FreshInv(m, w);
      DrivePasses(host, g, Fresh(m, w), cfg);
    } else {
      hide Apply, Run, Inv, Good, PassedMeans;
      var n := |ops| - 1;
      HistoryPasses(host, m, w, cfg, ops[..n]);
      RunIsGood(host, m, w, cfg);
      InvThroughout(host, g, Run(host, m, w, cfg), ops[..n]);
      ApplyPasses(host, g, History(host, m, w, cfg, ops[..n]), ops[n]);
    }
  }

  // ---- The outbound events, record by record -------------------------------------------------------

  /** How many outbound events a record of this kind has: undo and resolution records have none. */
  function Parts(kind: Kind): nat {
    match kind
    case TaskCompleted => 2
    case TaskStarted => 1
    case FileEdited => 1
    case TaskBlocked => 1
    case Commit => 1
    case _ => 0
  }

  /** The type and status of the first event of a record. */
  ghost predicate Announces(kind: Kind, eventType: string, status: string) {
    match kind
    case TaskStarted => eventType == "task.started" && status == "running"
    case FileEdited => eventType == "file.changed" && status == "running"
    case TaskCompleted => eventType == "task.completed" && status == "succeeded"
    case TaskBlocked => eventType == "task.blocked" && status == "blocked"
    case Commit => eventType == "artifact.created" && status == "running"
    case _ => false
  }

  /** The outbound event is about this record: its identity, ids, key, times and signature. */
  ghost predicate About(o: OutEvent, sender: Sender, r: LogEvent) {
    var runId := sender.identity.runId;
    && o.body.identity == sender.identity && o.body.occurredAt == r.event.at && o.body.receivedAt == r.event.at
    && o.body.key == runId + ":" + r.hash + ":" + o.body.eventType.Text()
    && o.body.eventId == "EV-" + sender.digest(o.body.key)
    && o.body.traceId == "TR-" + sender.digest(runId + ":" + r.hash)
    && o.keyId == sender.keyId && o.signature == sender.sign(o.body)
  }

  /** Its contents: the first event carries the record's paths, the second one only the verdict. */
  ghost predicate Carries(o: OutEvent, r: LogEvent, part: nat, passed: bool) {
    if part == 0 then Announces(r.event.kind, o.body.eventType.Text(), o.body.status) && o.body.refs == r.event.paths
    else
      && o.body.eventType.Text() == (if passed then "test.passed" else "test.failed")
      && o.body.status == "running" && o.body.refs == []
  }

  /** `origin` names, for each outbound event, its record and its place among that record's events, in log order. */
  ghost predicate InLogOrder(origin: seq<(nat, nat)>, log: seq<LogEvent>) {
    && (forall a, b :: 0 <= a < b < |origin| ==>
          origin[a].0 < origin[b].0 || (origin[a].0 == origin[b].0 && origin[a].1 < origin[b].1))
    && forall i: nat, part: nat :: (i, part) in origin <==> i < |log| && part < Parts(log[i].event.kind)
  }

  ghost predicate Told(tasks: map<string, TaskEntry>, sender: Sender, log: seq<LogEvent>, out: seq<OutEvent>,
                       origin: seq<(nat, nat)>)
  {
    && |origin| == |out|
    && forall n :: 0 <= n < |out| ==>
         && origin[n].0 < |log| && About(out[n], sender, log[origin[n].0])
         && Carries(out[n], log[origin[n].0], origin[n].1, TaskPassed(tasks, log[origin[n].0].event.subject))
  }

  lemma OutIsAbout(sender: Sender, r: LogEvent, eventType: OutType, status: string, refs: seq<string>)
    ensures var o := Out(sender, r, eventType, status, refs);
      About(o, sender, r) && o.body.eventType == eventType && o.body.status == status && o.body.refs == refs
  {
    hide OutType.Text;
    var runId, text := sender.identity.runId, eventType.Text();
    assert runId + ":" + r.hash == runId + (":" + r.hash);
    assert runId + ":" + r.hash + ":" + text == (runId + (":" + r.hash)) + (":" + text);
  }

  lemma FanTells(tasks: map<string, TaskEntry>, sender: Sender, r: LogEvent)
    ensures var fan := Fan(tasks, sender, r);
      && |fan| == Parts(r.event.kind)
      && forall part :: 0 <= part < |fan| ==>
           About(fan[part], sender, r) && Carries(fan[part], r, part, TaskPassed(tasks, r.event.subject))
  {
    hide Out, About;
    var passed := TaskPassed(tasks, r.event.subject);
    match r.event.kind
    case TaskStarted => OutIsAbout(sender, r, Started, "running", r.event.paths);
    case FileEdited => OutIsAbout(sender, r, Changed, "running", r.event.paths);
    case TaskCompleted =>
      OutIsAbout(sender, r, Done, "succeeded", r.event.paths);
      OutIsAbout(sender, r, if passed then TestPassed else TestFailed, "running", []);
    case TaskBlocked => OutIsAbout(sender, r, Stopped, "blocked", r.event.paths);
    case Commit => OutIsAbout(sender, r, Created, "running", r.event.paths);
    case _ =>
  }

  function PartsOf(i: nat, n: nat): seq<(nat, nat)> { seq(n, part requires 0 <= part < n => (i, part)) }

  lemma OrderGrows(origin: seq<(nat, nat)>, log: seq<LogEvent>)
    requires log != [] && InLogOrder(origin, log[..|log| - 1])
    ensures var i := |log| - 1; InLogOrder(origin + PartsOf(i, Parts(log[i].event.kind)), log)
  {
    var m := |log| - 1;
    var news := PartsOf(m, Parts(log[m].event.kind));
    forall i: nat, part: nat
      ensures (i, part) in origin + news <==> i < |log| && part < Parts(log[i].event.kind)
    {
      if i == m && part < Parts(log[m].event.kind) { assert news[part] == (i, part); }
      if i < m { assert log[..m][i] == log[i]; }
    }
    forall a | 0 <= a < |origin| ensures origin[a].0 < m {
      assert origin[a] in origin && (origin[a].0, origin[a].1) == origin[a];
    }
  }

  lemma ToldGrows(tasks: map<string, TaskEntry>, sender: Sender, log: seq<LogEvent>, out: seq<OutEvent>,
                  origin: seq<(nat, nat)>)
    requires log != [] && Told(tasks, sender, log[..|log| - 1], out, origin)
    ensures var r := log[|log| - 1];
      Told(tasks, sender, log, out + Fan(tasks, sender, r), origin + PartsOf(|log| - 1, Parts(r.event.kind)))
  {
    hide Fan, About, Carries, Parts;
    FanTells(tasks, sender, log[|log| - 1]);
    assert forall i :: 0 <= i < |log| - 1 ==> log[..|log| - 1][i] == log[i];
  }

  lemma {:induction false} ProjectTells(tasks: map<string, TaskEntry>, sender: Sender, log: seq<LogEvent>)
    returns (origin: seq<(nat, nat)>)
    ensures InLogOrder(origin, log) && Told(tasks, sender, log, Project(tasks, sender, log), origin)
  {
    hide Fan, Told, InLogOrder;
    if log == [] {
      origin := [];
      NothingTold(tasks, sender);
    } else {
      var m := |log| - 1;
      var before := ProjectTells(tasks, sender, log[..m]);
      OrderGrows(before, log);
      ToldGrows(tasks, sender, log, Project(tasks, sender, log[..m]), before);
      origin := before + PartsOf(m, Parts(log[m].event.kind));
    }
  }

  lemma NothingTold(tasks: map<string, TaskEntry>, sender: Sender)
    ensures InLogOrder([], []) && Told(tasks, sender, [], [], [])
  {
  }

  // ---- Over every history --------------------------------------------------------------------------

  /** The one successful call for t carried evidence, or it did not. */
  ghost predicate SucceededWith(calls: seq<Call>, t: string, evidence: bool) {
    exists c :: 0 <= c < |calls| && calls[c].taskId == t && calls[c].result.success
             && (calls[c].result.evidence.Some? <==> evidence)
  }

  /** The event's contents are right, and its verdict, if it is one, is that of the task's successful call. */
  ghost predicate CarriesTrue(o: OutEvent, r: LogEvent, part: nat, calls: seq<Call>) {
    exists passed ::
      && Carries(o, r, part, passed)
      && (part == 1 ==> r.event.subject.Some? && SucceededWith(calls, r.event.subject.value, passed))
  }

  /**
   * The verdict an outbound event carries about a completed task is that of its successful call, and there is only
   * one such call.
   */
  lemma CompletionVerdict(host: Host, m: Manifest, w: World, cfg: Config, ops: seq<Op>, i: nat)
    requires ClockOk(host)
    requires var l := History(host, m, w, cfg, ops).l; i < |l.events| && l.events[i].kind == TaskCompleted
    ensures var s := History(host, m, w, cfg, ops);
      && s.l.events[i].subject.Some? && NoCallAfterSuccess(s.w.calls)
      && SucceededWith(s.w.calls, s.l.events[i].subject.value, TaskPassed(s.l.tasks, s.l.events[i].subject))
  {
    hide History, LeasesReleased, AllScoped, Owned, NoneInProgress, DepsFirst, OneCompletion, OneCommit, Evidenced;
    HistoryIsGood(host, m, w, cfg, ops);
    HistoryPasses(host, m, w, cfg, ops);
    var s := History(host, m, w, cfg, ops);
    var t := s.l.events[i].subject.value;
    assert Completes(s.l.events[i], t);
    assert CompletedIn(s.l.events, t) && SucceededIn(s.w.calls, t);
    OneSuccessDecides(s.w.calls, t);
    var c :| 0 <= c < |s.w.calls| && s.w.calls[c].taskId == t && s.w.calls[c].result.success;
    assert t in s.l.tasks;
  }

  lemma OneSuccessDecides(calls: seq<Call>, t: string)
    requires NoCallAfterSuccess(calls) && SucceededIn(calls, t)
    ensures SucceededWith(calls, t, Evidenced(calls, t))
  {
    var c :| 0 <= c < |calls| && calls[c].taskId == t && calls[c].result.success;
    if Evidenced(calls, t) {
      var d :| 0 <= d < |calls| && calls[d].taskId == t && calls[d].result.success && calls[d].result.evidence.Some?;
      assert c == d;
    }
  }

  /**
   * Over every history: the outbound events are the reported records of the log in order, a completion twice, each
   * with the literal type and status of its kind and the record's time and paths. A completed task's verdict is
   * "test.passed" if and only if its successful call carried evidence.
   */
  lemma HistoryIsTold(h: Hash, sender: Sender, host: Host, m: Manifest, w: World, cfg: Config, ops: seq<Op>)
    returns (origin: seq<(nat, nat)>)
    requires ClockOk(host)
    ensures var s := History(host, m, w, cfg, ops);
      var log, out := Seal(h, s.l.events), Projected(h, sender, s.l);
      && |origin| == |out| && InLogOrder(origin, log)
      && forall n :: 0 <= n < |out| ==>
           && origin[n].0 < |log| && log[origin[n].0].event == s.l.events[origin[n].0]
           && About(out[n], sender, log[origin[n].0])
           && CarriesTrue(out[n], log[origin[n].0], origin[n].1, s.w.calls)
  {
    hide History, Project, Seal, InLogOrder, About, Carries, SucceededWith, NoCallAfterSuccess, TaskPassed;
    var s := History(host, m, w, cfg, ops);
    var log, out := Seal(h, s.l.events), Projected(h, sender, s.l);
    origin := ProjectTells(s.l.tasks, sender, log);
    SealKeepsEvents(h, s.l.events);
    forall n | 0 <= n < |out|
      ensures CarriesTrue(out[n], log[origin[n].0], origin[n].1, s.w.calls)
    {
      var i := origin[n].0;
      var passed := TaskPassed(s.l.tasks, log[i].event.subject);
      assert Carries(out[n], log[i], origin[n].1, passed);
      if origin[n].1 == 1 {
        SecondIsCompletion(origin, log, n);
        CompletionVerdict(host, m, w, cfg, ops, i);
      }
    }
  }

  lemma SecondIsCompletion(origin: seq<(nat, nat)>, log: seq<LogEvent>, n: nat)
    requires InLogOrder(origin, log) && n < |origin| && origin[n].0 < |log| && origin[n].1 == 1
    ensures log[origin[n].0].event.kind == TaskCompleted
  {
    assert (origin[n].0, origin[n].1) in origin;
  }
}
