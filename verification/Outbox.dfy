/**
 * The outbox of one ledger as a transition system: any number of drains at once over a growing event list, each
 * POST and each table access one atomic step, with crashes and retention sweeps in between.
 */
module Outbox {
  import opened Prelude
  import opened Projection
  import opened Relay

  /** Where a drain stands with the event at its position. */
  datatype Phase =
    | Loading | Looking | Posting(attempt: nat, refreshed: bool) | Settling | Burying(reason: Reason) | Ended | Failed

  /** One call of `drain`: the events it projected, the settled keys it loaded, its position and its report. */
  datatype Drainer = Drainer(events: seq<OutEvent>, judge: Judge, retries: int, settled: set<string>, at: nat,
                             phase: Phase, report: Report)

  /** A POST as it went out, with the keys that had been settled by then. */
  datatype Post = Post(event: OutEvent, reply: Reply, judge: Judge, settledBefore: set<string>)

  /** `ever` and `pruned` record which keys were ever settled and ever pruned; `posts` is the wire. */
  datatype System = System(events: seq<OutEvent>, rows: map<string, Row>, drainers: map<nat, Drainer>,
                           posts: seq<Post>, ever: set<string>, pruned: set<string>)

  datatype Act =
    | Grow(more: seq<OutEvent>)
    | Spawn(id: nat, known: nat, judge: Judge, retries: int)
    | Load(id: nat)
    | Look(id: nat)
    | Receive(id: nat, reply: Reply)
    | Write(id: nat)
    | Crash(id: nat)
    | Prune(keys: set<string>)

  // ---- The steps of one drain ----------------------------------------------------------------------

  /** Leave this event and the rest for the next drain. */
  function Stop(d: Drainer): Drainer
    requires d.at < |d.events|
  {
    d.(phase := Ended, report := d.report.(pending := d.report.pending + [d.events[d.at].Key()]))
  }

  function OnOutcome(d: Drainer, o: Outcome): Drainer
    requires d.at < |d.events|
  {
    match o.action
    case Advance => d.(phase := Settling)
    case DeadLetter => d.(phase := Burying(o.reason))
    case TryLater => Stop(d)
    case _ => Stop(d.(report := d.report.(halted := Some(o.reason))))
  }

  /** What a drain does with a final response: a first 401 earns one more delivery, a second one halts. */
  function OnResponse(d: Drainer, refreshed: bool, r: Response): Drainer
    requires d.at < |d.events|
  {
    var o := Classify(r, d.events[d.at].body.occurredAt, d.judge);
    if o.action != Refresh then OnOutcome(d, o)
    else if refreshed then OnOutcome(d, Outcome(Halt, RefreshFailed))
    else d.(phase := Posting(0, true))
  }

  function OnReply(d: Drainer, reply: Reply): Drainer
    requires d.at < |d.events| && d.phase.Posting?
  {
    if Repeats(reply, d.phase.attempt, d.retries) then d.(phase := Posting(d.phase.attempt + 1, d.phase.refreshed))
    else if reply.Unreachable? then d.(phase := Failed)
    else OnResponse(d, d.phase.refreshed, reply.response)
  }

  /** Go on to the next event, skip a settled one, or finish. */
  function OnLook(d: Drainer): Drainer {
    if d.at >= |d.events| then d.(phase := Ended)
    else if d.events[d.at].Key() in d.settled then d.(at := d.at + 1)
    else d.(phase := Posting(0, false))
  }

  function OnWritten(d: Drainer): Drainer
    requires d.at < |d.events|
  {
    var key := d.events[d.at].Key();
    d.(at := d.at + 1, phase := Looking,
       report := if d.phase.Settling? then d.report.(delivered := d.report.delivered + [key])
                 else d.report.(deadLettered := d.report.deadLettered + [key]))
  }

  // ---- The steps of the system ---------------------------------------------------------------------

  ghost predicate Enabled(s: System, a: Act) {
    match a
    case Grow(more) => NoDuplicates(Keys(s.events + more))
    case Spawn(id, known, _, _) => id !in s.drainers && known <= |s.events|
    case Load(id) => id in s.drainers && s.drainers[id].phase.Loading?
    case Look(id) => id in s.drainers && s.drainers[id].phase.Looking?
    case Receive(id, _) => id in s.drainers && s.drainers[id].phase.Posting?
        && s.drainers[id].at < |s.drainers[id].events|
    case Write(id) =>
      && id in s.drainers && (s.drainers[id].phase.Settling? || s.drainers[id].phase.Burying?)
      && s.drainers[id].at < |s.drainers[id].events|
    case Crash(id) => id in s.drainers
    case Prune(keys) => forall k :: k in keys ==> k in s.rows && s.rows[k].Delivered?
  }

  function WriteRow(rows: map<string, Row>, d: Drainer): map<string, Row>
    requires d.at < |d.events|
  {
    var e := d.events[d.at];
    if d.phase.Burying? then rows[e.Key() := DeadLettered(e, d.phase.reason)] else MarkDelivered(rows, e.Key())
  }

  /** One step; an action that is not enabled changes nothing, so every list of actions is a run. */
  ghost function Do(s: System, a: Act): System {
    if !Enabled(s, a) then s
    else
      match a
      case Grow(more) => s.(events := s.events + more)
      case Spawn(id, known, judge, retries) =>
        s.(drainers := s.drainers[id := Drainer(s.events[..known], judge, retries, {}, 0, Loading, EMPTY_REPORT)])
      case Load(id) => s.(drainers := s.drainers[id := s.drainers[id].(settled := s.rows.Keys, phase := Looking)])
      case Look(id) => s.(drainers := s.drainers[id := OnLook(s.drainers[id])])
      case Receive(id, reply) =>
        var d := s.drainers[id];
        s.(posts := s.posts + [Post(d.events[d.at], reply, d.judge, s.ever)],
           drainers := s.drainers[id := OnReply(d, reply)])
      case Write(id) =>
        var d := s.drainers[id];
        s.(rows := WriteRow(s.rows, d), ever := s.ever + {d.events[d.at].Key()},
           drainers := s.drainers[id := OnWritten(d)])
      case Crash(id) => s.(drainers := s.drainers - {id})
      case Prune(keys) => s.(rows := s.rows - keys, pruned := s.pruned + keys)
  }

  const START := System([], map[], map[], [], {}, {})

  ghost function After(s: System, acts: seq<Act>): System {
    if acts == [] then s else Do(After(s, acts[..|acts| - 1]), acts[|acts| - 1])
  }

  // ---- Invariant -----------------------------------------------------------------------------------

  /** Settled keys form a prefix: whatever comes before a settled event is settled. */
  ghost predicate InOrder(events: seq<OutEvent>, ever: set<string>) {
    && (forall i, j :: 0 <= i < j < |events| && events[j].Key() in ever ==> events[i].Key() in ever)
    && (forall k :: k in ever ==> exists i :: 0 <= i < |events| && events[i].Key() == k)
  }

  ghost predicate DoneBefore(events: seq<OutEvent>, at: nat, ever: set<string>) {
    forall i :: 0 <= i < at && i < |events| ==> events[i].Key() in ever
  }

  ghost predicate Was202(posts: seq<Post>, key: string) {
    exists n :: 0 <= n < |posts| && posts[n].event.Key() == key && posts[n].reply.Answered?
        && posts[n].reply.response.status == 202
  }

  ghost predicate WasCondemned(posts: seq<Post>, e: OutEvent) {
    exists n :: 0 <= n < |posts| && posts[n].event == e && posts[n].reply.Answered?
             && Condemned(posts[n].reply.response, e.body.occurredAt, posts[n].judge)
  }

  ghost predicate RowJustified(posts: seq<Post>, events: seq<OutEvent>, key: string, row: Row) {
    match row
    case Delivered => Was202(posts, key)
    case DeadLettered(e, _) => e.Key() == key && e in events && WasCondemned(posts, e)
  }

  /** A POST goes out only when every earlier event is settled. */
  ghost predicate SentInOrder(events: seq<OutEvent>, p: Post) {
    exists i :: 0 <= i < |events| && events[i] == p.event && DoneBefore(events, i, p.settledBefore)
  }

  ghost predicate PhaseOk(posts: seq<Post>, d: Drainer) {
    match d.phase
    case Loading => d.settled == {}
    case Looking => true
    case Posting(attempt, _) => d.at < |d.events| && attempt <= Cap(d.retries)
    case Settling => d.at < |d.events| && Was202(posts, d.events[d.at].Key())
    case Burying(_) => d.at < |d.events| && WasCondemned(posts, d.events[d.at])
    case Ended => d.at <= |d.events|
    case Failed => d.at < |d.events|
  }

  /** An unfinished drain has nothing pending; a finished one is either through, or stopped at one unsettled event. */
  ghost predicate ReportOk(d: Drainer) {
    if d.phase.Ended? && d.at < |d.events|
    then d.report.pending == [d.events[d.at].Key()] && d.events[d.at].Key() !in d.settled
    else
      && d.report.pending == [] && d.report.halted.None?
      && (d.at < |d.events| && !d.phase.Looking? && !d.phase.Loading? ==> d.events[d.at].Key() !in d.settled)
  }

  ghost predicate DrainerOk(s: System, d: Drainer) {
    && d.events <= s.events && d.at <= |d.events|
    && d.settled <= s.ever && DoneBefore(d.events, d.at, s.ever)
    && PhaseOk(s.posts, d) && ReportOk(d)
  }

  ghost predicate RowsOk(s: System) {
    && s.ever == s.rows.Keys + s.pruned
    && (forall k :: k in s.pruned ==> Was202(s.posts, k))
    && forall k :: k in s.rows ==> RowJustified(s.posts, s.events, k, s.rows[k])
  }

  ghost predicate OutboxInv(s: System) {
    && NoDuplicates(Keys(s.events)) && InOrder(s.events, s.ever) && RowsOk(s)
    && (forall id :: id in s.drainers ==> DrainerOk(s, s.drainers[id]))
    && (forall n :: 0 <= n < |s.posts| ==> SentInOrder(s.events, s.posts[n]))
  }

  // ---- Preservation --------------------------------------------------------------------------------

  lemma GrowInOrder(events: seq<OutEvent>, more: seq<OutEvent>, ever: set<string>)
    requires InOrder(events, ever) && NoDuplicates(Keys(events + more))
    ensures InOrder(events + more, ever)
  {
    var all := events + more;
    forall k | k in ever ensures exists i :: 0 <= i < |all| && all[i].Key() == k {
      var i :| 0 <= i < |events| && events[i].Key() == k;
      assert all[i] == events[i];
    }
    forall i, j | 0 <= i < j < |all| && all[j].Key() in ever ensures all[i].Key() in ever {
      var n :| 0 <= n < |events| && events[n].Key() == all[j].Key();
      assert all[n] == events[n];
      DistinctKeys(all, n, j);
    }
  }

  lemma SettleInOrder(events: seq<OutEvent>, at: nat, ever: set<string>)
    requires InOrder(events, ever) && NoDuplicates(Keys(events)) && at < |events| && DoneBefore(events, at, ever)
    ensures InOrder(events, ever + {events[at].Key()})
  {
    forall i, j | 0 <= i < j < |events| && events[j].Key() in ever + {events[at].Key()}
      ensures events[i].Key() in ever + {events[at].Key()}
    {
      if events[j].Key() == events[at].Key() {
        DistinctKeys(events, j, at);
      }
    }
  }

  lemma PostKeeps(posts: seq<Post>, p: Post, events: seq<OutEvent>, key: string, row: Row)
    ensures Was202(posts, key) ==> Was202(posts + [p], key)
    ensures RowJustified(posts, events, key, row) ==> RowJustified(posts + [p], events, key, row)
  {
    if Was202(posts, key) {
      var n :| 0 <= n < |posts| && posts[n].event.Key() == key && posts[n].reply.Answered?
          && posts[n].reply.response.status == 202;
      assert (posts + [p])[n] == posts[n];
    }
    if row.DeadLettered? && WasCondemned(posts, row.event) {
      CondemnedKeeps(posts, p, row.event);
    }
  }

  lemma CondemnedKeeps(posts: seq<Post>, p: Post, e: OutEvent)
    ensures WasCondemned(posts, e) ==> WasCondemned(posts + [p], e)
  {
    if WasCondemned(posts, e) {
      var n :| 0 <= n < |posts| && posts[n].event == e && posts[n].reply.Answered?
            && Condemned(posts[n].reply.response, e.body.occurredAt, posts[n].judge);
      assert (posts + [p])[n] == posts[n];
    }
  }

  /** Later settled keys, more events and more posts leave a waiting drain as it was. */
  lemma OthersKeep(s: System, s': System, d: Drainer)
    requires DrainerOk(s, d) && s.events <= s'.events && s.ever <= s'.ever
    requires s'.posts == s.posts || exists p :: s'.posts == s.posts + [p]
    ensures DrainerOk(s', d)
  {
    if s'.posts != s.posts {
      var p :| s'.posts == s.posts + [p];
      if d.at < |d.events| {
        PostKeeps(s.posts, p, s.events, d.events[d.at].Key(), Delivered);
        CondemnedKeeps(s.posts, p, d.events[d.at]);
      }
    }
  }

  lemma SentKeeps(events: seq<OutEvent>, events': seq<OutEvent>, p: Post)
    requires SentInOrder(events, p) && events <= events'
    ensures SentInOrder(events', p)
  {
    var i :| 0 <= i < |events| && events[i] == p.event && DoneBefore(events, i, p.settledBefore);
    assert events'[i] == events[i];
    assert DoneBefore(events', i, p.settledBefore) by {
      forall j | 0 <= j < i ensures events'[j].Key() in p.settledBefore {
        assert events'[j] == events[j] && events[j].Key() in p.settledBefore;
      }
    }
  }

  /** After a reply the drain's phase is justified by that very reply. */
  lemma ReplyJustifies(s: System, d: Drainer, reply: Reply, p: Post)
    requires DrainerOk(s, d) && d.phase.Posting? && p == Post(d.events[d.at], reply, d.judge, s.ever)
    ensures PhaseOk(s.posts + [p], OnReply(d, reply)) && ReportOk(OnReply(d, reply))
  {
    hide Condemned, Classify, InOrder;
    var posts := s.posts + [p];
    assert posts[|s.posts|] == p;
  }

  lemma ReceiveKeeps(s: System, id: nat, reply: Reply)
    requires OutboxInv(s) && Enabled(s, Receive(id, reply))
    ensures OutboxInv(Do(s, Receive(id, reply)))
  {
    hide InOrder, RowJustified, SentInOrder, DoneBefore, PhaseOk, ReportOk, OnReply, NoDuplicates, Was202, WasCondemned;
    var d := s.drainers[id];
    var p := Post(d.events[d.at], reply, d.judge, s.ever);
    var s' := Do(s, Receive(id, reply));
    assert s'.posts == s.posts + [p];
    ReplyKeepsPlace(d, reply);
    ReplyJustifies(s, d, reply, p);
    forall i | i in s'.drainers ensures DrainerOk(s', s'.drainers[i]) {
      if i != id { OthersKeep(s, s', s.drainers[i]); }
    }
    forall k | k in s.rows ensures RowJustified(s'.posts, s.events, k, s.rows[k]) {
      PostKeeps(s.posts, p, s.events, k, s.rows[k]);
    }
    forall k | k in s.pruned ensures Was202(s'.posts, k) {
      PostKeeps(s.posts, p, s.events, k, Delivered);
    }
    NewPostInOrder(s, d, p);
  }

  lemma NewPostInOrder(s: System, d: Drainer, p: Post)
    requires DrainerOk(s, d) && d.at < |d.events| && p.event == d.events[d.at] && p.settledBefore == s.ever
    ensures SentInOrder(s.events, p)
  {
    assert s.events[d.at] == d.events[d.at];
    assert DoneBefore(s.events, d.at, s.ever);
  }

  lemma ReplyKeepsPlace(d: Drainer, reply: Reply)
    requires d.at < |d.events| && d.phase.Posting?
    ensures var d' := OnReply(d, reply);
      d'.events == d.events && d'.at == d.at && d'.settled == d.settled && d'.judge == d.judge
          && d'.retries == d.retries
  {
  }

  lemma WriteKeepsRows(s: System, id: nat)
    requires RowsOk(s) && Enabled(s, Write(id)) && DrainerOk(s, s.drainers[id])
    ensures RowsOk(Do(s, Write(id)))
  {
    hide Was202, WasCondemned, ReportOk, DoneBefore;
    var d := s.drainers[id];
    var s' := Do(s, Write(id));
    var e := d.events[d.at];
    assert s.events[d.at] == e;
    assert s'.rows.Keys == s.rows.Keys + {e.Key()};
  }

  lemma WriterMovesOn(s: System, id: nat)
    requires Enabled(s, Write(id)) && DrainerOk(s, s.drainers[id])
    ensures DrainerOk(Do(s, Write(id)), OnWritten(s.drainers[id]))
  {
    hide Was202, WasCondemned, ReportOk;
    WrittenReports(s.drainers[id]);
  }

  lemma WriterInOrder(s: System, id: nat)
    requires InOrder(s.events, s.ever) && NoDuplicates(Keys(s.events))
    requires Enabled(s, Write(id)) && DrainerOk(s, s.drainers[id])
    ensures InOrder(s.events, Do(s, Write(id)).ever)
  {
    hide InOrder, NoDuplicates, PhaseOk, ReportOk;
    var d := s.drainers[id];
    assert s.events[d.at] == d.events[d.at] && DoneBefore(s.events, d.at, s.ever);
    SettleInOrder(s.events, d.at, s.ever);
  }

  lemma WriteKeeps(s: System, id: nat)
    requires OutboxInv(s) && Enabled(s, Write(id))
    ensures OutboxInv(Do(s, Write(id)))
  {
    hide InOrder, SentInOrder, NoDuplicates, DrainerOk, RowsOk, WriteRow, OnWritten;
    var s' := Do(s, Write(id));
    WriterInOrder(s, id);
    WriteKeepsRows(s, id);
    WriterMovesOn(s, id);
    forall i | i in s'.drainers ensures DrainerOk(s', s'.drainers[i]) {
      if i != id { OthersKeep(s, s', s.drainers[i]); }
    }
  }

  lemma WrittenReports(d: Drainer)
    requires d.at < |d.events| && (d.phase.Settling? || d.phase.Burying?) && ReportOk(d)
    ensures ReportOk(OnWritten(d))
  {
  }

  lemma LookerMovesOn(s: System, id: nat)
    requires Enabled(s, Look(id)) && DrainerOk(s, s.drainers[id])
    ensures DrainerOk(Do(s, Look(id)), OnLook(s.drainers[id]))
  {
    hide Was202, WasCondemned;
  }

  lemma LookKeeps(s: System, id: nat)
    requires OutboxInv(s) && Enabled(s, Look(id))
    ensures OutboxInv(Do(s, Look(id)))
  {
    hide InOrder, SentInOrder, NoDuplicates, RowJustified, DrainerOk, OnLook;
    var s' := Do(s, Look(id));
    LookerMovesOn(s, id);
    forall i | i in s'.drainers ensures DrainerOk(s', s'.drainers[i]) {
      if i != id { OthersKeep(s, s', s.drainers[i]); }
    }
  }

  lemma StartKeeps(s: System, a: Act)
    requires OutboxInv(s) && Enabled(s, a) && (a.Spawn? || a.Load?)
    ensures OutboxInv(Do(s, a))
  {
    hide InOrder, SentInOrder, NoDuplicates, RowJustified;
    var s' := Do(s, a);
    forall i | i in s'.drainers ensures DrainerOk(s', s'.drainers[i]) {
      if i != a.id { OthersKeep(s, s', s.drainers[i]); }
    }
  }

  lemma GrowKeeps(s: System, more: seq<OutEvent>)
    requires OutboxInv(s) && Enabled(s, Grow(more))
    ensures OutboxInv(Do(s, Grow(more)))
  {
    hide InOrder, SentInOrder, NoDuplicates, DrainerOk;
    var s' := Do(s, Grow(more));
    GrowInOrder(s.events, more, s.ever);
    forall i | i in s'.drainers ensures DrainerOk(s', s'.drainers[i]) { OthersKeep(s, s', s.drainers[i]); }
    forall n | 0 <= n < |s.posts| ensures SentInOrder(s'.events, s.posts[n]) {
      SentKeeps(s.events, s'.events, s.posts[n]);
    }
  }

  lemma EndKeeps(s: System, a: Act)
    requires OutboxInv(s) && Enabled(s, a) && (a.Crash? || a.Prune?)
    ensures OutboxInv(Do(s, a))
  {
    hide InOrder, SentInOrder, NoDuplicates, DrainerOk, Was202, WasCondemned;
    var s' := Do(s, a);
    assert s'.ever == s'.rows.Keys + s'.pruned;
    forall i | i in s'.drainers ensures DrainerOk(s', s'.drainers[i]) { OthersKeep(s, s', s.drainers[i]); }
  }

  lemma StepKeeps(s: System, a: Act)
    requires OutboxInv(s)
    ensures OutboxInv(Do(s, a))
  {
    hide OutboxInv;
    if Enabled(s, a) {
      match a
      case Grow(more) => GrowKeeps(s, more);
      case Spawn(_, _, _, _) => StartKeeps(s, a);
      case Load(_) => StartKeeps(s, a);
      case Look(id) => LookKeeps(s, id);
      case Receive(id, reply) => ReceiveKeeps(s, id, reply);
      case Write(id) => WriteKeeps(s, id);
      case Crash(_) => EndKeeps(s, a);
      case Prune(_) => EndKeeps(s, a);
    }
  }

  lemma {:induction false} RunKeeps(s: System, acts: seq<Act>)
    requires OutboxInv(s)
    ensures OutboxInv(After(s, acts))
  {
    if acts != [] {
      RunKeeps(s, acts[..|acts| - 1]);
      StepKeeps(After(s, acts[..|acts| - 1]), acts[|acts| - 1]);
    }
  }

  // ---- Every run -----------------------------------------------------------------------------------

  lemma StartOk()
    ensures OutboxInv(START)
  {
  }

  function KeySet(events: seq<OutEvent>): set<string> {
    set i | 0 <= i < |events| :: events[i].Key()
  }

  lemma {:induction false} InOrderIsPrefix(events: seq<OutEvent>, ever: set<string>) returns (p: nat)
    requires InOrder(events, ever)
    ensures p <= |events| && ever == KeySet(events[..p])
    ensures forall i :: 0 <= i < |events| && events[i].Key() !in ever ==> p <= i
    ensures p < |events| ==> events[p].Key() !in ever
  {
    p := 0;
    while p < |events| && events[p].Key() in ever
      invariant p <= |events| && forall i :: 0 <= i < p ==> events[i].Key() in ever
    {
      p := p + 1;
    }
    forall k | k in ever ensures k in KeySet(events[..p]) {
      var i :| 0 <= i < |events| && events[i].Key() == k;
      assert events[..p][i].Key() == k;
    }
    forall k | k in KeySet(events[..p]) ensures k in ever {
      var i :| 0 <= i < p && events[..p][i].Key() == k;
      assert events[i].Key() in ever;
    }
  }

  ghost predicate NoPrune(acts: seq<Act>) {
    forall i :: 0 <= i < |acts| ==> !acts[i].Prune?
  }

  lemma {:induction false} NothingPruned(s: System, acts: seq<Act>)
    requires NoPrune(acts)
    ensures After(s, acts).pruned == s.pruned
  {
    if acts != [] {
      hide Enabled;
      NothingPruned(s, acts[..|acts| - 1]);
    }
  }

  /**
   * Under every interleaving of drains, growth, crashes and sweeps the keys ever settled are those of a prefix of
   * the event list; without sweeps the table itself holds exactly that prefix.
   */
  lemma SettledIsPrefix(acts: seq<Act>) returns (p: nat)
    ensures var s := After(START, acts);
      && p <= |s.events| && s.ever == KeySet(s.events[..p]) && (p < |s.events| ==> s.events[p].Key() !in s.ever)
      && (NoPrune(acts) ==> s.rows.Keys == KeySet(s.events[..p]))
  {
    hide InOrder;
    StartOk();
    RunKeeps(START, acts);
    var s := After(START, acts);
    p := InOrderIsPrefix(s.events, s.ever);
    if NoPrune(acts) { NothingPruned(START, acts); }
  }

  /** No event was ever posted before every earlier event had been settled. */
  lemma PostedInOrder(acts: seq<Act>, n: nat)
    requires n < |After(START, acts).posts|
    ensures var s := After(START, acts);
      exists i :: 0 <= i < |s.events| && s.events[i] == s.posts[n].event
               && forall j :: 0 <= j < i ==> s.events[j].Key() in s.posts[n].settledBefore
  {
    StartOk();
    RunKeeps(START, acts);
    var s := After(START, acts);
    assert SentInOrder(s.events, s.posts[n]);
    var i :| 0 <= i < |s.events| && s.events[i] == s.posts[n].event
          && DoneBefore(s.events, i, s.posts[n].settledBefore);
  }

  /**
   * A drain that stopped early reports a single pending key, all earlier events are settled, and unless another
   * drain has settled it since, it is the first unsettled event. A drain that got through left nothing unsettled.
   */
  lemma StoppedAtFirstUnsettled(acts: seq<Act>, id: nat)
    requires var s := After(START, acts); id in s.drainers && s.drainers[id].phase.Ended?
    ensures var s := After(START, acts);
      var d := s.drainers[id];
      if d.report.pending == [] then KeySet(d.events) <= s.ever && d.report.halted.None?
      else
        && d.at < |s.events| && d.report.pending == [s.events[d.at].Key()] && s.events[d.at].Key() !in d.settled
        && (forall i :: 0 <= i < d.at ==> s.events[i].Key() in s.ever)
        && (s.events[d.at].Key() !in s.ever ==> forall i :: 0 <= i < |s.events| && s.events[i].Key() !in s.ever ==>
              d.at <= i)
  {
    hide InOrder, RowsOk, SentInOrder;
    StartOk();
    RunKeeps(START, acts);
    var s := After(START, acts);
    var d := s.drainers[id];
    assert DrainerOk(s, d);
    assert forall i :: 0 <= i < d.at ==> d.events[i] == s.events[i] && d.events[i].Key() in s.ever;
  }

  /**
   * Every settled event was answered: 202, or a reply that condemns it, in which case it sits in the dead-letter
   * rows with the event itself. No event is dropped silently, whatever crashed or was swept.
   */
  lemma SettledIsJustified(acts: seq<Act>, k: string)
    requires k in After(START, acts).ever
    ensures var s := After(START, acts);
      || Was202(s.posts, k)
      || (k in s.rows && s.rows[k].DeadLettered? && s.rows[k].event.Key() == k
          && WasCondemned(s.posts, s.rows[k].event))
    ensures var s := After(START, acts);
      k in s.rows ==> if s.rows[k].Delivered? then Was202(s.posts, k)
                      else s.rows[k].event in s.events && WasCondemned(s.posts, s.rows[k].event)
  {
    hide InOrder, SentInOrder, DrainerOk, Was202, WasCondemned;
    StartOk();
    RunKeeps(START, acts);
  }

  // ---- Dead letters are permanent --------------------------------------------------------------------

  ghost predicate Buried(s: System, k: string, e: OutEvent) {
    k in s.rows && s.rows[k].DeadLettered? && s.rows[k].event == e
  }

  lemma StepKeepsBuried(s: System, a: Act, k: string, e: OutEvent)
    requires OutboxInv(s) && Buried(s, k, e)
    ensures Buried(Do(s, a), k, e)
  {
    hide InOrder, SentInOrder, PhaseOk, ReportOk, Was202, WasCondemned, NoDuplicates;
    if a.Write? && Enabled(s, a) {
      var d := s.drainers[a.id];
      var f := d.events[d.at];
      assert DrainerOk(s, d) && s.events[d.at] == f;
      if f.Key() == k {
        var i :| 0 <= i < |s.events| && s.events[i] == e;
        DistinctKeys(s.events, i, d.at);
      }
    }
  }

  /** Once dead-lettered, a key stays so with its event, through every later drain, concurrent settle and sweep. */
  lemma {:induction false} DeadLettersArePermanent(acts: seq<Act>, more: seq<Act>, k: string, e: OutEvent)
    requires Buried(After(START, acts), k, e)
    ensures Buried(After(START, acts + more), k, e)
    decreases |more|
  {
    hide OutboxInv, Do, Buried;
    if more == [] {
      assert acts + more == acts;
    } else {
      var n := |more| - 1;
      DeadLettersArePermanent(acts, more[..n], k, e);
      assert (acts + more)[..|acts| + n] == acts + more[..n];
      StartOk();
      RunKeeps(START, acts + more[..n]);
      StepKeepsBuried(After(START, acts + more[..n]), more[n], k, e);
    }
  }

  // ---- A sequential drain is a run -------------------------------------------------------------------

  /**
   * Only the drain `id` has moved; the rest of the system is as it was, except for rows it settled and posts it sent.
   */
  ghost predicate OnlyMoved(s: System, s': System, id: nat, d: Drainer) {
    && s'.events == s.events && s'.pruned == s.pruned && s'.drainers == s.drainers[id := d]
  }

  lemma {:induction false} AfterConcat(s: System, a: seq<Act>, b: seq<Act>)
    ensures After(s, a + b) == After(After(s, a), b)
    decreases |b|
  {
    hide Do;
    if b == [] {
      assert a + b == a;
    } else {
      AfterConcat(s, a, b[..|b| - 1]);
      assert (a + b)[..|a + b| - 1] == a + b[..|b| - 1];
    }
  }

  lemma AfterOne(s: System, a: Act, rest: seq<Act>)
    ensures After(s, [a] + rest) == After(Do(s, a), rest)
  {
    hide Do;
    AfterConcat(s, [a], rest);
    assert After(s, [a]) == Do(After(s, [a][..0]), a);
  }

  lemma ReceiveMoves(s: System, id: nat, reply: Reply)
    requires id in s.drainers && s.drainers[id].phase.Posting? && s.drainers[id].at < |s.drainers[id].events|
    ensures var s' := Do(s, Receive(id, reply));
      && OnlyMoved(s, s', id, OnReply(s.drainers[id], reply))
      && s'.rows == s.rows && s'.ever == s.ever && |s'.posts| == |s.posts| + 1
  {
    hide OnReply;
  }

  lemma {:induction false} TriesRun(s: System, id: nat, net: Network, n: nat) returns (acts: seq<Act>, d': Drainer)
    requires id in s.drainers && s.drainers[id].phase.Posting? && s.drainers[id].at < |s.drainers[id].events|
    ensures var d := s.drainers[id];
      var t := Tries(net, n, d.phase.attempt, d.retries);
      var s' := After(s, acts);
      && NoPrune(acts) && OnlyMoved(s, s', id, d') && s'.rows == s.rows && s'.ever == s.ever
      && |s'.posts| == |s.posts| + (t.next - n)
      && d' == (if t.response.None? then d.(phase := Failed) else OnResponse(d, d.phase.refreshed, t.response.value))
    decreases var d := s.drainers[id]; if d.retries > d.phase.attempt then d.retries - d.phase.attempt else 0
  {
    hide OnResponse, Do, After, NoPrune;
    var d := s.drainers[id];
    var a := Receive(id, net(n));
    var s1 := Do(s, a);
    ReceiveMoves(s, id, net(n));
    if Repeats(net(n), d.phase.attempt, d.retries) {
      var rest;
      rest, d' := TriesRun(s1, id, net, n + 1);
      PhaseIsForgotten(d, s1.drainers[id], d.phase.refreshed);
      AfterOne(s, a, rest);
      acts := [a] + rest;
      NoPruneMore(a, rest);
    } else {
      AfterOne(s, a, []);
      AfterNone(s1);
      acts := [a] + [];
      d' := s1.drainers[id];
      NoPruneMore(a, []);
    }
  }

  lemma NoPruneMore(a: Act, rest: seq<Act>)
    requires !a.Prune?
    ensures NoPrune(rest) ==> NoPrune([a] + rest)
    ensures rest == [] ==> NoPrune([a] + rest)
  {
  }

  lemma PhaseIsForgotten(d: Drainer, e: Drainer, refreshed: bool)
    requires d.at < |d.events| && e == d.(phase := e.phase)
    ensures forall r :: OnResponse(d, refreshed, r) == OnResponse(e, refreshed, r)
  {
  }

  lemma DeliverRun(s: System, id: nat, net: Network, n: nat) returns (acts: seq<Act>, d': Drainer)
    requires id in s.drainers && s.drainers[id].phase == Posting(0, false)
    requires s.drainers[id].at < |s.drainers[id].events|
    ensures var d := s.drainers[id];
      var x := Deliver(net, n, d.events[d.at].body.occurredAt, d.judge, d.retries);
      var s' := After(s, acts);
      && NoPrune(acts) && OnlyMoved(s, s', id, d') && s'.rows == s.rows && s'.ever == s.ever
      && |s'.posts| == |s.posts| + (x.next - n)
      && d' == (if x.outcome.None? then d.(phase := Failed) else OnOutcome(d, x.outcome.value))
  {
    hide OnOutcome, Do, Classify, After;
    var d := s.drainers[id];
    acts, d' := TriesRun(s, id, net, n);
    var t := Tries(net, n, 0, d.retries);
    if t.response.Some? && Classify(t.response.value, d.events[d.at].body.occurredAt, d.judge).action == Refresh {
      var s1 := After(s, acts);
      var rest;
      rest, d' := TriesRun(s1, id, net, t.next);
      AfterConcat(s, acts, rest);
      OutcomeForgets(d, d.(phase := Posting(0, true)));
      acts := acts + rest;
    }
  }

  lemma OutcomeForgets(d: Drainer, e: Drainer)
    requires d.at < |d.events| && e == d.(phase := e.phase)
    ensures forall o :: OnOutcome(d, o) == OnOutcome(e, o)
  {
  }

  /** What a drain leaves in the system, compared with what the sequential code computes. */
  ghost predicate DrainMatches(s: System, s': System, id: nat, x: Drained, y: Drained) {
    && id in s'.drainers && OnlyMoved(s, s', id, s'.drainers[id])
    && s'.rows == y.rows && |s'.posts| - |s.posts| == y.next - x.next
    && s'.drainers[id].report == y.report && s'.drainers[id].phase == (if y.raised then Failed else Ended)
  }

  lemma MatchesAfterMove(s: System, s1: System, s': System, id: nat, x: Drained, x1: Drained, y: Drained)
    requires id in s1.drainers && OnlyMoved(s, s1, id, s1.drainers[id]) && |s1.posts| - |s.posts| == x1.next - x.next
    requires DrainMatches(s1, s', id, x1, y)
    ensures DrainMatches(s, s', id, x, y)
  {
  }

  ghost predicate AtLook(s: System, id: nat, x: Drained) {
    && id in s.drainers && s.drainers[id].phase.Looking? && s.drainers[id].at <= |s.drainers[id].events|
    && s.rows == x.rows && s.drainers[id].report == x.report && !x.raised
  }

  lemma LookMoves(s: System, id: nat)
    requires Enabled(s, Look(id))
    ensures OnlyMoved(s, Do(s, Look(id)), id, OnLook(s.drainers[id]))
    ensures Do(s, Look(id)).rows == s.rows && Do(s, Look(id)).posts == s.posts
  {
  }

  lemma AfterNone(s: System)
    ensures After(s, []) == s
  {
  }

  lemma EndedMatches(s: System, s1: System, id: nat, x: Drained)
    requires AtLook(s, id, x) && s1.rows == s.rows && s1.posts == s.posts
    requires OnlyMoved(s, s1, id, s.drainers[id].(phase := Ended))
    ensures DrainMatches(s, s1, id, x, x)
  {
  }

  lemma WriteMoves(s: System, id: nat, d: Drainer, o: Outcome, x: Drained, next: nat)
    requires d.at < |d.events| && d.report == x.report && s.rows == x.rows && !x.raised && x.next <= next
    requires id in s.drainers && s.drainers[id] == OnOutcome(d, o) && (o.action == Advance || o.action == DeadLetter)
    ensures var s' := Do(s, Write(id));
      var x' := Recorded(x, d.events[d.at], o, next);
      && id in s'.drainers && OnlyMoved(s, s', id, s'.drainers[id]) && AtLook(s', id, x') && s'.posts == s.posts
      && s'.drainers[id] == d.(at := d.at + 1, phase := Looking, report := x'.report)
  {
  }

  lemma StopMatches(s: System, s1: System, id: nat, o: Outcome, x: Drained, next: nat)
    requires id in s.drainers && s.drainers[id].at < |s.drainers[id].events| && s.drainers[id].report == x.report
    requires s1.rows == x.rows && !x.raised && x.next <= next && |s1.posts| == |s.posts| + (next - x.next)
    requires OnlyMoved(s, s1, id, OnOutcome(s.drainers[id], o)) && o.action != Advance && o.action != DeadLetter
    ensures var d := s.drainers[id]; DrainMatches(s, s1, id, x, Recorded(x, d.events[d.at], o, next))
  {
  }

  lemma RaiseMatches(s: System, s1: System, id: nat, x: Drained, next: nat)
    requires id in s.drainers && s.drainers[id].report == x.report
    requires s1.rows == x.rows && x.next <= next && |s1.posts| == |s.posts| + (next - x.next)
    requires OnlyMoved(s, s1, id, s.drainers[id].(phase := Failed))
    ensures DrainMatches(s, s1, id, x, x.(next := next, raised := true))
  {
  }

  /** The turn of the sequential loop for an event that is not settled, step by step in the system. */
  lemma {:induction false} EventRun(s: System, id: nat, net: Network, x: Drained) returns (acts: seq<Act>)
    requires id in s.drainers && s.drainers[id].phase == Posting(0, false)
    requires s.drainers[id].at < |s.drainers[id].events|
    requires s.drainers[id].events[s.drainers[id].at].Key() !in s.drainers[id].settled
    requires s.rows == x.rows && s.drainers[id].report == x.report && !x.raised
    ensures var d := s.drainers[id];
      && NoPrune(acts)
      && DrainMatches(s, After(s, acts), id, x, DrainFrom(net, d.events, d.at, d.settled, d.judge, d.retries, x))
    decreases |s.drainers[id].events| - s.drainers[id].at, 0
  {
    hide Do, After, DrainMatches, OnOutcome, Deliver;
    var d := s.drainers[id];
    var e := d.events[d.at];
    var v := Deliver(net, x.next, e.body.occurredAt, d.judge, d.retries);
    var d1;
    acts, d1 := DeliverRun(s, id, net, x.next);
    var s1 := After(s, acts);
    if v.outcome.None? {
      RaiseMatches(s, s1, id, x, v.next);
    } else {
      var o := v.outcome.value;
      var x' := Recorded(x, e, o, v.next);
      if o.action == Advance || o.action == DeadLetter {
        WriteMoves(s1, id, d, o, x, v.next);
        var s2 := Do(s1, Write(id));
        var rest := DrainRun(s2, id, net, x');
        AfterOne(s1, Write(id), rest);
        AfterConcat(s, acts, [Write(id)] + rest);
        acts := acts + ([Write(id)] + rest);
        MatchesAfterMove(s, s2, After(s, acts), id, x, x',
                         DrainFrom(net, d.events, d.at + 1, d.settled, d.judge, d.retries, x'));
      } else {
        StopMatches(s, s1, id, o, x, v.next);
      }
    }
  }

  lemma {:induction false} DrainRun(s: System, id: nat, net: Network, x: Drained) returns (acts: seq<Act>)
    requires AtLook(s, id, x)
    ensures var d := s.drainers[id];
      && NoPrune(acts)
      && DrainMatches(s, After(s, acts), id, x, DrainFrom(net, d.events, d.at, d.settled, d.judge, d.retries, x))
    decreases |s.drainers[id].events| - s.drainers[id].at, 1
  {
    hide Do, After, DrainMatches, Deliver;
    var d := s.drainers[id];
    var s1 := Do(s, Look(id));
    LookMoves(s, id);
    if d.at == |d.events| {
      AfterOne(s, Look(id), []);
      AfterNone(s1);
      acts := [Look(id)] + [];
      EndedMatches(s, s1, id, x);
    } else if d.events[d.at].Key() in d.settled {
      var rest := DrainRun(s1, id, net, x);
      AfterOne(s, Look(id), rest);
      acts := [Look(id)] + rest;
      MatchesAfterMove(s, s1, After(s, acts), id, x, x,
                       DrainFrom(net, d.events, d.at, d.settled, d.judge, d.retries, x));
    } else {
      var rest := EventRun(s1, id, net, x);
      AfterOne(s, Look(id), rest);
      acts := [Look(id)] + rest;
      MatchesAfterMove(s, s1, After(s, acts), id, x, x,
                       DrainFrom(net, d.events, d.at, d.settled, d.judge, d.retries, x));
    }
  }

  /**
   * The sequential code refines the system: called at any reachable moment, `drain` computes what a spawn, a load
   * and the steps of a single drainer lead to, with as many POSTs.
   */
  lemma DrainIsARun(s: System, id: nat, net: Network, n: nat, judge: Judge, retries: int) returns (acts: seq<Act>)
    requires id !in s.drainers
    ensures var x := Drained(s.rows, EMPTY_REPORT, false, n);
      && NoPrune(acts)
      && DrainMatches(s, After(s, acts), id, x, DrainFrom(net, s.events, 0, s.rows.Keys, judge, retries, x))
  {
    hide After, DrainMatches;
    var x := Drained(s.rows, EMPTY_REPORT, false, n);
    var spawn := Spawn(id, |s.events|, judge, retries);
    var s1 := Do(s, spawn);
    assert s.events[..|s.events|] == s.events;
    var s2 := Do(s1, Load(id));
    assert s2.drainers == s.drainers[id := s2.drainers[id]];
    var rest := DrainRun(s2, id, net, x);
    AfterOne(s1, Load(id), rest);
    AfterOne(s, spawn, [Load(id)] + rest);
    acts := [spawn] + ([Load(id)] + rest);
    MatchesAfterMove(s, s2, After(s, acts), id, x, x, DrainFrom(net, s.events, 0, s.rows.Keys, judge, retries, x));
  }
}
