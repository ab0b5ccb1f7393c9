/** The projection of a ledger's log into outbound execution events, and their idempotency keys. */
module Projection {
  import opened Prelude
  import opened HashChain
  import opened Topo
  import opened Ledgers
  import opened RunLoop
  import opened Steps
  import opened Invariants
  import opened Histories

  datatype OutType = Started | Changed | Done | TestPassed | TestFailed | Stopped | Created {
    function Text(): string {
      match this
      case Started => "task.started"
      case Changed => "file.changed"
      case Done => "task.completed"
      case TestPassed => "test.passed"
      case TestFailed => "test.failed"
      case Stopped => "task.blocked"
      case Created => "artifact.created"
    }
  }

  /** The eight identity fields a payload supplies; a missing one is None. */
  datatype Identity = Identity(orgId: Option<string>, projectId: Option<string>, iplanId: Option<string>,
                               planVersionId: Option<string>, runId: string, taskId: Option<string>,
                               stepId: Option<string>, executorId: Option<string>)

  /** An outbound event before it is signed. The received time repeats the time of the event. */
  datatype OutBody = OutBody(identity: Identity, traceId: string, eventId: string, key: string, eventType: OutType,
                             occurredAt: string, receivedAt: string, status: string, refs: seq<string>)
  datatype OutEvent = OutEvent(body: OutBody, keyId: string, signature: string)
  {
    function Key(): string { body.key }
  }

  /** On whose behalf events go out: the identity, the short digest behind ids, and the signer with its key. */
  datatype Sender = Sender(identity: Identity, digest: string -> string, sign: OutBody -> string, keyId: string)

  /** `_ident`: run, then chain hash, then event type. */
  function KeyOf(runId: string, hash: string, eventType: string): string {
    (runId + (":" + hash)) + (":" + eventType)
  }

  /** `_build_event`: the event id is derived from the key, the trace id from what all events of one record share. */
  function Out(sender: Sender, r: LogEvent, eventType: OutType, status: string, refs: seq<string>): OutEvent {
    var runId := sender.identity.runId;
    var key := KeyOf(runId, r.hash, eventType.Text());
    var body := OutBody(sender.identity, "TR-" + sender.digest(runId + (":" + r.hash)), "EV-" + sender.digest(key), key,
                        eventType, r.event.at, r.event.at, status, refs);
    OutEvent(body, sender.keyId, sender.sign(body))
  }

  function TaskPassed(tasks: map<string, TaskEntry>, subject: Option<string>): bool {
    subject.Some? && subject.value in tasks && tasks[subject.value].passed
  }

  /** The events one log record fans out to. Undo and resolution records have no outbound counterpart. */
  function Fan(tasks: map<string, TaskEntry>, sender: Sender, r: LogEvent): seq<OutEvent> {
    match r.event.kind
    case TaskStarted => [Out(sender, r, Started, "running", r.event.paths)]
    case FileEdited => [Out(sender, r, Changed, "running", r.event.paths)]
    case TaskCompleted =>
      [Out(sender, r, Done, "succeeded", r.event.paths),
       Out(sender, r, if TaskPassed(tasks, r.event.subject) then TestPassed else TestFailed, "running", [])]
    case TaskBlocked => [Out(sender, r, Stopped, "blocked", r.event.paths)]
    case Commit => [Out(sender, r, Created, "running", r.event.paths)]
    case Compensation => []
    case Resolution => []
    case Custom(_) => []
  }

  function Project(tasks: map<string, TaskEntry>, sender: Sender, log: seq<LogEvent>): seq<OutEvent> {
    if log == [] then []
    else Project(tasks, sender, log[..|log| - 1]) + Fan(tasks, sender, log[|log| - 1])
  }

  /** `to_execution_events`: one pass over the log. */
  method ToExecutionEvents(tasks: map<string, TaskEntry>, sender: Sender, log: seq<LogEvent>)
    returns (events: seq<OutEvent>)
    ensures events == Project(tasks, sender, log)
  {
    events := [];
    for i := 0 to |log|
      invariant events == Project(tasks, sender, log[..i])
    {
      var r := log[i];
      assert log[..i + 1][..i] == log[..i];
      events := events + Fan(tasks, sender, r);
    }
    assert log[..|log|] == log;
  }

  // ---- Stability -----------------------------------------------------------------------------------

  lemma {:induction false} ProjectPrefix(tasks: map<string, TaskEntry>, sender: Sender, log: seq<LogEvent>,
                                         more: seq<LogEvent>)
    ensures Project(tasks, sender, log) <= Project(tasks, sender, log + more)
    decreases |more|
  {
    hide Fan;
    if more == [] {
      assert log + more == log;
    } else {
      var n := |more| - 1;
      ProjectPrefix(tasks, sender, log, more[..n]);
      assert (log + more)[..|log| + n] == log + more[..n];
    }
  }

  lemma {:induction false} ProjectAgrees(a: map<string, TaskEntry>, b: map<string, TaskEntry>, sender: Sender,
                                         log: seq<LogEvent>)
    requires forall i :: 0 <= i < |log| && log[i].event.kind == TaskCompleted ==>
               TaskPassed(a, log[i].event.subject) == TaskPassed(b, log[i].event.subject)
    ensures Project(a, sender, log) == Project(b, sender, log)
  {
    if log != [] {
      ProjectAgrees(a, b, sender, log[..|log| - 1]);
    }
  }

  ghost function Projected(h: Hash, sender: Sender, l: Ledger): seq<OutEvent> {
    Project(l.tasks, sender, Seal(h, l.events))
  }

  lemma EvolutionKeepsProjection(h: Hash, sender: Sender, s: State, s': State)
    requires Once(s) && Evolves(s, s')
    ensures Projected(h, sender, s.l) <= Projected(h, sender, s'.l)
  {
    hide Project, Seal, CompletedIn;
    var E, E' := s.l.events, s'.l.events;
    var log, log' := Seal(h, E), Seal(h, E');
    var more := E'[|E|..];
    assert E' == E + more;
    SealPrefix(h, E, more);
    assert log' == log + log'[|log|..];
    SealKeepsEvents(h, E);
    forall i | 0 <= i < |log| && log[i].event.kind == TaskCompleted
      ensures TaskPassed(s.l.tasks, log[i].event.subject) == TaskPassed(s'.l.tasks, log[i].event.subject)
    {
      var t := log[i].event.subject.value;
      CompletesHere(E, i, t);
    }
    ProjectAgrees(s.l.tasks, s'.l.tasks, sender, log);
    ProjectPrefix(s'.l.tasks, sender, log, log'[|log|..]);
  }

  lemma CompletesHere(E: seq<Event>, i: nat, t: string)
    requires i < |E| && Completes(E[i], t)
    ensures CompletedIn(E, t)
  {
  }

  /**
   * What was projected stays projected: after any further operations the old outbound events, including each
   * test verdict read from the current task entries, are a prefix of the new ones.
   */
  lemma ProjectionIsStable(h: Hash, sender: Sender, host: Host, m: Manifest, w: World, cfg: Config, ops: seq<Op>,
                           more: seq<Op>)
    requires ClockOk(host)
    ensures Projected(h, sender, History(host, m, w, cfg, ops).l)
            <= Projected(h, sender, History(host, m, w, cfg, ops + more).l)
  {
    hide Run, Evolves, Once;
    var g := GraphOf(m.tasks);
    HistoryIsGood(host, m, w, cfg, ops);
    ApplyAllConcat(host, g, Run(host, m, w, cfg), ops, more);
    ApplyAllEffect(host, g, History(host, m, w, cfg, ops), more);
    EvolutionKeepsProjection(h, sender, History(host, m, w, cfg, ops), History(host, m, w, cfg, ops + more));
  }

  // ---- Keys ----------------------------------------------------------------------------------------

  /** The part behind the last ':' can be read back. */
  lemma {:induction false} SplitLast(x: string, a: string, y: string, b: string)
    requires ':' !in a && ':' !in b && x + (":" + a) == y + (":" + b)
    ensures x == y && a == b
    decreases |a|
  {
    var s, t := x + (":" + a), y + (":" + b);
    if a == "" || b == "" {
      assert s[|s| - 1] == t[|t| - 1];
      assert a == "" ==> s[|s| - 1] == ':';
      assert b == "" ==> t[|t| - 1] == ':';
      assert a == b == "";
      assert s[..|s| - 1] == x && t[..|t| - 1] == y;
    } else {
      var a', b' := a[..|a| - 1], b[..|b| - 1];
      assert s[|s| - 1] == a[|a| - 1] && t[|t| - 1] == b[|b| - 1];
      assert s[..|s| - 1] == x + (":" + a') && t[..|t| - 1] == y + (":" + b');
      SplitLast(x, a', y, b');
      assert a == a' + [a[|a| - 1]] && b == b' + [b[|b| - 1]];
    }
  }

  lemma KeyInjective(runId: string, hash: string, t: OutType, hash': string, t': OutType)
    requires KeyOf(runId, hash, t.Text()) == KeyOf(runId, hash', t'.Text())
    ensures hash == hash' && t.Text() == t'.Text()
  {
    hide OutType.Text;
    TypeHasNoColon(t);
    TypeHasNoColon(t');
    SplitLast(runId + (":" + hash), t.Text(), runId + (":" + hash'), t'.Text());
    var p := runId + ":";
    assert runId + (":" + hash) == p + hash && runId + (":" + hash') == p + hash';
    assert (p + hash)[|p|..] == hash && (p + hash')[|p|..] == hash';
  }

  function Keys(events: seq<OutEvent>): seq<string> {
    seq(|events|, i requires 0 <= i < |events| => events[i].Key())
  }

  lemma TypeHasNoColon(t: OutType)
    ensures ':' !in t.Text()
  {
  }

  /** The texts differ in their lengths or in one of three characters. */
  lemma TextIsInjective(t: OutType, u: OutType)
    requires t.Text() == u.Text()
    ensures t == u
  {
    TextShape(t);
    TextShape(u);
  }

  lemma TextShape(t: OutType)
    ensures var x := t.Text();
      |x| >= 11 &&
      match t {
        case Started => |x| == 12 && x[1] == 'a' && x[5] == 's'
        case Changed => |x| == 12 && x[1] == 'i'
        case Done => |x| == 14
        case TestPassed => |x| == 11 && x[5] == 'p'
        case TestFailed => |x| == 11 && x[5] == 'f'
        case Stopped => |x| == 12 && x[1] == 'a' && x[5] == 'b'
        case Created => |x| == 16
      }
  {
  }

  /** Each key of a record's fan-out names the record's hash and its own type, and no type occurs twice. */
  lemma FanKeys(tasks: map<string, TaskEntry>, sender: Sender, r: LogEvent)
    ensures var f := Fan(tasks, sender, r);
      && (forall i :: 0 <= i < |f| ==> f[i].Key() == KeyOf(sender.identity.runId, r.hash, f[i].body.eventType.Text()))
      && (forall i, j :: 0 <= i < j < |f| ==> f[i].body.eventType != f[j].body.eventType)
  {
    hide OutType.Text, KeyOf;
  }

  /** Records of different kinds fan out to different types; records of one kind agree on the first. */
  lemma FanTypes(tasks: map<string, TaskEntry>, sender: Sender, r: LogEvent, q: LogEvent)
    ensures var f, g := Fan(tasks, sender, r), Fan(tasks, sender, q);
      && (r.event.kind != q.event.kind ==>
            forall i, j :: 0 <= i < |f| && 0 <= j < |g| ==> f[i].body.eventType != g[j].body.eventType)
      && (r.event.kind == q.event.kind ==> |f| == |g| && (f != [] ==> f[0].body.eventType == g[0].body.eventType))
  {
    hide OutType.Text, KeyOf;
  }

  /** Every projected event comes out of the fan-out of some record of the log. */
  lemma {:induction false} KeyNamesRecord(tasks: map<string, TaskEntry>, sender: Sender, log: seq<LogEvent>, i: nat)
    returns (k: nat, n: nat)
    requires i < |Project(tasks, sender, log)|
    ensures k < |log| && n < |Fan(tasks, sender, log[k])|
    ensures Project(tasks, sender, log)[i] == Fan(tasks, sender, log[k])[n]
  {
    hide Fan;
    var m := |log| - 1;
    var before := Project(tasks, sender, log[..m]);
    if i < |before| {
      k, n := KeyNamesRecord(tasks, sender, log[..m], i);
    } else {
      k, n := m, i - |before|;
    }
  }

  lemma VerifiedPrefix(h: Hash, log: seq<LogEvent>, n: nat)
    requires Verified(h, log) && n <= |log|
    ensures Verified(h, log[..n])
  {
    forall i: nat | i < n ensures VerifiedAt(h, log[..n], i) {
      assert VerifiedAt(h, log, i) && PreviousHash(log[..n], i) == PreviousHash(log, i);
    }
  }

  /** Two records of one reported kind whose hashed texts collide. */
  predicate Confused(h: Hash, tasks: map<string, TaskEntry>, sender: Sender, log: seq<LogEvent>, i: nat, j: nat)
    requires i < |log| && j < |log|
  {
    Collide(h, log, i, log, j) && log[i].event.kind == log[j].event.kind && Fan(tasks, sender, log[i]) != []
  }

  /** Two events of two records share a key only if the records are confused. */
  lemma SharedKey(h: Hash, tasks: map<string, TaskEntry>, sender: Sender, log: seq<LogEvent>, k: nat, l: nat, n: nat,
                  m: nat)
    requires Verified(h, log) && k < l < |log|
    requires n < |Fan(tasks, sender, log[k])| && m < |Fan(tasks, sender, log[l])|
    requires Fan(tasks, sender, log[k])[n].Key() == Fan(tasks, sender, log[l])[m].Key()
    ensures Confused(h, tasks, sender, log, k, l)
  {
    hide Fan, KeyOf, OutType.Text, Verified, Collide;
    var e, f := Fan(tasks, sender, log[k])[n], Fan(tasks, sender, log[l])[m];
    FanKeys(tasks, sender, log[k]);
    FanKeys(tasks, sender, log[l]);
    KeyInjective(sender.identity.runId, log[k].hash, e.body.eventType, log[l].hash, f.body.eventType);
    TextIsInjective(e.body.eventType, f.body.eventType);
    FanTypes(tasks, sender, log[k], log[l]);
    HashesAreDistinct(h, log, k, l);
  }

  lemma SameFanNoClash(tasks: map<string, TaskEntry>, sender: Sender, r: LogEvent, n: nat, m: nat)
    requires n < m < |Fan(tasks, sender, r)|
    ensures Fan(tasks, sender, r)[n].Key() != Fan(tasks, sender, r)[m].Key()
  {
    hide Fan, KeyOf, OutType.Text;
    FanKeys(tasks, sender, r);
    var e, f := Fan(tasks, sender, r)[n], Fan(tasks, sender, r)[m];
    if e.Key() == f.Key() {
      KeyInjective(sender.identity.runId, r.hash, e.body.eventType, r.hash, f.body.eventType);
      TextIsInjective(e.body.eventType, f.body.eventType);
    }
  }

  ghost predicate NoneConfused(h: Hash, tasks: map<string, TaskEntry>, sender: Sender, log: seq<LogEvent>) {
    forall i: nat, j: nat :: i < j < |log| ==> !Confused(h, tasks, sender, log, i, j)
  }

  lemma ConfusedInPrefix(h: Hash, tasks: map<string, TaskEntry>, sender: Sender, log: seq<LogEvent>, n: nat, i: nat,
                         j: nat)
    requires i < n <= |log| && j < n
    ensures Confused(h, tasks, sender, log[..n], i, j) <==> Confused(h, tasks, sender, log, i, j)
  {
    hide Fan, Payload;
    assert PreviousHash(log[..n], i) == PreviousHash(log, i) && PreviousHash(log[..n], j) == PreviousHash(log, j);
  }

  lemma PrefixNotConfused(h: Hash, tasks: map<string, TaskEntry>, sender: Sender, log: seq<LogEvent>, n: nat)
    requires NoneConfused(h, tasks, sender, log) && n <= |log|
    ensures NoneConfused(h, tasks, sender, log[..n])
  {
    hide Confused;
    forall i: nat, j: nat | i < j < n ensures !Confused(h, tasks, sender, log[..n], i, j) {
      ConfusedInPrefix(h, tasks, sender, log, n, i, j);
    }
  }

  /** An event of an earlier record never shares its key with one of the last record. */
  lemma LastIsNew(h: Hash, tasks: map<string, TaskEntry>, sender: Sender, log: seq<LogEvent>, i: nat, m: nat)
    requires Verified(h, log) && NoneConfused(h, tasks, sender, log) && log != []
    requires i < |Project(tasks, sender, log[..|log| - 1])| && m < |Fan(tasks, sender, log[|log| - 1])|
    ensures Project(tasks, sender, log[..|log| - 1])[i].Key() != Fan(tasks, sender, log[|log| - 1])[m].Key()
  {
    hide Verified, Fan, Confused, Project;
    var n := |log| - 1;
    var k, l := KeyNamesRecord(tasks, sender, log[..n], i);
    if Project(tasks, sender, log[..n])[i].Key() == Fan(tasks, sender, log[n])[m].Key() {
      SharedKey(h, tasks, sender, log, k, n, l, m);
    }
  }

  lemma FanKeepsDistinct(h: Hash, tasks: map<string, TaskEntry>, sender: Sender, log: seq<LogEvent>)
    requires Verified(h, log) && NoneConfused(h, tasks, sender, log) && log != []
    requires NoDuplicates(Keys(Project(tasks, sender, log[..|log| - 1])))
    ensures NoDuplicates(Keys(Project(tasks, sender, log)))
  {
    hide Verified, Fan, NoneConfused, OutEvent.Key;
    var n := |log| - 1;
    var before, fan := Project(tasks, sender, log[..n]), Fan(tasks, sender, log[n]);
    var all := before + fan;
    assert Project(tasks, sender, log) == all;
    hide Project;
    forall i, j | 0 <= i < j < |all| ensures all[i].Key() != all[j].Key() {
      if j < |before| {
        assert Keys(before)[i] != Keys(before)[j];
      } else if i < |before| {
        LastIsNew(h, tasks, sender, log, i, j - |before|);
      } else {
        SameFanNoClash(tasks, sender, log[n], i - |before|, j - |before|);
      }
    }
  }

  lemma {:induction false} NoneConfusedMeansDistinct(h: Hash, tasks: map<string, TaskEntry>, sender: Sender,
                                                     log: seq<LogEvent>)
    requires Verified(h, log) && NoneConfused(h, tasks, sender, log)
    ensures NoDuplicates(Keys(Project(tasks, sender, log)))
  {
    if log != [] {
      hide Verified, Fan, NoneConfused;
      var n := |log| - 1;
      VerifiedPrefix(h, log, n);
      PrefixNotConfused(h, tasks, sender, log, n);
      NoneConfusedMeansDistinct(h, tasks, sender, log[..n]);
      FanKeepsDistinct(h, tasks, sender, log);
    }
  }

  /** Where the fan-out of a record starts in the projection. */
  lemma FanStarts(tasks: map<string, TaskEntry>, sender: Sender, log: seq<LogEvent>, i: nat)
    requires i < |log|
    ensures Project(tasks, sender, log[..i]) + Fan(tasks, sender, log[i]) <= Project(tasks, sender, log)
  {
    hide Fan;
    assert log[..i + 1][..i] == log[..i] && log == log[..i + 1] + log[i + 1..];
    ProjectPrefix(tasks, sender, log[..i + 1], log[i + 1..]);
  }

  lemma ConfusedClash(h: Hash, tasks: map<string, TaskEntry>, sender: Sender, log: seq<LogEvent>, i: nat, j: nat)
    requires Verified(h, log) && i < j < |log| && Confused(h, tasks, sender, log, i, j)
    ensures !NoDuplicates(Keys(Project(tasks, sender, log)))
  {
    hide Fan, KeyOf, OutType.Text, Verified, Collide;
    HashesAreDistinct(h, log, i, j);
    FanKeys(tasks, sender, log[i]);
    FanKeys(tasks, sender, log[j]);
    FanTypes(tasks, sender, log[i], log[j]);
    FanStarts(tasks, sender, log, i);
    FanStarts(tasks, sender, log, j);
    FanStarts(tasks, sender, log[..j], i);
    assert log[..j][..i] == log[..i];
    var all := Project(tasks, sender, log);
    var x, y := |Project(tasks, sender, log[..i])|, |Project(tasks, sender, log[..j])|;
    assert all[x] == Fan(tasks, sender, log[i])[0] && all[y] == Fan(tasks, sender, log[j])[0];
    assert Keys(all)[x] == Keys(all)[y];
  }

  /**
   * The idempotency keys of a verified log are pairwise distinct if and only if no two records of one reported kind
   * hash different payloads to the same value.
   */
  lemma KeysAreDistinct(h: Hash, tasks: map<string, TaskEntry>, sender: Sender, log: seq<LogEvent>)
    requires Verified(h, log)
    ensures NoDuplicates(Keys(Project(tasks, sender, log))) <==> NoneConfused(h, tasks, sender, log)
  {
    hide Verified, Confused, NoDuplicates;
    if NoneConfused(h, tasks, sender, log) {
      NoneConfusedMeansDistinct(h, tasks, sender, log);
    } else {
      var i: nat, j: nat :| i < j < |log| && Confused(h, tasks, sender, log, i, j);
      ConfusedClash(h, tasks, sender, log, i, j);
    }
  }

  /** All events of one record carry one trace id, and an event id is a function of the key alone. */
  lemma FanSharesTrace(tasks: map<string, TaskEntry>, sender: Sender, r: LogEvent)
    ensures var f := Fan(tasks, sender, r);
      && (forall i, j :: 0 <= i < |f| && 0 <= j < |f| ==> f[i].body.traceId == f[j].body.traceId)
      && (forall i :: 0 <= i < |f| ==> f[i].body.eventId == "EV-" + sender.digest(f[i].Key()))
      && (forall i :: 0 <= i < |f| ==>
            f[i].body.identity == sender.identity && f[i].signature == sender.sign(f[i].body))
  {
    hide OutType.Text, KeyOf;
  }
}
