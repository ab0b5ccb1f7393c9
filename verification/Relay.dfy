/** Delivering one event: the response classifier, the bounded retry of the client, and one sequential drain. */
module Relay {
  import opened Prelude
  import opened Projection

  // ---- Classifier ----------------------------------------------------------------------------------

  datatype Body = Body(reason: Option<string>, rejectCode: Option<string>, code: Option<string>)
  datatype Response = Response(status: int, body: Body)

  datatype Action = Advance | TryLater | DeadLetter | Halt | Refresh
  datatype Reason =
    | Accepted | Unauthorized | ServerError(status: int) | Integrity(name: string) | FarStale(age: real) | WithinWindow
    | ScopeRejected | Unhandled(status: int, code: Option<string>) | RefreshFailed
  datatype Outcome = Outcome(action: Action, reason: Reason)

  /** How one drain judges staleness: its `now` as a function from timestamps to ages, None for unreadable ones. */
  datatype Judge = Judge(age: string -> Option<real>, maxAge: int)

  predicate Truthy(text: Option<string>) { text.Some? && text.value != "" }

  /** The machine code of a reject: the first non-empty field, else whatever the last one holds. */
  function Code(b: Body): Option<string> {
    if Truthy(b.reason) then b.reason else if Truthy(b.rejectCode) then b.rejectCode else b.code
  }

  const BAD_SIGNATURE := Some("invalid_signature")
  const BAD_SCHEMA := Some("schema_invalid")
  const SKEW := Some("timestamp_skew")

  predicate TooOld(judge: Judge, occurredAt: string) {
    var age := judge.age(occurredAt);
    age.Some? && age.value > judge.maxAge as real
  }

  /** The two grounds for giving an event up: a stale skew reject, or a 403 that names no integrity or skew code. */
  predicate Condemned(r: Response, occurredAt: string, judge: Judge) {
    && r.status < 500 && r.status !in {202, 401}
    && (|| (Code(r.body) == SKEW && TooOld(judge, occurredAt))
        || (r.status == 403 && Code(r.body) !in {BAD_SIGNATURE, BAD_SCHEMA, SKEW}))
  }

  /** Rejects that stop the whole drain: a broken event, whatever the status, or an answer nobody planned for. */
  predicate Alarming(r: Response) {
    && r.status < 500 && r.status !in {202, 401}
    && (Code(r.body) in {BAD_SIGNATURE, BAD_SCHEMA} || (r.status != 403 && Code(r.body) != SKEW))
  }

  /** Answers that leave an event for the next drain: a server error, or a skew that is not stale. */
  predicate Transient(r: Response, occurredAt: string, judge: Judge) {
    r.status >= 500 || (r.status !in {202, 401} && Code(r.body) == SKEW && !TooOld(judge, occurredAt))
  }

  lemma SkewIsNotIntegrity()
    ensures SKEW != BAD_SIGNATURE && SKEW != BAD_SCHEMA
  {
    assert "timestamp_skew"[0] == 't';
  }

  /**
   * `classify`. Only a 202 counts as delivered; an event is given up exactly when it is condemned; a server error
   * is retried whatever code its body carries, and so is a skew that is not stale.
   */
  function Classify(r: Response, occurredAt: string, judge: Judge): (o: Outcome)
    ensures o.action == Advance <==> r.status == 202
    ensures o.action == Refresh <==> r.status == 401
    ensures o.action == DeadLetter <==> Condemned(r, occurredAt, judge)
    ensures o.action == Halt <==> Alarming(r)
    ensures o.action == TryLater <==> Transient(r, occurredAt, judge)
  {
    SkewIsNotIntegrity();
    var code := Code(r.body);
    if r.status == 202 then Outcome(Advance, Accepted)
    else if r.status == 401 then Outcome(Refresh, Unauthorized)
    else if r.status >= 500 then Outcome(TryLater, ServerError(r.status))
    else if code == BAD_SIGNATURE || code == BAD_SCHEMA then Outcome(Halt, Integrity(code.value))
    else if code == SKEW then
      if TooOld(judge, occurredAt) then Outcome(DeadLetter, FarStale(judge.age(occurredAt).value))
      else Outcome(TryLater, WithinWindow)
    else if r.status == 403 then Outcome(DeadLetter, ScopeRejected)
    else Outcome(Halt, Unhandled(r.status, code))
  }

  predicate Blank(text: Option<string>) { text == None || text == Some("") }

  /** The body names this code: in `reason`, or behind a blank `reason` in `reject_code`, or behind both in `code`. */
  ghost predicate Names(b: Body, text: string) {
    || b.reason == Some(text)
    || (Blank(b.reason) && b.rejectCode == Some(text))
    || (Blank(b.reason) && Blank(b.rejectCode) && b.code == Some(text))
  }

  /** What becomes of a reject below 500, by the code its body names; nothing the later fields hold matters. */
  ghost predicate RejectedAs(r: Response, occurredAt: string, judge: Judge, o: Outcome) {
    var age := judge.age(occurredAt);
    if Names(r.body, "invalid_signature") then o == Outcome(Halt, Integrity("invalid_signature"))
    else if Names(r.body, "schema_invalid") then o == Outcome(Halt, Integrity("schema_invalid"))
    else if Names(r.body, "timestamp_skew") then
      if age.Some? && age.value > judge.maxAge as real then o == Outcome(DeadLetter, FarStale(age.value))
      else o == Outcome(TryLater, WithinWindow)
    else if r.status == 403 then o == Outcome(DeadLetter, ScopeRejected)
    else o.action == Halt && o.reason.Unhandled? && o.reason.status == r.status
  }

  lemma CodeIsNamed(b: Body, text: string)
    requires text != ""
    ensures Code(b) == Some(text) <==> Names(b, text)
  {
  }

  /** The whole table, on the status and the three body fields. */
  lemma ClassifyOnFields(r: Response, occurredAt: string, judge: Judge)
    ensures var o := Classify(r, occurredAt, judge);
      if r.status == 202 then o == Outcome(Advance, Accepted)
      else if r.status == 401 then o == Outcome(Refresh, Unauthorized)
      else if r.status >= 500 then o == Outcome(TryLater, ServerError(r.status))
      else RejectedAs(r, occurredAt, judge, o)
  {
    CodeIsNamed(r.body, "invalid_signature");
    CodeIsNamed(r.body, "schema_invalid");
    CodeIsNamed(r.body, "timestamp_skew");
    hide Code, Names;
  }

  // ---- Client --------------------------------------------------------------------------------------

  /** What one POST meets: no connection, or a response. */
  datatype Reply = Unreachable | Answered(response: Response)

  /** The n-th POST of the process is answered by `net(n)`. */
  type Network = nat -> Reply

  /** The final response, or None for the transport error raised once the retries are used up. */
  datatype Tried = Tried(response: Option<Response>, next: nat)

  predicate Repeats(reply: Reply, attempt: nat, retries: int) {
    attempt < retries && (reply.Unreachable? || reply.response.status >= 500)
  }

  /** `deliver` after `attempt` retries, the next POST being the n-th. */
  function Tries(net: Network, n: nat, attempt: nat, retries: int): (t: Tried)
    ensures n < t.next
    ensures attempt <= Cap(retries) ==> t.next - n <= Cap(retries) + 1 - attempt
    decreases if retries > attempt then retries - attempt else 0
  {
    if Repeats(net(n), attempt, retries) then Tries(net, n + 1, attempt + 1, retries)
    else Tried(if net(n).Answered? then Some(net(n).response) else None, n + 1)
  }

  function Cap(retries: int): nat { if retries > 0 then retries else 0 }

  /** Every POST but the last failed to connect or met a server error; the last one decides. */
  lemma {:induction false} TriesLastDecides(net: Network, n: nat, attempt: nat, retries: int)
    ensures var t := Tries(net, n, attempt, retries);
      && (forall k :: n <= k < t.next - 1 ==> net(k).Unreachable? || net(k).response.status >= 500)
      && t.response == (if net(t.next - 1).Answered? then Some(net(t.next - 1).response) else None)
      && (t.response.None? || t.response.value.status >= 500 ==> t.next - n == Cap(retries - attempt) + 1)
    decreases if retries > attempt then retries - attempt else 0
  {
    if Repeats(net(n), attempt, retries) {
      TriesLastDecides(net, n + 1, attempt + 1, retries);
    }
  }

  datatype Delivery = Delivery(outcome: Option<Outcome>, next: nat)

  /** `_deliver_with_refresh`: a 401 earns one more delivery, a second 401 halts. */
  function Deliver(net: Network, n: nat, occurredAt: string, judge: Judge, retries: int): (d: Delivery)
    ensures n < d.next <= n + 2 * (Cap(retries) + 1)
    ensures d.outcome.Some? ==> d.outcome.value.action != Refresh
  {
    var t := Tries(net, n, 0, retries);
    if t.response.None? then Delivery(None, t.next)
    else
      var o := Classify(t.response.value, occurredAt, judge);
      if o.action != Refresh then Delivery(Some(o), t.next)
      else
        var u := Tries(net, t.next, 0, retries);
        if u.response.None? then Delivery(None, u.next)
        else
          var p := Classify(u.response.value, occurredAt, judge);
          Delivery(Some(if p.action == Refresh then Outcome(Halt, RefreshFailed) else p), u.next)
  }

  // ---- One sequential drain ------------------------------------------------------------------------

  datatype Row = Delivered | DeadLettered(event: OutEvent, reason: Reason)
  datatype Report = Report(delivered: seq<string>, deadLettered: seq<string>, pending: seq<string>,
                           halted: Option<Reason>)

  const EMPTY_REPORT := Report([], [], [], None)

  /** `DrainReport.ok`: also true of a drain that left an event for later. */
  predicate Ok(report: Report) { report.halted.None? }

  /** `mark_settled`: never overwrites a row. */
  function MarkDelivered(rows: map<string, Row>, key: string): map<string, Row> {
    if key in rows then rows else rows[key := Delivered]
  }

  /** A drain in mid-loop, or one that ended in a report or in a raised transport error. */
  datatype Drained = Drained(rows: map<string, Row>, report: Report, raised: bool, next: nat)

  /** One turn of the loop for an outcome: the row and the report of this event. */
  function Recorded(d: Drained, e: OutEvent, o: Outcome, next: nat): Drained
    requires d.next <= next
  {
    match o.action
    case Advance => d.(rows := MarkDelivered(d.rows, e.Key()),
                       report := d.report.(delivered := d.report.delivered + [e.Key()]), next := next)
    case DeadLetter =>
      d.(rows := d.rows[e.Key() := DeadLettered(e, o.reason)],
         report := d.report.(deadLettered := d.report.deadLettered + [e.Key()]), next := next)
    case TryLater => d.(report := d.report.(pending := d.report.pending + [e.Key()]), next := next)
    case _ => d.(report := d.report.(pending := d.report.pending + [e.Key()], halted := Some(o.reason)), next := next)
  }

  /** `drain` from position `at` on. */
  function DrainFrom(net: Network, events: seq<OutEvent>, at: nat, settled: set<string>, judge: Judge, retries: int,
                     d: Drained): (d': Drained)
    requires at <= |events|
    ensures d.next <= d'.next
    decreases |events| - at
  {
    if at == |events| then d
    else
      var e := events[at];
      if e.Key() in settled then DrainFrom(net, events, at + 1, settled, judge, retries, d)
      else
        var x := Deliver(net, d.next, e.body.occurredAt, judge, retries);
        if x.outcome.None? then d.(next := x.next, raised := true)
        else
          var o := x.outcome.value;
          var d' := Recorded(d, e, o, x.next);
          if o.action == Advance || o.action == DeadLetter
          then DrainFrom(net, events, at + 1, settled, judge, retries, d')
          else d'
  }

  /** A drain of n events makes at most 2 * (max_retries + 1) * n POSTs. */
  lemma {:induction false} DrainPostsBounded(net: Network, events: seq<OutEvent>, at: nat, settled: set<string>,
                                             judge: Judge, retries: int, d: Drained)
    requires at <= |events|
    ensures DrainFrom(net, events, at, settled, judge, retries, d).next - d.next
            <= 2 * (Cap(retries) + 1) * (|events| - at)
    decreases |events| - at
  {
    if at < |events| {
      var e, left, c := events[at], |events| - at - 1, 2 * (Cap(retries) + 1);
      assert c * (left + 1) == c * left + c;
      assert c * left >= 0;
      if e.Key() in settled {
        DrainPostsBounded(net, events, at + 1, settled, judge, retries, d);
      } else {
        var x := Deliver(net, d.next, e.body.occurredAt, judge, retries);
        if x.outcome.Some? {
          DrainPostsBounded(net, events, at + 1, settled, judge, retries, Recorded(d, e, x.outcome.value, x.next));
        }
      }
    }
  }

  lemma DistinctKeys(events: seq<OutEvent>, i: nat, j: nat)
    requires NoDuplicates(Keys(events)) && i < |events| && j < |events| && events[i].Key() == events[j].Key()
    ensures i == j
  {
    assert Keys(events)[i] == Keys(events)[j];
  }

  /** In mid-loop: the rows are the loaded ones plus what was reported, and every event before `at` has one. */
  ghost predicate Midway(events: seq<OutEvent>, at: nat, settled: set<string>, d: Drained) {
    && at <= |events|
    && !d.raised && d.report.pending == [] && d.report.halted.None?
    && d.rows.Keys == settled + Elems(d.report.delivered) + Elems(d.report.deadLettered)
    && (forall i :: 0 <= i < at ==> events[i].Key() in d.rows)
    && (forall k :: k in d.rows && k !in settled ==> exists i :: 0 <= i < at && events[i].Key() == k)
  }

  /** The outcome of a whole drain: through, or stopped at the first event that has no row. */
  ghost predicate Exact(events: seq<OutEvent>, settled: set<string>, d: Drained) {
    && d.rows.Keys == settled + Elems(d.report.delivered) + Elems(d.report.deadLettered)
    && (!d.raised && d.report.pending == [] ==>
          d.report.halted.None? && forall i :: 0 <= i < |events| ==> events[i].Key() in d.rows)
    && (d.report.pending != [] ==>
          exists i :: 0 <= i < |events| && d.report.pending == [events[i].Key()] && events[i].Key() !in d.rows
                   && forall j :: 0 <= j < i ==> events[j].Key() in d.rows)
  }

  lemma MidwayNext(events: seq<OutEvent>, at: nat, settled: set<string>, d: Drained, d': Drained)
    requires Midway(events, at, settled, d) && at < |events| && events[at].Key() !in settled
    requires d'.rows.Keys == d.rows.Keys + {events[at].Key()} && d'.raised == d.raised
    requires d'.report == d.report.(delivered := d.report.delivered + [events[at].Key()])
          || d'.report == d.report.(deadLettered := d.report.deadLettered + [events[at].Key()])
    ensures Midway(events, at + 1, settled, d')
  {
    var key := events[at].Key();
    assert Elems(d.report.delivered + [key]) == Elems(d.report.delivered) + {key};
    assert Elems(d.report.deadLettered + [key]) == Elems(d.report.deadLettered) + {key};
  }

  lemma MidwayRecorded(events: seq<OutEvent>, at: nat, settled: set<string>, d: Drained, o: Outcome, next: nat)
    requires Midway(events, at, settled, d) && at < |events| && events[at].Key() !in settled && d.next <= next
    requires o.action == Advance || o.action == DeadLetter
    ensures Midway(events, at + 1, settled, Recorded(d, events[at], o, next))
  {
    hide OutEvent.Key;
    MidwayNext(events, at, settled, d, Recorded(d, events[at], o, next));
  }

  lemma MidwayStop(events: seq<OutEvent>, at: nat, settled: set<string>, d: Drained, o: Outcome, next: nat)
    requires NoDuplicates(Keys(events)) && Midway(events, at, settled, d) && at < |events|
    requires events[at].Key() !in settled && d.next <= next
    requires o.action != Advance && o.action != DeadLetter
    ensures Exact(events, settled, Recorded(d, events[at], o, next))
  {
    assert d.report.pending + [events[at].Key()] == [events[at].Key()];
    if events[at].Key() in d.rows {
      var i :| 0 <= i < at && events[i].Key() == events[at].Key();
      DistinctKeys(events, i, at);
    }
  }

  lemma MidwayEnds(events: seq<OutEvent>, settled: set<string>, d: Drained)
    requires Midway(events, |events|, settled, d)
    ensures !d.raised && d.report.pending == [] && forall i :: 0 <= i < |events| ==> events[i].Key() in d.rows
  {
  }

  lemma MidwaySkips(events: seq<OutEvent>, at: nat, settled: set<string>, d: Drained)
    requires Midway(events, at, settled, d) && at < |events| && events[at].Key() in settled
    ensures Midway(events, at + 1, settled, d)
  {
  }

  lemma MidwayEndsExact(events: seq<OutEvent>, settled: set<string>, d: Drained)
    requires Midway(events, |events|, settled, d)
    ensures Exact(events, settled, d)
  {
  }

  lemma MidwayRaises(events: seq<OutEvent>, at: nat, settled: set<string>, d: Drained, next: nat)
    requires Midway(events, at, settled, d)
    ensures Exact(events, settled, d.(next := next, raised := true))
  {
  }

  /**
   * What a drain that runs alone leaves behind: the rows it found plus exactly the keys it reports, and either a row
   * for every event or one pending key, the first event without a row. (A transport error leaves no report.)
   */
  lemma {:induction false} DrainIsExact(net: Network, events: seq<OutEvent>, at: nat, settled: set<string>,
                                        judge: Judge, retries: int, d: Drained)
    requires NoDuplicates(Keys(events)) && Midway(events, at, settled, d)
    ensures Exact(events, settled, DrainFrom(net, events, at, settled, judge, retries, d))
    decreases |events| - at
  {
    assert at <= |events|;
    hide NoDuplicates, Deliver, Midway, Exact, Keys, OutEvent.Key, Recorded;
    if at == |events| {
      MidwayEndsExact(events, settled, d);
    } else if events[at].Key() in settled {
      MidwaySkips(events, at, settled, d);
      DrainIsExact(net, events, at + 1, settled, judge, retries, d);
    } else {
      var x := Deliver(net, d.next, events[at].body.occurredAt, judge, retries);
      if x.outcome.None? {
        MidwayRaises(events, at, settled, d, x.next);
      } else {
        var o := x.outcome.value;
        var d' := Recorded(d, events[at], o, x.next);
        if o.action == Advance || o.action == DeadLetter {
          MidwayRecorded(events, at, settled, d, o, x.next);
          DrainIsExact(net, events, at + 1, settled, judge, retries, d');
        } else {
          MidwayStop(events, at, settled, d, o, x.next);
        }
      }
    }
  }

  /** From some POST on, the endpoint accepts everything. */
  ghost predicate Accepting(net: Network, n: nat) {
    forall k: nat :: k >= n ==> net(k).Answered? && net(k).response.status == 202
  }

  lemma AcceptedAtOnce(net: Network, n: nat, occurredAt: string, judge: Judge, retries: int)
    requires Accepting(net, n)
    ensures Deliver(net, n, occurredAt, judge, retries) == Delivery(Some(Outcome(Advance, Accepted)), n + 1)
    ensures Accepting(net, n + 1)
  {
    assert net(n).Answered? && net(n).response.status == 202;
  }

  /** Whatever earlier drains left undone, one drain against an accepting endpoint settles every event. */
  lemma {:induction false} AcceptingDrainsAll(net: Network, events: seq<OutEvent>, at: nat, settled: set<string>,
                                              judge: Judge, retries: int, d: Drained)
    requires NoDuplicates(Keys(events)) && at <= |events| && Midway(events, at, settled, d) && Accepting(net, d.next)
    ensures var d' := DrainFrom(net, events, at, settled, judge, retries, d);
      !d'.raised && d'.report.pending == [] && d'.report.deadLettered == d.report.deadLettered
      && forall i :: 0 <= i < |events| ==> events[i].Key() in d'.rows
    decreases |events| - at
  {
    hide NoDuplicates, Midway, Accepting, Deliver;
    if at == |events| {
      MidwayEnds(events, settled, d);
    } else {
      var e := events[at];
      if e.Key() in settled {
        MidwaySkips(events, at, settled, d);
        AcceptingDrainsAll(net, events, at + 1, settled, judge, retries, d);
      } else {
        AcceptedAtOnce(net, d.next, e.body.occurredAt, judge, retries);
        var d2 := d.(next := d.next + 1, rows := MarkDelivered(d.rows, e.Key()),
                     report := d.report.(delivered := d.report.delivered + [e.Key()]));
        MidwayNext(events, at, settled, d, d2);
        AcceptingDrainsAll(net, events, at + 1, settled, judge, retries, d2);
      }
    }
  }

  // ---- What `ok` does not say ------------------------------------------------------------------------

  /** A drain of a whole event list with nothing reported yet. */
  function Drain(net: Network, events: seq<OutEvent>, rows: map<string, Row>, judge: Judge, retries: int,
                 n: nat): Drained {
    DrainFrom(net, events, 0, rows.Keys, judge, retries, Drained(rows, EMPTY_REPORT, false, n))
  }

  ghost predicate AllSettled(events: seq<OutEvent>, rows: map<string, Row>) {
    forall i :: 0 <= i < |events| ==> events[i].Key() in rows
  }

  /** An endpoint that answers every POST with a server error. */
  const BROKEN: Network := n => Answered(Response(500, Body(None, None, None)))

  /** `ok` is true of a drain that delivered nothing: one event, an endpoint that answers 500, no retry. */
  lemma OkLeavesEvent(e: OutEvent, judge: Judge)
    ensures var d := Drain(BROKEN, [e], map[], judge, 0, 0);
      !d.raised && Ok(d.report) && d.report.pending == [e.Key()] && e.Key() !in d.rows
  {
    assert Tries(BROKEN, 0, 0, 0) == Tried(Some(BROKEN(0).response), 1);
  }

  lemma DrainExact(net: Network, events: seq<OutEvent>, rows: map<string, Row>, judge: Judge, retries: int, n: nat)
    requires NoDuplicates(Keys(events))
    ensures Exact(events, rows.Keys, Drain(net, events, rows, judge, retries, n))
  {
    var d := Drained(rows, EMPTY_REPORT, false, n);
    assert Elems<string>([]) == {};
    DrainIsExact(net, events, 0, rows.Keys, judge, retries, d);
  }

  /** A drain that reported settled every event if and only if nothing is pending; `ok` does not matter. */
  lemma SettledIffNothingPending(net: Network, events: seq<OutEvent>, rows: map<string, Row>, judge: Judge,
                                 retries: int, n: nat)
    requires NoDuplicates(Keys(events)) && !Drain(net, events, rows, judge, retries, n).raised
    ensures var d := Drain(net, events, rows, judge, retries, n);
      AllSettled(events, d.rows) <==> d.report.pending == []
  {
    hide NoDuplicates, DrainFrom;
    DrainExact(net, events, rows, judge, retries, n);
  }

  /** The first event without a row. */
  ghost predicate FirstOpen(events: seq<OutEvent>, rows: map<string, Row>, i: nat) {
    i < |events| && events[i].Key() !in rows && forall j :: 0 <= j < i ==> events[j].Key() in rows
  }

  /** The last reply decides what a delivery that ends without a success does. */
  lemma DeliverLast(net: Network, n: nat, occurredAt: string, judge: Judge, retries: int)
    requires Deliver(net, n, occurredAt, judge, retries).outcome.Some?
    ensures var d := Deliver(net, n, occurredAt, judge, retries);
      && net(d.next - 1).Answered?
      && (d.outcome.value.action == TryLater <==> Transient(net(d.next - 1).response, occurredAt, judge))
  {
    var t := Tries(net, n, 0, retries);
    TriesLastDecides(net, n, 0, retries);
    if t.response.Some? { TriesLastDecides(net, t.next, 0, retries); }
  }

  /** The drain stopped at this event, and it is `ok` exactly because its last answer was a transient one. */
  ghost predicate StoppedAt(net: Network, events: seq<OutEvent>, judge: Judge, d: Drained, i: nat) {
    && i < |events| && d.report.pending == [events[i].Key()] && d.next > 0 && net(d.next - 1).Answered?
    && (Ok(d.report) <==> Transient(net(d.next - 1).response, events[i].body.occurredAt, judge))
  }

  lemma {:induction false} DrainStops(net: Network, events: seq<OutEvent>, at: nat, settled: set<string>, judge: Judge,
                                      retries: int, d: Drained) returns (i: nat)
    requires at <= |events| && d.report.pending == [] && d.report.halted.None?
    requires DrainFrom(net, events, at, settled, judge, retries, d).report.pending != []
    ensures StoppedAt(net, events, judge, DrainFrom(net, events, at, settled, judge, retries, d), i)
    decreases |events| - at
  {
    hide Deliver, Transient;
    var e := events[at];
    if e.Key() in settled {
      i := DrainStops(net, events, at + 1, settled, judge, retries, d);
    } else {
      DeliverLast(net, d.next, e.body.occurredAt, judge, retries);
      var x := Deliver(net, d.next, e.body.occurredAt, judge, retries);
      var d1 := d.(next := x.next);
      var o := x.outcome.value;
      i := at;
      match o.action
      case Advance =>
        var d2 := d1.(rows := MarkDelivered(d.rows, e.Key()),
                      report := d.report.(delivered := d.report.delivered + [e.Key()]));
        i := DrainStops(net, events, at + 1, settled, judge, retries, d2);
      case DeadLetter =>
        var d2 := d1.(rows := d.rows[e.Key() := DeadLettered(e, o.reason)],
                      report := d.report.(deadLettered := d.report.deadLettered + [e.Key()]));
        i := DrainStops(net, events, at + 1, settled, judge, retries, d2);
      case TryLater =>
      case Halt =>
      case Refresh =>
    }
  }

  /**
   * A drain that reported is `ok` with an event left over if and only if the last answer it got, for the first event
   * that has no row, was a server error or a skew that is not stale.
   */
  lemma OkButPendingIff(net: Network, events: seq<OutEvent>, rows: map<string, Row>, judge: Judge, retries: int, n: nat)
    requires NoDuplicates(Keys(events)) && !Drain(net, events, rows, judge, retries, n).raised
    ensures var d := Drain(net, events, rows, judge, retries, n);
      Ok(d.report) && d.report.pending != [] <==>
        exists i: nat :: FirstOpen(events, d.rows, i) && d.next > 0 && net(d.next - 1).Answered?
                 && Transient(net(d.next - 1).response, events[i].body.occurredAt, judge)
  {
    hide NoDuplicates, DrainFrom, Transient;
    var d := Drain(net, events, rows, judge, retries, n);
    DrainExact(net, events, rows, judge, retries, n);
    if d.report.pending != [] {
      var i := DrainStops(net, events, 0, rows.Keys, judge, retries, Drained(rows, EMPTY_REPORT, false, n));
      var k :| 0 <= k < |events| && d.report.pending == [events[k].Key()] && events[k].Key() !in d.rows
            && forall j :: 0 <= j < k ==> events[j].Key() in d.rows;
      assert events[i].Key() == events[k].Key();
      DistinctKeys(events, i, k);
      assert FirstOpen(events, d.rows, k);
      forall j: nat | FirstOpen(events, d.rows, j) ensures j == k {}
    }
  }
}
