/**
 * The relay's tables, its client and its drain in the imperative form of the source, against the functions of Relay.
 */
module RelayStores {
  import opened Prelude
  import opened HashChain
  import opened Ledgers
  import opened Projection
  import opened Relay
  import RunLoop
  import TextOrder

  // ---- Tables --------------------------------------------------------------------------------------

  datatype TaskState = TaskAccepted | TaskRunning | TaskDone | TaskFailed
  datatype DeliveryRow = DeliveryRow(row: Row, updatedAt: string)
  datatype TaskRow = TaskRow(state: TaskState, updatedAt: string)
  datatype Decision = Accept | Replay

  /** Primary keys: (ledger_id, idempotency_key) and (run_id, task_id). */
  type DeliveryTable = map<(string, string), DeliveryRow>
  type TaskTable = map<(string, string), TaskRow>

  /** The rows of one ledger. */
  function LedgerRows(table: DeliveryTable, ledgerId: string): map<string, Row> {
    map p | p in table && p.0 == ledgerId :: p.1 := table[p].row
  }

  predicate Terminal(state: TaskState) { state.TaskDone? || state.TaskFailed? }

  predicate Expired(updatedAt: string, cutoff: string) { TextOrder.Before(updatedAt, cutoff) }

  /** What a row may become: it only moves on, and it leaves the table only once it is terminal. */
  predicate MovesOn(before: Option<TaskState>, after: Option<TaskState>) {
    match before
    case None => after in {None, Some(TaskAccepted)}
    case Some(state) =>
      match after
      case None => Terminal(state)
      case Some(next) =>
        next == state || (state == TaskAccepted && next == TaskRunning) || (state == TaskRunning && Terminal(next))
  }

  type States = map<(string, string), TaskState>

  function StatesOf(table: TaskTable): States {
    map key | key in table :: table[key].state
  }

  /** `accept_task`, `claim_task` and `settle_task` on the states alone. */
  function AcceptedIn(states: States, key: (string, string)): States {
    if key in states then states else states[key := TaskAccepted]
  }

  predicate Claimable(states: States, key: (string, string)) { key in states && states[key] == TaskAccepted }

  function ClaimedIn(states: States, key: (string, string)): States {
    if Claimable(states, key) then states[key := TaskRunning] else states
  }

  function SettledIn(states: States, key: (string, string), ok: bool): States {
    if key in states then states[key := if ok then TaskDone else TaskFailed] else states
  }

  function StateOf(table: TaskTable, key: (string, string)): Option<TaskState> {
    if key in table then Some(table[key].state) else None
  }

  lemma StatesAgree(table: TaskTable, key: (string, string))
    ensures StateOf(table, key) == if key in StatesOf(table) then Some(StatesOf(table)[key]) else None
  {
  }

  /** Writing one row changes that row of its ledger and no other ledger. */
  lemma RowWritten(table: DeliveryTable, ledgerId: string, key: string, row: DeliveryRow)
    ensures LedgerRows(table[(ledgerId, key) := row], ledgerId) == LedgerRows(table, ledgerId)[key := row.row]
    ensures forall other :: other != ledgerId ==>
              LedgerRows(table[(ledgerId, key) := row], other) == LedgerRows(table, other)
  {
    var table' := table[(ledgerId, key) := row];
    forall other | other != ledgerId ensures LedgerRows(table', other) == LedgerRows(table, other) {
      OtherLedgerSame(table, table', other);
    }
  }

  lemma OtherLedgerSame(table: DeliveryTable, table': DeliveryTable, ledgerId: string)
    requires forall k :: (ledgerId, k) in table' <==> (ledgerId, k) in table
    requires forall k :: (ledgerId, k) in table ==> table'[(ledgerId, k)] == table[(ledgerId, k)]
    ensures LedgerRows(table', ledgerId) == LedgerRows(table, ledgerId)
  {
    forall k ensures k in LedgerRows(table', ledgerId) <==> k in LedgerRows(table, ledgerId) {
      assert k in LedgerRows(table', ledgerId) <==> (ledgerId, k) in table';
    }
  }

  lemma HasRow(table: DeliveryTable, ledgerId: string, key: string)
    ensures key in LedgerRows(table, ledgerId) <==> (ledgerId, key) in table
  {
  }

  const DEFAULT_RETENTION := 7 * 24 * 3600

  /** `_retention_window`: the argument, else a readable environment value, else the default. */
  function RetentionWindow(maxAge: Option<int>, env: Option<string>, parse: string -> Option<int>): int {
    if maxAge.Some? then maxAge.value
    else if Truthy(env) && parse(env.value).Some? then parse(env.value).value
    else DEFAULT_RETENTION
  }

  /** The argument wins, then a readable and non-empty environment value, then seven days. */
  lemma RetentionWindowIs(maxAge: Option<int>, env: Option<string>, parse: string -> Option<int>)
    ensures maxAge.Some? ==> RetentionWindow(maxAge, env, parse) == maxAge.value
    ensures maxAge.None? && env.Some? && env.value != "" && parse(env.value).Some? ==>
              RetentionWindow(maxAge, env, parse) == parse(env.value).value
    ensures maxAge.None? && (env.None? || env.value == "" || parse(env.value).None?) ==>
              RetentionWindow(maxAge, env, parse) == 604800
  {
  }

  /** Rows only came in or were replaced by dead letters of this ledger, each stamped by one of these clock readings. */
  ghost predicate StampedBy(before: DeliveryTable, after: DeliveryTable, ledgerId: string, clock: nat -> string,
                            from: nat, to: nat)
  {
    && before.Keys <= after.Keys
    && forall p :: p in after ==>
         || (p in before && after[p] == before[p])
         || (p.0 == ledgerId && exists k: nat :: from <= k < to && after[p].updatedAt == clock(k))
  }

  lemma StampedStep(before: DeliveryTable, mid: DeliveryTable, after: DeliveryTable, ledgerId: string,
                    clock: nat -> string, from: nat, k: nat)
    requires from <= k && StampedBy(before, mid, ledgerId, clock, from, k)
    requires StampedBy(mid, after, ledgerId, clock, k, k + 1)
    ensures StampedBy(before, after, ledgerId, clock, from, k + 1)
  {
    forall p | p in after && !(p in before && after[p] == before[p])
      ensures p.0 == ledgerId && exists i: nat :: from <= i < k + 1 && after[p].updatedAt == clock(i)
    {
      if p in mid && after[p] == mid[p] {
        var i: nat :| from <= i < k && mid[p].updatedAt == clock(i);
        assert after[p].updatedAt == clock(i);
      } else {
        assert after[p].updatedAt == clock(k);
      }
    }
  }

  lemma StampedNothing(table: DeliveryTable, ledgerId: string, clock: nat -> string, k: nat)
    ensures StampedBy(table, table, ledgerId, clock, k, k)
  {
  }

  lemma StampedOne(before: DeliveryTable, ledgerId: string, key: string, row: DeliveryRow, clock: nat -> string, k: nat)
    requires row.updatedAt == clock(k)
    ensures StampedBy(before, before, ledgerId, clock, k, k + 1)
    ensures StampedBy(before, before[(ledgerId, key) := row], ledgerId, clock, k, k + 1)
  {
  }

  /** What the retention sweep leaves of the delivery table: all but the expired `delivered` rows, unchanged. */
  ghost predicate SweptTo(before: DeliveryTable, after: DeliveryTable, cutoff: string) {
    && after.Keys <= before.Keys
    && (forall p :: p in before ==>
          (p in after <==> !(before[p].row.Delivered? && Expired(before[p].updatedAt, cutoff))))
    && (forall p :: p in after ==> after[p] == before[p])
  }

  /** For each ledger a sweep is a prune step of the outbox: some delivered rows go, everything else stays. */
  lemma SweepIsPrune(before: DeliveryTable, after: DeliveryTable, cutoff: string, ledgerId: string)
    returns (keys: set<string>)
    requires SweptTo(before, after, cutoff)
    ensures LedgerRows(after, ledgerId) == LedgerRows(before, ledgerId) - keys
    ensures forall k :: k in keys ==> k in LedgerRows(before, ledgerId) && LedgerRows(before, ledgerId)[k].Delivered?
  {
    hide Expired;
    keys := LedgerRows(before, ledgerId).Keys - LedgerRows(after, ledgerId).Keys;
    forall k | k in LedgerRows(after, ledgerId) ensures (ledgerId, k) in after && (ledgerId, k) in before {}
    forall k | k in LedgerRows(before, ledgerId) ensures (ledgerId, k) in before {}
  }

  /** One database file. Each method is one transaction. */
  class RelayStore {
    var delivery: DeliveryTable
    var tasks: TaskTable
    var ticks: nat
    const clock: nat -> string
    /** The time so many seconds before a time, in the same text form. */
    const earlier: (string, int) -> string
    const parse: string -> Option<int>

    constructor (clock: nat -> string, earlier: (string, int) -> string, parse: string -> Option<int>)
      ensures delivery == map[] && tasks == map[]
      ensures this.clock == clock && this.earlier == earlier && this.parse == parse
    {
      this.clock, this.earlier, this.parse := clock, earlier, parse;
      delivery, tasks, ticks := map[], map[], 0;
    }

    method LoadSettled(ledgerId: string) returns (keys: set<string>)
      ensures keys == LedgerRows(delivery, ledgerId).Keys
    {
      keys := set p | p in delivery && p.0 == ledgerId :: p.1;
      assert forall k :: k in keys <==> (ledgerId, k) in delivery;
    }

    method MarkSettled(ledgerId: string, key: string)
      modifies this`delivery, this`ticks
      ensures LedgerRows(delivery, ledgerId) == MarkDelivered(LedgerRows(old(delivery), ledgerId), key)
      ensures forall other :: other != ledgerId ==> LedgerRows(delivery, other) == LedgerRows(old(delivery), other)
      ensures delivery == if (ledgerId, key) in old(delivery) then old(delivery)
                          else old(delivery)[(ledgerId, key) := DeliveryRow(Delivered, clock(old(ticks)))]
      ensures ticks == old(ticks) + 1
    {
      hide LedgerRows;
      HasRow(delivery, ledgerId, key);
      if (ledgerId, key) !in delivery {
        RowWritten(delivery, ledgerId, key, DeliveryRow(Delivered, clock(ticks)));
        delivery := delivery[(ledgerId, key) := DeliveryRow(Delivered, clock(ticks))];
      }
      ticks := ticks + 1;
    }

    method DeadLetter(ledgerId: string, event: OutEvent, reason: Reason)
      modifies this`delivery, this`ticks
      ensures LedgerRows(delivery, ledgerId) ==
              LedgerRows(old(delivery), ledgerId)[event.Key() := DeadLettered(event, reason)]
      ensures forall other :: other != ledgerId ==> LedgerRows(delivery, other) == LedgerRows(old(delivery), other)
      ensures delivery == old(delivery)[(ledgerId, event.Key()) := DeliveryRow(DeadLettered(event, reason),
                                                                               clock(old(ticks)))]
      ensures ticks == old(ticks) + 1
    {
      hide LedgerRows;
      RowWritten(delivery, ledgerId, event.Key(), DeliveryRow(DeadLettered(event, reason), clock(ticks)));
      delivery := delivery[(ledgerId, event.Key()) := DeliveryRow(DeadLettered(event, reason), clock(ticks))];
      ticks := ticks + 1;
    }

    /** Accept unless the row is past `accepted`; a crash-orphaned `accepted` row is accepted again. */
    method AcceptTask(runId: string, taskId: string) returns (decision: Decision)
      modifies this`tasks, this`ticks
      ensures StatesOf(tasks) == AcceptedIn(StatesOf(old(tasks)), (runId, taskId))
      ensures decision == Accept <==> Claimable(StatesOf(tasks), (runId, taskId))
      ensures tasks == if (runId, taskId) in old(tasks) then old(tasks)
                       else old(tasks)[(runId, taskId) := TaskRow(TaskAccepted, clock(old(ticks)))]
      ensures ticks == old(ticks) + 1
      ensures forall key :: MovesOn(StateOf(old(tasks), key), StateOf(tasks, key))
    {
      if (runId, taskId) !in tasks {
        tasks := tasks[(runId, taskId) := TaskRow(TaskAccepted, clock(ticks))];
        decision := Accept;
      } else {
        decision := if tasks[(runId, taskId)].state == TaskAccepted then Accept else Replay;
      }
      ticks := ticks + 1;
    }

    /** Win the run: the caller that moves the row from `accepted` to `running`, and only that one. */
    method ClaimTask(runId: string, taskId: string) returns (won: bool)
      modifies this`tasks, this`ticks
      ensures won <==> Claimable(StatesOf(old(tasks)), (runId, taskId))
      ensures StatesOf(tasks) == ClaimedIn(StatesOf(old(tasks)), (runId, taskId))
      ensures tasks == if won then old(tasks)[(runId, taskId) := TaskRow(TaskRunning, clock(old(ticks)))]
                       else old(tasks)
      ensures ticks == old(ticks) + 1
      ensures forall key :: key != (runId, taskId) ==> StateOf(tasks, key) == StateOf(old(tasks), key)
    {
      var key := (runId, taskId);
      won := key in tasks && tasks[key].state == TaskAccepted;
      if won {
        tasks := tasks[key := TaskRow(TaskRunning, clock(ticks))];
      }
      ticks := ticks + 1;
    }

    /** An unconditional update: it is the caller that must hold the claim. */
    method SettleTask(runId: string, taskId: string, ok: bool)
      modifies this`tasks, this`ticks
      ensures StatesOf(tasks) == SettledIn(StatesOf(old(tasks)), (runId, taskId), ok)
      ensures var row := TaskRow(if ok then TaskDone else TaskFailed, clock(old(ticks)));
        tasks == if (runId, taskId) in old(tasks) then old(tasks)[(runId, taskId) := row] else old(tasks)
      ensures ticks == old(ticks) + 1
      ensures forall key :: key != (runId, taskId) ==> StateOf(tasks, key) == StateOf(old(tasks), key)
    {
      var key := (runId, taskId);
      if key in tasks {
        tasks := tasks[key := TaskRow(if ok then TaskDone else TaskFailed, clock(ticks))];
      }
      ticks := ticks + 1;
    }

    /** The time before which rows are swept, were the sweep called now. */
    function Cutoff(maxAge: Option<int>, env: Option<string>): string
      reads this
    {
      earlier(clock(ticks), RetentionWindow(maxAge, env, parse))
    }

    /** The retention sweep over both tables. Dead letters and unfinished tasks are kept, however old. */
    method PruneSettled(maxAge: Option<int>, env: Option<string>) returns (deliveries: nat, finished: nat)
      modifies this`delivery, this`tasks, this`ticks
      ensures SweptTo(old(delivery), delivery, old(Cutoff(maxAge, env))) && tasks.Keys <= old(tasks).Keys
      ensures forall key :: key in old(tasks) ==>
                (key in tasks <==>
                 !(Terminal(old(tasks)[key].state) && Expired(old(tasks)[key].updatedAt, old(Cutoff(maxAge, env)))))
      ensures forall key :: key in tasks ==> tasks[key] == old(tasks)[key]
      ensures deliveries == |old(delivery)| - |delivery| && finished == |old(tasks)| - |tasks|
      ensures ticks == old(ticks) + 1
    {
      hide Expired, RetentionWindow;
      var cutoff := Cutoff(maxAge, env);
      ticks := ticks + 1;
      var goneRows := set p | p in delivery && delivery[p].row.Delivered? && Expired(delivery[p].updatedAt, cutoff);
      var goneTasks := set key | key in tasks && Terminal(tasks[key].state) && Expired(tasks[key].updatedAt, cutoff);
      deliveries, finished := |goneRows|, |goneTasks|;
      assert (delivery - goneRows).Keys == delivery.Keys - goneRows;
      assert (tasks - goneTasks).Keys == tasks.Keys - goneTasks;
      delivery, tasks := delivery - goneRows, tasks - goneTasks;
    }
  }

  // ---- Client --------------------------------------------------------------------------------------

  /** The pauses before the first `n` retries: the base doubled each time; a zero base never sleeps. */
  function Pauses(base: real, n: nat): seq<real> {
    if base == 0.0 || n == 0 then [] else Pauses(base, n - 1) + [base * RunLoop.Power2(n - 1) as real]
  }

  /** Without a base no pause at all; else the first pause is the base, and each further one is twice the one before. */
  lemma {:induction false} PausesDouble(base: real, n: nat)
    ensures base == 0.0 ==> Pauses(base, n) == []
    ensures base != 0.0 ==> |Pauses(base, n)| == n && (n > 0 ==> Pauses(base, n)[0] == base)
    ensures base != 0.0 ==> forall i :: 0 <= i < n - 1 ==> Pauses(base, n)[i + 1] == 2.0 * Pauses(base, n)[i]
  {
    if n > 0 && base != 0.0 {
      PausesDouble(base, n - 1);
      if n > 1 {
        assert Pauses(base, n - 1)[n - 2] == base * RunLoop.Power2(n - 2) as real;
        assert RunLoop.Power2(n - 1) == 2 * RunLoop.Power2(n - 2);
      }
    }
  }

  /** The HTTP client: `sent` counts its POSTs, `sleeps` its pauses. */
  class Client {
    const net: Network
    const maxRetries: int
    const backoffBase: real
    var sent: nat
    var sleeps: seq<real>

    constructor (net: Network, maxRetries: int, backoffBase: real)
      ensures this.net == net && this.maxRetries == maxRetries && this.backoffBase == backoffBase
      ensures sent == 0 && sleeps == []
    {
      this.net, this.maxRetries, this.backoffBase := net, maxRetries, backoffBase;
      sent, sleeps := 0, [];
    }

    /** `deliver`; None stands for the transport error raised when the retries are used up. */
    method DeliverOnce() returns (response: Option<Response>)
      modifies this
      ensures var t := Tries(net, old(sent), 0, maxRetries); response == t.response && sent == t.next
      ensures sleeps == old(sleeps) + Pauses(backoffBase, sent - old(sent) - 1)
    {
      var attempt := 0;
      while true
        invariant sent == old(sent) + attempt && sleeps == old(sleeps) + Pauses(backoffBase, attempt)
        invariant Tries(net, old(sent), 0, maxRetries) == Tries(net, sent, attempt, maxRetries)
        decreases if maxRetries > attempt then maxRetries - attempt else 0
      {
        var reply := net(sent);
        sent := sent + 1;
        if reply.Unreachable? {
          if attempt >= maxRetries { return None; }
          Backoff(attempt);
          attempt := attempt + 1;
          continue;
        }
        if reply.response.status >= 500 && attempt < maxRetries {
          Backoff(attempt);
          attempt := attempt + 1;
          continue;
        }
        return Some(reply.response);
      }
    }

    method Backoff(attempt: nat)
      modifies this`sleeps
      ensures forall before: seq<real> ::
                old(sleeps) == before + Pauses(backoffBase, attempt) ==>
                      sleeps == before + Pauses(backoffBase, attempt + 1)
    {
      if backoffBase != 0.0 {
        sleeps := sleeps + [backoffBase * RunLoop.Power2(attempt) as real];
      }
    }

    /** `_deliver_with_refresh`. */
    method DeliverWithRefresh(occurredAt: string, judge: Judge) returns (outcome: Option<Outcome>)
      modifies this
      ensures var d := Deliver(net, old(sent), occurredAt, judge, maxRetries); outcome == d.outcome && sent == d.next
      ensures var t := Tries(net, old(sent), 0, maxRetries);
        sleeps == old(sleeps) + Pauses(backoffBase, t.next - old(sent) - 1) +
                  if sent == t.next then [] else Pauses(backoffBase, sent - t.next - 1)
    {
      var response := DeliverOnce();
      if response.None? { return None; }
      outcome := Some(Classify(response.value, occurredAt, judge));
      if outcome.value.action == Refresh {
        response := DeliverOnce();
        if response.None? { return None; }
        outcome := Some(Classify(response.value, occurredAt, judge));
        if outcome.value.action == Refresh {
          return Some(Outcome(Halt, RefreshFailed));
        }
      }
    }
  }

  // ---- Drain ---------------------------------------------------------------------------------------

  /** The row of a settled event: delivered, or dead-lettered with the event. */
  method WriteRow(store: RelayStore, ledgerId: string, event: OutEvent, o: Outcome)
    requires o.action == Advance || o.action == DeadLetter
    modifies store`delivery, store`ticks
    ensures LedgerRows(store.delivery, ledgerId) ==
            if o.action == Advance then MarkDelivered(LedgerRows(old(store.delivery), ledgerId), event.Key())
            else LedgerRows(old(store.delivery), ledgerId)[event.Key() := DeadLettered(event, o.reason)]
    ensures forall other :: other != ledgerId ==>
                LedgerRows(store.delivery, other) == LedgerRows(old(store.delivery), other)
    ensures store.ticks == old(store.ticks) + 1
    ensures StampedBy(old(store.delivery), store.delivery, ledgerId, store.clock, old(store.ticks), store.ticks)
  {
    hide LedgerRows, StampedBy;
    ghost var before, tick := store.delivery, store.ticks;
    if o.action == Advance {
      StampedOne(before, ledgerId, event.Key(), DeliveryRow(Delivered, store.clock(tick)), store.clock, tick);
      store.MarkSettled(ledgerId, event.Key());
    } else {
      StampedOne(before, ledgerId, event.Key(), DeliveryRow(DeadLettered(event, o.reason), store.clock(tick)),
                 store.clock, tick);
      store.DeadLetter(ledgerId, event, o.reason);
    }
  }

  /** `drain`: project the log, skip what is settled, deliver the rest in order; None when the client raised. */
  method DrainInPlace(store: RelayStore, client: Client, ledgerId: string, tasks: map<string, TaskEntry>,
                      sender: Sender, log: seq<LogEvent>, judge: Judge) returns (result: Option<Report>)
    modifies store`delivery, store`ticks, client
    ensures var d := Drain(client.net, Project(tasks, sender, log), LedgerRows(old(store.delivery), ledgerId), judge,
                           client.maxRetries, old(client.sent));
      && LedgerRows(store.delivery, ledgerId) == d.rows && client.sent == d.next
      && result == if d.raised then None else Some(d.report)
    ensures forall other :: other != ledgerId ==>
                LedgerRows(store.delivery, other) == LedgerRows(old(store.delivery), other)
    ensures old(store.ticks) <= store.ticks
    ensures StampedBy(old(store.delivery), store.delivery, ledgerId, store.clock, old(store.ticks), store.ticks)
  {
    hide StampedBy, LedgerRows, Project, Deliver, OutEvent.Key;
    StampedNothing(store.delivery, ledgerId, store.clock, store.ticks);
    var events := ToExecutionEvents(tasks, sender, log);
    var settled := store.LoadSettled(ledgerId);
    var report := EMPTY_REPORT;
    ghost var start := LedgerRows(store.delivery, ledgerId);
    ghost var goal := DrainFrom(client.net, events, 0, settled, judge, client.maxRetries,
                                Drained(start, report, false, client.sent));
    for i := 0 to |events|
      invariant report.pending == [] && report.halted.None?
      invariant forall other :: other != ledgerId ==>
                LedgerRows(store.delivery, other) == LedgerRows(old(store.delivery), other)
      invariant goal == DrainFrom(client.net, events, i, settled, judge, client.maxRetries,
                                  Drained(LedgerRows(store.delivery, ledgerId), report, false, client.sent))
      invariant old(store.ticks) <= store.ticks
      invariant StampedBy(old(store.delivery), store.delivery, ledgerId, store.clock, old(store.ticks), store.ticks)
    {
      var event := events[i];
      if event.Key() in settled { continue; }
      var outcome := client.DeliverWithRefresh(event.body.occurredAt, judge);
      if outcome.None? { return None; }
      ghost var before, tick := store.delivery, store.ticks;
      if outcome.value.action == Advance {
        WriteRow(store, ledgerId, event, outcome.value);
        StampedStep(old(store.delivery), before, store.delivery, ledgerId, store.clock, old(store.ticks), tick);
        report := report.(delivered := report.delivered + [event.Key()]);
      } else if outcome.value.action == DeadLetter {
        WriteRow(store, ledgerId, event, outcome.value);
        StampedStep(old(store.delivery), before, store.delivery, ledgerId, store.clock, old(store.ticks), tick);
        report := report.(deadLettered := report.deadLettered + [event.Key()]);
      } else if outcome.value.action == TryLater {
        report := report.(pending := report.pending + [event.Key()]);
        return Some(report);
      } else {
        report := report.(pending := report.pending + [event.Key()], halted := Some(outcome.value.reason));
        return Some(report);
      }
    }
    result := Some(report);
  }
}
