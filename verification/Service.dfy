/** The receiver's request handler and worker in the imperative form of the source, one process on its own. */
module Service {
  import opened Prelude
  import opened HashChain
  import opened Ledgers
  import opened RunLoop
  import opened Gates
  import opened Engine
  import opened Projection
  import opened Relay
  import opened RelayStores
  import Orchestrator
  import TextOrder

  datatype Answer = Duplicate | AcceptedForRun | Busy

  /** The settled status: a run counts as done unless something raised or the drain halted. */
  predicate WorkDone(report: Option<Report>) { report.Some? && Ok(report.value) }

  function LedgerId(m: Manifest): string { "LEDGER-" + m.source.iplan }

  /** Ledgers share rows exactly when they are of one IPLAN, whatever its version; the id ends with the IPLAN's own. */
  lemma LedgerIdNamesIplan(a: Manifest, b: Manifest)
    ensures LedgerId(a) == LedgerId(b) <==> a.source.iplan == b.source.iplan
    ensures |LedgerId(a)| >= 7 && LedgerId(a)[..7] == "LEDGER-" && LedgerId(a)[7..] == a.source.iplan
  {
    assert LedgerId(a)[7..] == a.source.iplan && LedgerId(b)[7..] == b.source.iplan;
  }

  /** What the run of a task puts into the outbox: the events projected from the ledger of a history of one run. */
  ghost function RunEvents(h: Hash, host: Host, m: Manifest, w: World, cfg: Config, sender: Sender): seq<OutEvent> {
    Projected(h, sender, History(host, m, w, cfg, []).l)
  }

  /**
   * What lies between a won claim and the settle. Without a manifest, or with one the engine refuses, nothing is run
   * or sent, and there is no report. Otherwise the engine runs it, and what its ledger projects is drained.
   */
  ghost predicate RanAndDrained(h: Hash, host: Host, manifest: Option<Manifest>, w: World, w': World, cfg: Config,
                                sender: Sender, net: Network, before: DeliveryTable, after: DeliveryTable, judge: Judge,
                                retries: int, sent: nat, sent': nat, report: Option<Report>)
  {
    if manifest.None? || !ValidIntake(manifest.value) then
      report.None? && after == before && sent' == sent && w' == w
    else
      var m := manifest.value;
      var events := RunEvents(h, host, m, w, cfg, sender);
      var d := Drain(net, events, LedgerRows(before, LedgerId(m)), judge, retries, sent);
      && w' == Run(host, m, w, cfg).w
      && LedgerRows(after, LedgerId(m)) == d.rows && sent' == d.next
      && report == (if d.raised then None else Some(d.report))
      && (forall other :: other != LedgerId(m) ==> LedgerRows(after, other) == LedgerRows(before, other))
      && (WorkDone(report) && NoDuplicates(Keys(events)) ==>
            (AllSettled(events, d.rows) <==> report.value.pending == []))
  }

  /** `do_POST` on the task states and the free slots. */
  predicate Posted(before: States, free: nat, key: (string, string), after: States, left: nat, answer: Answer) {
    && after == AcceptedIn(before, key)
    && answer == (if !Claimable(after, key) then Duplicate else if free == 0 then Busy else AcceptedForRun)
    && free == left + if answer == AcceptedForRun then 1 else 0
  }

  /** The worker thread on the task states and the free slots: claim, settle with `ok`, sweep, give the slot back. */
  predicate Worked(before: States, free: nat, key: (string, string), after: States, left: nat, won: bool, ok: bool,
                   swept: set<(string, string)>)
  {
    && won == Claimable(before, key) && left == free + 1
    && if won then SweptStates(SettledIn(ClaimedIn(before, key), key, ok), after, swept) else after == before
  }

  /** What the retention sweep may do to the task states: the rows of `swept` go, all of them terminal. */
  predicate SweptStates(before: States, after: States, swept: set<(string, string)>) {
    after == before - swept && forall key :: key in swept ==> key in before && Terminal(before[key])
  }

  /**
   * The row of a task settled at this time, behind the sweep: it is gone if it is older than the cutoff, and otherwise
   * there, done or failed, with that time.
   */
  predicate SettledRow(tasks: TaskTable, key: (string, string), ok: bool, at: string, cutoff: string) {
    if Expired(at, cutoff) then key !in tasks
    else key in tasks && tasks[key] == TaskRow(if ok then TaskDone else TaskFailed, at)
  }

  /** A request for a settled task that was not swept is answered as a duplicate and changes nothing. */
  lemma SettledIsDuplicate(tasks: TaskTable, key: (string, string), ok: bool, at: string, cutoff: string, free: nat,
                           after: States, left: nat, answer: Answer)
    requires SettledRow(tasks, key, ok, at, cutoff) && !TextOrder.Before(at, cutoff)
    requires Posted(StatesOf(tasks), free, key, after, left, answer)
    ensures answer == Duplicate && after == StatesOf(tasks) && left == free
  {
  }

  /** The task rows once this one is settled. */
  function SettledTable(tasks: TaskTable, key: (string, string), ok: bool, at: string): TaskTable {
    tasks[key := TaskRow(if ok then TaskDone else TaskFailed, at)]
  }

  lemma SettledOver(tasks: TaskTable, key: (string, string), row: TaskRow, ok: bool, at: string)
    ensures SettledTable(tasks[key := row], key, ok, at) == SettledTable(tasks, key, ok, at)
  {
  }

  lemma SettledState(tasks: TaskTable, key: (string, string), ok: bool, at: string, cutoff: string)
    requires SettledRow(tasks, key, ok, at, cutoff)
    ensures StateOf(tasks, key) in {None, Some(if ok then TaskDone else TaskFailed)}
  {
  }

  /** The sweep spares unfinished rows and unexpired ones, and changes none. */
  predicate TasksSweptTo(before: TaskTable, after: TaskTable, cutoff: string) {
    && after.Keys <= before.Keys && (forall key :: key in after ==> after[key] == before[key])
    && forall key :: key in before ==>
         (key in after <==> !(Terminal(before[key].state) && Expired(before[key].updatedAt, cutoff)))
  }

  /** Settle one running row, then sweep: what becomes of that row, of the others and of the states. */
  lemma SettledThenSwept(before: TaskTable, settled: TaskTable, after: TaskTable, key: (string, string), ok: bool,
                         at: string, cutoff: string)
    requires key in before && before[key].state == TaskRunning
    requires settled == before[key := TaskRow(if ok then TaskDone else TaskFailed, at)]
    requires TasksSweptTo(settled, after, cutoff)
    ensures SettledRow(after, key, ok, at, cutoff)
    ensures forall other :: other != key ==> MovesOn(StateOf(before, other), StateOf(after, other))
    ensures SweptStates(StatesOf(settled), StatesOf(after), settled.Keys - after.Keys)
  {
    hide Expired;
    SweepIsOnStates(settled, after);
  }

  lemma SweepIsOnStates(before: TaskTable, after: TaskTable)
    requires after.Keys <= before.Keys && forall key :: key in after ==> after[key] == before[key]
    requires forall key :: key in before && key !in after ==> Terminal(before[key].state)
    ensures SweptStates(StatesOf(before), StatesOf(after), before.Keys - after.Keys)
  {
    var swept := before.Keys - after.Keys;
    forall key ensures key in StatesOf(after) <==> key in StatesOf(before) - swept {}
  }

  class Server {
    const store: RelayStore
    const client: Client
    const h: Hash
    const cfg: Config
    var free: nat

    constructor (store: RelayStore, client: Client, h: Hash, cfg: Config, maxParallel: nat)
      ensures this.store == store && this.client == client && this.h == h && this.cfg == cfg && free == maxParallel
    {
      this.store, this.client, this.h, this.cfg, free := store, client, h, cfg, maxParallel;
    }

    /** `do_POST` once the payload is valid: accept durably, then take a slot or answer busy. */
    method Post(runId: string, taskId: string) returns (answer: Answer)
      modifies this`free, store`tasks, store`ticks
      ensures answer == Duplicate <==> StateOf(old(store.tasks), (runId, taskId)) !in {None, Some(TaskAccepted)}
      ensures answer != Duplicate ==> StateOf(store.tasks, (runId, taskId)) == Some(TaskAccepted)
      ensures answer == Busy ==> old(free) == 0
      ensures free + (if answer == AcceptedForRun then 1 else 0) == old(free)
      ensures forall key :: MovesOn(StateOf(old(store.tasks), key), StateOf(store.tasks, key))
      ensures Posted(StatesOf(old(store.tasks)), old(free), (runId, taskId), StatesOf(store.tasks), free, answer)
      ensures forall key :: key in old(store.tasks) ==> key in store.tasks && store.tasks[key] == old(store.tasks)[key]
      ensures (runId, taskId) !in old(store.tasks) ==>
                store.tasks[(runId, taskId)] == TaskRow(TaskAccepted, store.clock(old(store.ticks)))
      ensures store.ticks == old(store.ticks) + 1
    {
      var decision := store.AcceptTask(runId, taskId);
      if decision == Replay { return Duplicate; }
      if free == 0 { return Busy; }
      free := free - 1;
      return AcceptedForRun;
    }

    /**
     * The part of `execute` between the claim and the settle: run the manifest, then drain its ledger. None stands for
     * an exception: no manifest could be made of the payload, the engine refused it, or the client raised.
     */
    method RunAndDrain(manifest: Option<Manifest>, port: Port, sender: Sender, judge: Judge)
      returns (report: Option<Report>)
      modifies store`delivery, store`ticks, client, port
      ensures RanAndDrained(h, port.host, manifest, old(port.w), port.w, cfg, sender, client.net, old(store.delivery),
                            store.delivery, judge, client.maxRetries, old(client.sent), client.sent, report)
      ensures old(store.ticks) <= store.ticks
      ensures manifest.Some? ==> StampedBy(old(store.delivery), store.delivery, LedgerId(manifest.value), store.clock,
                                           old(store.ticks), store.ticks)
    {
      hide StampedBy;
      if manifest.Some? {
        StampedNothing(store.delivery, LedgerId(manifest.value), store.clock, store.ticks);
      }
      hide Drain, Run, ValidIntake, GateReport, LedgerRows, Seal, Project, Bodies, AllSettled, NoDuplicates, RunEvents;
      if manifest.None? { return None; }
      var ledger, result := Orchestrator.RunManifest(h, manifest.value, port, cfg, None);
      if ledger == null { return None; }
      LogOf(ledger);
      RunEventsAre(h, port.host, manifest.value, old(port.w), cfg, sender);
      report := DrainInPlace(store, client, LedgerId(manifest.value), ledger.tasks, sender, ledger.log, judge);
      DoneMeans(h, port.host, manifest.value, old(port.w), cfg, sender, client.net,
                LedgerRows(old(store.delivery), LedgerId(manifest.value)), judge, client.maxRetries, old(client.sent));
    }

    /**
     * `execute`: claim, run, drain, settle, sweep. A lost claim touches nothing. A won one leaves `drained` for the
     * sweep, and a row stamped with the settle time, done exactly when the drain reported without halting, unless the
     * cutoff is already behind that time.
     */
    method Execute(runId: string, taskId: string, manifest: Option<Manifest>, port: Port, sender: Sender, judge: Judge,
                   env: Option<string>)
      returns (won: bool, report: Option<Report>, ghost drained: DeliveryTable, ghost cutoff: string,
               ghost swept: set<(string, string)>, ghost settled: nat)
      modifies store, client, port
      ensures won <==> StateOf(old(store.tasks), (runId, taskId)) == Some(TaskAccepted)
      ensures !won ==> store.tasks == old(store.tasks) && store.delivery == drained == old(store.delivery)
      ensures !won ==> client.sent == old(client.sent) && report.None?
      ensures won ==>
                StateOf(store.tasks, (runId, taskId)) in {None, Some(if WorkDone(report) then TaskDone else TaskFailed)}
      ensures won ==> SweptTo(drained, store.delivery, cutoff)
      ensures won ==> old(store.ticks) < settled
      ensures won ==> SettledRow(store.tasks, (runId, taskId), WorkDone(report), store.clock(settled), cutoff)
      ensures won ==> TasksSweptTo(SettledTable(old(store.tasks), (runId, taskId), WorkDone(report),
                                                store.clock(settled)), store.tasks, cutoff)
      ensures won ==> cutoff == store.earlier(store.clock(settled + 1), RetentionWindow(None, env, store.parse))
      ensures won && manifest.Some? ==> StampedBy(old(store.delivery), drained, LedgerId(manifest.value), store.clock,
                                                  old(store.ticks) + 1, settled)
      ensures forall key :: key != (runId, taskId) ==>
                MovesOn(StateOf(old(store.tasks), key), StateOf(store.tasks, key))
      ensures !won ==> port.w == old(port.w)
      ensures won ==> RanAndDrained(h, port.host, manifest, old(port.w), port.w, cfg, sender, client.net,
                                    old(store.delivery), drained, judge, client.maxRetries, old(client.sent),
                                    client.sent, report)
      ensures Worked(StatesOf(old(store.tasks)), 0, (runId, taskId), StatesOf(store.tasks), 1, won, WorkDone(report),
                     swept)
    {
      hide Drain, Run, ValidIntake, LedgerRows, RunEvents, AllSettled, NoDuplicates, Expired, SweptTo, SweptStates;
      hide StampedBy, SettledRow, RetentionWindow, RanAndDrained, TasksSweptTo;
      StatesAgree(store.tasks, (runId, taskId));
      drained, cutoff, report, swept, settled := store.delivery, "", None, {}, 0;
      won := store.ClaimTask(runId, taskId);
      if !won { return; }
      assert store.tasks == old(store.tasks)[(runId, taskId) := store.tasks[(runId, taskId)]];
      StatesAgree(store.tasks, (runId, taskId));
      report := RunAndDrain(manifest, port, sender, judge);
      drained := store.delivery;
      settled := store.ticks;
      SettledOver(old(store.tasks), (runId, taskId), store.tasks[(runId, taskId)], WorkDone(report),
                  store.clock(settled));
      hide SettledTable;
      cutoff, swept := SettleAndSweep(runId, taskId, WorkDone(report), env);
    }

    /** The end of `execute`: record the terminal status, then the bounded retention sweep. */
    method SettleAndSweep(runId: string, taskId: string, ok: bool, env: Option<string>)
      returns (ghost cutoff: string, ghost swept: set<(string, string)>)
      requires StateOf(store.tasks, (runId, taskId)) == Some(TaskRunning)
      modifies store
      ensures StateOf(store.tasks, (runId, taskId)) in {None, Some(if ok then TaskDone else TaskFailed)}
      ensures SweptTo(old(store.delivery), store.delivery, cutoff)
      ensures forall key :: key != (runId, taskId) ==>
                MovesOn(StateOf(old(store.tasks), key), StateOf(store.tasks, key))
      ensures SweptStates(SettledIn(StatesOf(old(store.tasks)), (runId, taskId), ok), StatesOf(store.tasks), swept)
      ensures SettledRow(store.tasks, (runId, taskId), ok, store.clock(old(store.ticks)), cutoff)
      ensures TasksSweptTo(SettledTable(old(store.tasks), (runId, taskId), ok, store.clock(old(store.ticks))),
                           store.tasks, cutoff)
      ensures cutoff == store.earlier(store.clock(old(store.ticks) + 1), RetentionWindow(None, env, store.parse))
    {
      hide Expired, SweptTo, RetentionWindow, SettledRow, SweptStates, MovesOn, Terminal;
      ghost var before, at := store.tasks, store.clock(store.ticks);
      store.SettleTask(runId, taskId, ok);
      cutoff := store.Cutoff(None, env);
      ghost var settled := store.tasks;
      var _, _ := store.PruneSettled(None, env);
      assert TasksSweptTo(settled, store.tasks, cutoff);
      hide TasksSweptTo;
      SettledThenSwept(before, settled, store.tasks, (runId, taskId), ok, at, cutoff);
      SettledState(store.tasks, (runId, taskId), ok, at, cutoff);
      swept := settled.Keys - store.tasks.Keys;
    }

    /** The worker thread: execute, and give the slot back whatever happened. */
    method RunWorker(runId: string, taskId: string, manifest: Option<Manifest>, port: Port, sender: Sender,
                     judge: Judge, env: Option<string>)
      returns (won: bool, ghost report: Option<Report>, ghost drained: DeliveryTable, ghost cutoff: string,
               ghost swept: set<(string, string)>, ghost settled: nat)
      modifies this`free, store, client, port
      ensures won <==> StateOf(old(store.tasks), (runId, taskId)) == Some(TaskAccepted)
      ensures free == old(free) + 1
      ensures forall key :: key != (runId, taskId) ==>
                MovesOn(StateOf(old(store.tasks), key), StateOf(store.tasks, key))
      ensures Worked(StatesOf(old(store.tasks)), old(free), (runId, taskId), StatesOf(store.tasks), free, won,
                     WorkDone(report), swept)
      ensures !won ==> store.tasks == old(store.tasks) && store.delivery == old(store.delivery)
      ensures !won ==> client.sent == old(client.sent) && port.w == old(port.w)
      ensures won ==> RanAndDrained(h, port.host, manifest, old(port.w), port.w, cfg, sender, client.net,
                                    old(store.delivery), drained, judge, client.maxRetries, old(client.sent),
                                    client.sent, report)
      ensures won ==> SweptTo(drained, store.delivery, cutoff)
      ensures won ==> SettledRow(store.tasks, (runId, taskId), WorkDone(report), store.clock(settled), cutoff)
      ensures won ==> TasksSweptTo(SettledTable(old(store.tasks), (runId, taskId), WorkDone(report),
                                                store.clock(settled)), store.tasks, cutoff)
      ensures won ==> cutoff == store.earlier(store.clock(settled + 1), RetentionWindow(None, env, store.parse))
    {
      hide Drain, Run, ValidIntake, LedgerRows, RunEvents, SweptTo, SweptStates, SettledRow, StampedBy, RanAndDrained;
      hide TasksSweptTo;
      won, report, drained, cutoff, swept, settled := Execute(runId, taskId, manifest, port, sender, judge, env);
      free := free + 1;
    }
  }

  /** The events the worker drains are those its ledger projects. */
  lemma RunEventsAre(h: Hash, host: Host, m: Manifest, w: World, cfg: Config, sender: Sender)
    ensures var l := Run(host, m, w, cfg).l;
      RunEvents(h, host, m, w, cfg, sender) == Project(l.tasks, sender, Seal(h, l.events))
  {
    hide Run, Project, Seal;
    assert History(host, m, w, cfg, []) == Run(host, m, w, cfg);
  }

  lemma LogOf(ledger: RunLedger)
    requires ledger.Valid()
    ensures ledger.log == Seal(ledger.h, ledger.Value().events) && ledger.tasks == ledger.Value().tasks
  {
    hide Seal, Bodies;
  }

  /** Of a drain that reported, over events with distinct keys. */
  lemma DoneMeans(h: Hash, host: Host, m: Manifest, w: World, cfg: Config, sender: Sender, net: Network,
                  rows: map<string, Row>, judge: Judge, retries: int, n: nat)
    ensures var events := RunEvents(h, host, m, w, cfg, sender);
      var d := Drain(net, events, rows, judge, retries, n);
      !d.raised && NoDuplicates(Keys(events)) ==> (AllSettled(events, d.rows) <==> d.report.pending == [])
  {
    hide RunEvents, Drain, NoDuplicates, AllSettled;
    var events := RunEvents(h, host, m, w, cfg, sender);
    if !Drain(net, events, rows, judge, retries, n).raised && NoDuplicates(Keys(events)) {
      SettledIffNothingPending(net, events, rows, judge, retries, n);
    }
  }

  /**
   * When a task settles as done with an event left over: the drain reported, and its last answer, for the first event
   * without a row, was a server error or a skew that is not stale.
   */
  lemma DoneWithPendingIff(h: Hash, host: Host, m: Manifest, w: World, cfg: Config, sender: Sender, net: Network,
                           rows: map<string, Row>, judge: Judge, retries: int, n: nat)
    ensures var events := RunEvents(h, host, m, w, cfg, sender);
      var d := Drain(net, events, rows, judge, retries, n);
      var report := if d.raised then None else Some(d.report);
      NoDuplicates(Keys(events)) ==>
        (WorkDone(report) && !AllSettled(events, d.rows) <==>
          && !d.raised
          && exists i: nat :: FirstOpen(events, d.rows, i) && d.next > 0 && net(d.next - 1).Answered?
                           && Transient(net(d.next - 1).response, events[i].body.occurredAt, judge))
  {
    hide RunEvents, Drain, NoDuplicates, AllSettled, FirstOpen, Transient;
    var events := RunEvents(h, host, m, w, cfg, sender);
    var d := Drain(net, events, rows, judge, retries, n);
    if !d.raised && NoDuplicates(Keys(events)) {
      SettledIffNothingPending(net, events, rows, judge, retries, n);
      OkButPendingIff(net, events, rows, judge, retries, n);
    }
  }
}
