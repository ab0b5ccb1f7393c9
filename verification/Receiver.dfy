/**
 * The inbound door as a transition system: any number of server processes over one task table, each with its POST
 * handlers, its slots and its worker threads. Every table access and every slot operation is one atomic step.
 */
module Receiver {
  import opened Prelude
  import opened RelayStores

  type Key = (string, string)

  /** A job starts as a request past `accept_task`; from `Launching` to `Finishing` it holds a slot of its process. */
  datatype Stage = Admitted | Launching | Working | Claimed | Finishing
  datatype Job = Job(process: nat, key: Key, stage: Stage)
  datatype Process = Process(maxParallel: nat, free: nat)

  /** What happened to a key: its run was won by a job, or its row was swept. */
  datatype Note = Won(key: Key, job: nat) | Swept(key: Key)

  datatype Door = Door(tasks: States, processes: map<nat, Process>, jobs: map<nat, Job>, notes: seq<Note>)

  datatype Act =
    | Boot(process: nat, maxParallel: nat)
    | Post(job: nat, process: nat, key: Key)
    | Acquire(job: nat)
    | Launch(job: nat)
    | Claim(job: nat)
    | ClaimRaises(job: nat)
    | Settle(job: nat, ok: bool)
    | SettleRaises(job: nat)
    | Sweep(key: Key)
    | Release(job: nat)
    | Kill(process: nat)

  predicate HasJob(s: Door, job: nat, stage: Stage) {
    job in s.jobs && s.jobs[job].stage == stage && s.jobs[job].process in s.processes
  }

  predicate Enabled(s: Door, a: Act) {
    match a
    case Boot(p, _) => p !in s.processes
    case Post(job, p, _) => job !in s.jobs && p in s.processes
    case Acquire(job) => HasJob(s, job, Admitted)
    case Launch(job) => HasJob(s, job, Launching)
    case Claim(job) => HasJob(s, job, Working)
    case ClaimRaises(job) => HasJob(s, job, Working)
    case Settle(job, _) => HasJob(s, job, Claimed)
    case SettleRaises(job) => HasJob(s, job, Claimed)
    case Sweep(key) => key in s.tasks && Terminal(s.tasks[key])
    case Release(job) => HasJob(s, job, Finishing)
    case Kill(p) => p in s.processes
  }

  function AtStage(s: Door, job: nat, stage: Stage): Door
    requires job in s.jobs
  {
    s.(jobs := s.jobs[job := s.jobs[job].(stage := stage)])
  }

  /** `accept_task`, as `RelayStore.AcceptTask` has it: a replayed request ends here. */
  function OnPost(s: Door, job: nat, p: nat, key: Key): Door {
    var tasks := AcceptedIn(s.tasks, key);
    if !Claimable(tasks, key) then s
    else s.(tasks := tasks, jobs := s.jobs[job := Job(p, key, Admitted)])
  }

  /** Take a free slot, or turn the request away as busy; its row stays accepted. */
  function OnAcquire(s: Door, job: nat): Door
    requires job in s.jobs && s.jobs[job].process in s.processes
  {
    var p := s.jobs[job].process;
    if s.processes[p].free == 0 then s.(jobs := s.jobs - {job})
    else AtStage(s, job, Launching).(processes := s.processes[p := s.processes[p].(free := s.processes[p].free - 1)])
  }

  function OnClaim(s: Door, job: nat): Door
    requires job in s.jobs
  {
    var key := s.jobs[job].key;
    if Claimable(s.tasks, key)
    then AtStage(s, job, Claimed).(tasks := ClaimedIn(s.tasks, key), notes := s.notes + [Won(key, job)])
    else AtStage(s, job, Finishing)
  }

  function OnSettle(s: Door, job: nat, ok: bool): Door
    requires job in s.jobs
  {
    var key := s.jobs[job].key;
    AtStage(s, job, Finishing).(tasks := SettledIn(s.tasks, key, ok))
  }

  function OnRelease(s: Door, job: nat): Door
    requires job in s.jobs && s.jobs[job].process in s.processes
  {
    var p := s.jobs[job].process;
    s.(jobs := s.jobs - {job}, processes := s.processes[p := s.processes[p].(free := s.processes[p].free + 1)])
  }

  /** A process dies with all its handlers and daemon threads; the table survives. */
  function OnKill(s: Door, p: nat): Door {
    s.(processes := s.processes - {p}, jobs := map job | job in s.jobs && s.jobs[job].process != p :: s.jobs[job])
  }

  /** One step; an action that is not enabled changes nothing, so every list of actions is a run. */
  function Do(s: Door, a: Act): Door {
    if !Enabled(s, a) then s
    else
      match a
      case Boot(p, n) => s.(processes := s.processes[p := Process(n, n)])
      case Post(job, p, key) => OnPost(s, job, p, key)
      case Acquire(job) => OnAcquire(s, job)
      case Launch(job) => AtStage(s, job, Working)
      case Claim(job) => OnClaim(s, job)
      case ClaimRaises(job) => AtStage(s, job, Finishing)
      case Settle(job, ok) => OnSettle(s, job, ok)
      case SettleRaises(job) => AtStage(s, job, Finishing)
      case Sweep(key) => s.(tasks := s.tasks - {key}, notes := s.notes + [Swept(key)])
      case Release(job) => OnRelease(s, job)
      case Kill(p) => OnKill(s, p)
  }

  const CLOSED := Door(map[], map[], map[], [])

  function After(s: Door, acts: seq<Act>): Door {
    if acts == [] then s else Do(After(s, acts[..|acts| - 1]), acts[|acts| - 1])
  }

  // ---- Invariant -----------------------------------------------------------------------------------

  function SlotHolders(s: Door, p: nat): set<nat> {
    set job | job in s.jobs && s.jobs[job].process == p && s.jobs[job].stage != Admitted
  }

  /** Free slots plus slot holders add up to the capacity of every live process. */
  predicate SlotsAddUp(s: Door) {
    forall p :: p in s.processes ==> s.processes[p].free + |SlotHolders(s, p)| == s.processes[p].maxParallel
  }

  predicate JobsLive(s: Door) {
    forall job :: job in s.jobs ==> s.jobs[job].process in s.processes
  }

  /** A claimed job owns its row, and it alone. */
  predicate ClaimsOwn(s: Door) {
    && (forall job :: job in s.jobs && s.jobs[job].stage == Claimed ==>
          s.jobs[job].key in s.tasks && s.tasks[s.jobs[job].key] == TaskRunning)
    && (forall i, j ::
          i in s.jobs && j in s.jobs && i != j && s.jobs[i].stage == Claimed && s.jobs[j].stage == Claimed ==>
          s.jobs[i].key != s.jobs[j].key)
  }

  predicate SweptAfter(notes: seq<Note>, i: nat, key: Key) {
    exists m :: i < m < |notes| && notes[m] == Swept(key)
  }

  /** A won key that was not swept since still has a row past `accepted`. */
  predicate WinsRemembered(s: Door) {
    forall i :: 0 <= i < |s.notes| && s.notes[i].Won? && !SweptAfter(s.notes, i, s.notes[i].key) ==>
      s.notes[i].key in s.tasks && s.tasks[s.notes[i].key] != TaskAccepted
  }

  /** Two wins of one key have a sweep of its row between them. */
  predicate OneWinBetweenSweeps(notes: seq<Note>) {
    forall i, j :: 0 <= i < j < |notes| && notes[i].Won? && notes[j].Won? && notes[i].key == notes[j].key ==>
      exists m :: i < m < j && notes[m] == Swept(notes[i].key)
  }

  predicate DoorInv(s: Door) {
    JobsLive(s) && SlotsAddUp(s) && ClaimsOwn(s) && WinsRemembered(s) && OneWinBetweenSweeps(s.notes)
  }

  // ---- Slots ---------------------------------------------------------------------------------------

  lemma ArrivalKeepsSlots(s: Door, a: Act)
    requires Enabled(s, a) && JobsLive(s) && SlotsAddUp(s) && (a.Boot? || a.Post?)
    ensures JobsLive(Do(s, a)) && SlotsAddUp(Do(s, a))
  {
    var s' := Do(s, a);
    if a.Boot? { assert SlotHolders(s', a.process) == {}; }
    forall q | q in s.processes ensures SlotHolders(s', q) == SlotHolders(s, q) {}
  }

  lemma BusyKeepsSlots(s: Door, job: nat)
    requires Enabled(s, Acquire(job)) && JobsLive(s) && SlotsAddUp(s) && s.processes[s.jobs[job].process].free == 0
    ensures JobsLive(OnAcquire(s, job)) && SlotsAddUp(OnAcquire(s, job))
  {
    forall q | q in s.processes ensures SlotHolders(OnAcquire(s, job), q) == SlotHolders(s, q) {}
  }

  /** Exactly the slots of process `p` change, and by as much as its free count. */
  lemma SlotsMove(s: Door, s': Door, p: nat, free: nat, holders: set<nat>)
    requires SlotsAddUp(s) && p in s.processes && free + |holders| == s.processes[p].free + |SlotHolders(s, p)|
    requires s'.processes == s.processes[p := s.processes[p].(free := free)] && SlotHolders(s', p) == holders
    requires forall q :: q in s.processes && q != p ==> SlotHolders(s', q) == SlotHolders(s, q)
    ensures SlotsAddUp(s')
  {
    hide SlotHolders;
  }

  lemma AcquireKeepsSlots(s: Door, job: nat)
    requires Enabled(s, Acquire(job)) && JobsLive(s) && SlotsAddUp(s)
    ensures JobsLive(OnAcquire(s, job)) && SlotsAddUp(OnAcquire(s, job))
  {
    hide SlotsAddUp;
    var s', p := OnAcquire(s, job), s.jobs[job].process;
    if s.processes[p].free == 0 {
      BusyKeepsSlots(s, job);
    } else {
      assert job !in SlotHolders(s, p);
      forall q | q in s.processes && q != p ensures SlotHolders(s', q) == SlotHolders(s, q) {}
      assert SlotHolders(s', p) == SlotHolders(s, p) + {job};
      SlotsMove(s, s', p, s.processes[p].free - 1, SlotHolders(s, p) + {job});
    }
  }

  lemma ReleaseKeepsSlots(s: Door, job: nat)
    requires Enabled(s, Release(job)) && JobsLive(s) && SlotsAddUp(s)
    ensures JobsLive(OnRelease(s, job)) && SlotsAddUp(OnRelease(s, job))
  {
    hide SlotsAddUp;
    var s', p := OnRelease(s, job), s.jobs[job].process;
    assert job in SlotHolders(s, p);
    forall q | q in s.processes && q != p ensures SlotHolders(s', q) == SlotHolders(s, q) {}
    assert SlotHolders(s', p) == SlotHolders(s, p) - {job};
    SlotsMove(s, s', p, s.processes[p].free + 1, SlotHolders(s, p) - {job});
  }

  lemma KillKeepsSlots(s: Door, p: nat)
    requires JobsLive(s) && SlotsAddUp(s)
    ensures JobsLive(OnKill(s, p)) && SlotsAddUp(OnKill(s, p))
  {
    forall q | q in s.processes && q != p ensures SlotHolders(OnKill(s, p), q) == SlotHolders(s, q) {}
  }

  /** The other steps change table rows and notes, and the stage of at most one slot holder. */
  lemma SameSlots(s: Door, s': Door, job: nat, stage: Stage)
    requires job in s.jobs && s.jobs[job].stage != Admitted && stage != Admitted && JobsLive(s) && SlotsAddUp(s)
    requires s'.processes == s.processes && s'.jobs == s.jobs[job := s.jobs[job].(stage := stage)]
    ensures JobsLive(s') && SlotsAddUp(s')
  {
    forall q | q in s.processes ensures SlotHolders(s', q) == SlotHolders(s, q) {}
  }

  lemma SweepKeepsSlots(s: Door, key: Key)
    requires Enabled(s, Sweep(key)) && JobsLive(s) && SlotsAddUp(s)
    ensures JobsLive(Do(s, Sweep(key))) && SlotsAddUp(Do(s, Sweep(key)))
  {
    forall q | q in s.processes ensures SlotHolders(Do(s, Sweep(key)), q) == SlotHolders(s, q) {}
  }

  lemma StepKeepsSlots(s: Door, a: Act)
    requires Enabled(s, a) && JobsLive(s) && SlotsAddUp(s)
    ensures JobsLive(Do(s, a)) && SlotsAddUp(Do(s, a))
  {
    hide JobsLive, SlotsAddUp;
    match a
    case Boot(_, _) => ArrivalKeepsSlots(s, a);
    case Post(_, _, _) => ArrivalKeepsSlots(s, a);
    case Acquire(job) => AcquireKeepsSlots(s, job);
    case Release(job) => ReleaseKeepsSlots(s, job);
    case Kill(p) => KillKeepsSlots(s, p);
    case Sweep(key) => SweepKeepsSlots(s, key);
    case Launch(job) => SameSlots(s, Do(s, a), job, Working);
    case ClaimRaises(job) => SameSlots(s, Do(s, a), job, Finishing);
    case SettleRaises(job) => SameSlots(s, Do(s, a), job, Finishing);
    case Claim(job) => SameSlots(s, Do(s, a), job, Do(s, a).jobs[job].stage);
    case Settle(job, _) => SameSlots(s, Do(s, a), job, Finishing);
  }

  // ---- Claims --------------------------------------------------------------------------------------

  /** A row may change freely unless a claimed job owns it; then it stays running. */
  lemma OwnedRowsStay(s: Door, s': Door)
    requires ClaimsOwn(s)
    requires forall i :: i in s'.jobs && s'.jobs[i].stage == Claimed ==>
               i in s.jobs && s.jobs[i].stage == Claimed && s'.jobs[i].key == s.jobs[i].key
    requires forall i :: i in s'.jobs && s'.jobs[i].stage == Claimed ==>
               s'.jobs[i].key in s'.tasks && s'.tasks[s'.jobs[i].key] == TaskRunning
    ensures ClaimsOwn(s')
  {
  }

  lemma ClaimKeepsClaims(s: Door, job: nat)
    requires HasJob(s, job, Working) && ClaimsOwn(s)
    ensures ClaimsOwn(OnClaim(s, job))
  {
  }

  lemma SettleKeepsClaims(s: Door, job: nat, ok: bool)
    requires HasJob(s, job, Claimed) && ClaimsOwn(s)
    ensures ClaimsOwn(OnSettle(s, job, ok))
  {
  }

  /** Steps on one row that no claimed job can own. */
  lemma TableKeepsClaims(s: Door, a: Act)
    requires Enabled(s, a) && ClaimsOwn(s) && (a.Post? || a.Sweep?)
    ensures ClaimsOwn(Do(s, a))
  {
    OwnedRowsStay(s, Do(s, a));
  }

  /** Steps that leave the table alone and claim nothing. */
  lemma JobsKeepClaims(s: Door, s': Door)
    requires ClaimsOwn(s) && s'.tasks == s.tasks
    requires forall i :: i in s'.jobs && s'.jobs[i].stage == Claimed ==> i in s.jobs && s'.jobs[i] == s.jobs[i]
    ensures ClaimsOwn(s')
  {
    OwnedRowsStay(s, s');
  }

  lemma StepKeepsClaims(s: Door, a: Act)
    requires Enabled(s, a) && ClaimsOwn(s)
    ensures ClaimsOwn(Do(s, a))
  {
    hide OnClaim, OnSettle, OnPost, ClaimsOwn;
    match a
    case Claim(job) => ClaimKeepsClaims(s, job);
    case Settle(job, ok) => SettleKeepsClaims(s, job, ok);
    case Post(_, _, _) => TableKeepsClaims(s, a);
    case Sweep(_) => TableKeepsClaims(s, a);
    case _ => JobsKeepClaims(s, Do(s, a));
  }

  lemma SweptStays(notes: seq<Note>, note: Note, i: nat, key: Key)
    requires i < |notes|
    ensures SweptAfter(notes, i, key) ==> SweptAfter(notes + [note], i, key)
    ensures note == Swept(key) ==> SweptAfter(notes + [note], i, key)
  {
    if SweptAfter(notes, i, key) {
      var m :| i < m < |notes| && notes[m] == Swept(key);
      assert (notes + [note])[m] == Swept(key);
    } else if note == Swept(key) {
      assert (notes + [note])[|notes|] == note;
    }
  }

  lemma StepKeepsWins(s: Door, a: Act)
    requires Enabled(s, a) && ClaimsOwn(s) && WinsRemembered(s) && OneWinBetweenSweeps(s.notes)
    ensures WinsRemembered(Do(s, a)) && OneWinBetweenSweeps(Do(s, a).notes)
  {
    var s' := Do(s, a);
    forall i | 0 <= i < |s.notes| && s.notes[i].Won? && !SweptAfter(s'.notes, i, s.notes[i].key)
      ensures s.notes[i].key in s'.tasks && s'.tasks[s.notes[i].key] != TaskAccepted
    {
      if s'.notes != s.notes { SweptStays(s.notes, s'.notes[|s.notes|], i, s.notes[i].key); }
    }
    if a.Claim? {
      NewWin(s, a.job);
    } else if a.Sweep? {
      OldNotes(s.notes, Swept(a.key));
    }
  }

  lemma OldNotes(notes: seq<Note>, note: Note)
    requires OneWinBetweenSweeps(notes) && !note.Won?
    ensures OneWinBetweenSweeps(notes + [note])
  {
    var all := notes + [note];
    forall i, j | 0 <= i < j < |all| && all[i].Won? && all[j].Won? && all[i].key == all[j].key
      ensures exists m :: i < m < j && all[m] == Swept(all[i].key)
    {
      var m :| i < m < j && notes[m] == Swept(notes[i].key);
      assert all[m] == notes[m];
    }
  }

  lemma NewWin(s: Door, job: nat)
    requires job in s.jobs && WinsRemembered(s) && OneWinBetweenSweeps(s.notes)
    ensures OneWinBetweenSweeps(OnClaim(s, job).notes)
  {
    var all := OnClaim(s, job).notes;
    forall i, j | 0 <= i < j < |all| && all[i].Won? && all[j].Won? && all[i].key == all[j].key
      ensures exists m :: i < m < j && all[m] == Swept(all[i].key)
    {
      if j < |s.notes| {
        var m :| i < m < j && s.notes[m] == Swept(s.notes[i].key);
        assert all[m] == s.notes[m];
      } else {
        assert SweptAfter(s.notes, i, all[i].key);
        var m :| i < m < |s.notes| && s.notes[m] == Swept(all[i].key);
        assert all[m] == s.notes[m];
      }
    }
  }

  lemma StepKeepsDoor(s: Door, a: Act)
    requires DoorInv(s)
    ensures DoorInv(Do(s, a))
  {
    hide JobsLive, SlotsAddUp, ClaimsOwn, WinsRemembered, OneWinBetweenSweeps;
    if Enabled(s, a) {
      StepKeepsSlots(s, a);
      StepKeepsClaims(s, a);
      StepKeepsWins(s, a);
    }
  }

  lemma {:induction false} RunKeepsDoor(acts: seq<Act>)
    ensures DoorInv(After(CLOSED, acts))
  {
    if acts != [] {
      hide DoorInv, Do;
      RunKeepsDoor(acts[..|acts| - 1]);
      StepKeepsDoor(After(CLOSED, acts[..|acts| - 1]), acts[|acts| - 1]);
    } else {
      assert DoorInv(CLOSED);
    }
  }

  // ---- Every run -----------------------------------------------------------------------------------

  /** At most one job per (run_id, task_id) is between a won claim and its settle, in all processes together. */
  lemma OneRunnerPerTask(acts: seq<Act>, i: nat, j: nat)
    requires var s := After(CLOSED, acts);
      i in s.jobs && j in s.jobs && s.jobs[i].stage == Claimed && s.jobs[j].stage == Claimed
          && s.jobs[i].key == s.jobs[j].key
    ensures var s := After(CLOSED, acts); i == j && s.jobs[i].key in s.tasks && s.tasks[s.jobs[i].key] == TaskRunning
  {
    RunKeepsDoor(acts);
  }

  /** A key is won at most once between two sweeps of its row, however often it is posted, retried or crashed. */
  lemma WonOnceBetweenSweeps(acts: seq<Act>, i: nat, j: nat)
    requires var n := After(CLOSED, acts).notes; i < j < |n| && n[i].Won? && n[j].Won? && n[i].key == n[j].key
    ensures var n := After(CLOSED, acts).notes; exists m :: i < m < j && n[m] == Swept(n[i].key)
  {
    RunKeepsDoor(acts);
  }

  /** Every step moves every row forward only: accepted, running, done or failed, gone. */
  lemma RowsOnlyMoveOn(acts: seq<Act>, a: Act, key: Key)
    ensures var s := After(CLOSED, acts);
      MovesOn(if key in s.tasks then Some(s.tasks[key]) else None,
              if key in Do(s, a).tasks then Some(Do(s, a).tasks[key]) else None)
  {
    RunKeepsDoor(acts);
  }

  /** No slot is lost or made up: in every live process free slots and slot holders add up to its capacity. */
  lemma SlotsAreConserved(acts: seq<Act>, p: nat)
    requires p in After(CLOSED, acts).processes
    ensures var s := After(CLOSED, acts);
      s.processes[p].free + |SlotHolders(s, p)| == s.processes[p].maxParallel
  {
    RunKeepsDoor(acts);
  }
}
