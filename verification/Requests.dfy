/** One request of a server, from the POST to the returned slot, is a run of the concurrent door. */
module Requests {
  import opened Prelude
  import opened RelayStores
  import opened Receiver
  import Service

  lemma {:induction false} AfterConcat(s: Door, a: seq<Act>, b: seq<Act>)
    ensures After(s, a + b) == After(After(s, a), b)
    decreases |b|
  {
    hide Do;
    if b == [] {
      assert a + b == a;
    } else {
      AfterConcat(s, a, b[..|b| - 1]);
      assert (a + b)[..|a + b| - 1] == a + b[..|b| - 1];
    }
  }

  lemma AfterOne(s: Door, a: Act)
    ensures After(s, [a]) == Do(s, a)
  {
    hide Do;
    assert [a][..0] == [] && After(s, []) == s;
  }

  lemma AfterTwo(s: Door, a: Act, b: Act)
    ensures After(s, [a, b]) == Do(Do(s, a), b)
  {
    hide Do;
    AfterOne(s, a);
    assert [a, b][..1] == [a];
  }

  /** The door with other task states, and with so many slots of process `p` free. */
  ghost predicate DoorAfter(s: Door, s': Door, tasks: States, p: nat, free: nat, jobs: map<nat, Job>) {
    && p in s.processes && s'.processes == s.processes[p := s.processes[p].(free := free)]
    && s'.tasks == tasks && s'.jobs == jobs && s.notes <= s'.notes
  }

  /** What `Service.Server.Post` does to the table and the slots is a run: the post, and unless replayed an acquire. */
  lemma PostIsARun(s: Door, p: nat, job: nat, key: Key, tasks: States, free: nat, answer: Service.Answer)
    returns (acts: seq<Act>)
    requires p in s.processes && job !in s.jobs
    requires Service.Posted(s.tasks, s.processes[p].free, key, tasks, free, answer)
    ensures acts == if answer == Service.Duplicate then [Post(job, p, key)] else [Post(job, p, key), Acquire(job)]
    ensures DoorAfter(s, After(s, acts), tasks, p, free,
                      if answer == Service.AcceptedForRun then s.jobs[job := Job(p, key, Launching)] else s.jobs)
  {
    var s1 := Do(s, Post(job, p, key));
    if answer == Service.Duplicate {
      acts := [Post(job, p, key)];
      AfterOne(s, Post(job, p, key));
    } else {
      acts := [Post(job, p, key), Acquire(job)];
      AfterTwo(s, Post(job, p, key), Acquire(job));
      assert s1.jobs - {job} == s.jobs;
    }
  }

  /** A sweep of many rows is that many sweep steps. */
  lemma {:induction false} SweepsRun(s: Door, keys: set<Key>) returns (acts: seq<Act>)
    requires forall key :: key in keys ==> key in s.tasks && Terminal(s.tasks[key])
    ensures forall i :: 0 <= i < |acts| ==> acts[i].Sweep?
    ensures var s' := After(s, acts);
      s'.tasks == s.tasks - keys && s'.jobs == s.jobs && s'.processes == s.processes && s.notes <= s'.notes
    decreases |keys|
  {
    if keys == {} {
      acts := [];
    } else {
      var key :| key in keys;
      var s1 := Do(s, Sweep(key));
      var rest := SweepsRun(s1, keys - {key});
      acts := [Sweep(key)] + rest;
      AfterOne(s, Sweep(key));
      AfterConcat(s, [Sweep(key)], rest);
      assert s1.tasks - (keys - {key}) == s.tasks - keys;
    }
  }

  /** From a won claim on: settle, sweep. */
  lemma SettleRun(s: Door, job: nat, ok: bool, tasks: States, swept: set<Key>) returns (acts: seq<Act>)
    requires HasJob(s, job, Claimed) && Service.SweptStates(SettledIn(s.tasks, s.jobs[job].key, ok), tasks, swept)
    ensures var s' := After(s, acts);
      && s'.tasks == tasks && s'.processes == s.processes && s.notes <= s'.notes
      && s'.jobs == s.jobs[job := s.jobs[job].(stage := Finishing)]
  {
    hide After;
    var sweeps := SweepsRun(Do(s, Settle(job, ok)), swept);
    acts := [Settle(job, ok)] + sweeps;
    AfterOne(s, Settle(job, ok));
    AfterConcat(s, [Settle(job, ok)], sweeps);
  }

  /** The end of every worker: the slot comes back and the job is gone. */
  lemma ReleaseEnds(s: Door, s1: Door, p: nat, job: nat, key: Key)
    requires p in s.processes && job in s.jobs && s1.processes == s.processes && s.notes <= s1.notes
    requires s1.jobs == s.jobs[job := Job(p, key, Finishing)]
    ensures DoorAfter(s, Do(s1, Release(job)), s1.tasks, p, s.processes[p].free + 1, s.jobs - {job})
  {
  }

  /** What `Service.Server.RunWorker` does is a run: launch, claim, if won settle and sweep, and the release. */
  lemma WorkIsARun(s: Door, p: nat, job: nat, key: Key, tasks: States, free: nat, won: bool, ok: bool, swept: set<Key>)
    returns (acts: seq<Act>)
    requires p in s.processes && job in s.jobs && s.jobs[job] == Job(p, key, Launching)
    requires Service.Worked(s.tasks, s.processes[p].free, key, tasks, free, won, ok, swept)
    ensures DoorAfter(s, After(s, acts), tasks, p, free, s.jobs - {job})
    ensures [Launch(job), Claim(job)] <= acts && acts[|acts| - 1] == Release(job)
  {
    var s2 := Do(Do(s, Launch(job)), Claim(job));
    AfterTwo(s, Launch(job), Claim(job));
    var middle := [];
    if won { middle := SettleRun(s2, job, ok, tasks, swept); }
    var s3 := After(s2, middle);
    ReleaseEnds(s, s3, p, job, key);
    AfterConcat(s, [Launch(job), Claim(job)], middle);
    AfterOne(s3, Release(job));
    AfterConcat(s, [Launch(job), Claim(job)] + middle, [Release(job)]);
    acts := [Launch(job), Claim(job)] + middle + [Release(job)];
  }

  /**
   * A whole request, served without interruption from any moment of any run: the door ends up with the task states
   * and slots the two methods leave, the job gone, and all slots of the process free that were free before.
   */
  lemma RequestIsARun(s: Door, p: nat, job: nat, key: Key, posted: States, left: nat, answer: Service.Answer,
                      tasks: States, free: nat, won: bool, ok: bool, swept: set<Key>)
    returns (acts: seq<Act>)
    requires p in s.processes && job !in s.jobs
    requires Service.Posted(s.tasks, s.processes[p].free, key, posted, left, answer)
    requires if answer == Service.AcceptedForRun then Service.Worked(posted, left, key, tasks, free, won, ok, swept)
             else tasks == posted
    ensures DoorAfter(s, After(s, acts), tasks, p, s.processes[p].free, s.jobs)
    ensures answer == Service.AcceptedForRun ==> won
  {
    hide After, Service.SweptStates;
    acts := PostIsARun(s, p, job, key, posted, left, answer);
    if answer == Service.AcceptedForRun {
      var s1 := After(s, acts);
      var rest := WorkIsARun(s1, p, job, key, tasks, free, won, ok, swept);
      AfterConcat(s, acts, rest);
      acts := acts + rest;
      assert s.jobs[job := Job(p, key, Launching)] - {job} == s.jobs;
    }
  }
}
