/** `pkg/supervisor`: a map of job objects. */
module Supervisor {
  import opened JobModel
  import opened JobInvariants
  import opened JobTheorems
  import opened ServerModel
  import opened ServerInvariants
  import opened JobObject

  /** What a job in the map is like between calls: nobody is inside its lock, and if it has
   * been cleaned up, which only a shutdown does inside the map, it was done. */
  ghost predicate Mappable(j: JobState) {
    Inv(j) && j.lock.Free? && (j.handler == Zombie ==> j.Done())
  }

  ghost predicate AllMappable(now: map<JobId, JobState>) {
    forall id <- now.Keys :: Mappable(now[id])
  }

  lemma MappableUpdate(now: map<JobId, JobState>, id: JobId, j: JobState)
    requires AllMappable(now) && Mappable(j)
    ensures AllMappable(now[id := j])
  {
  }

  /** What a stop does to the jobs in the map: it stops the job under the id, if there is
   * one, and no other. */
  ghost predicate StopDone(before: map<JobId, JobState>, now: map<JobId, JobState>, id: JobId, graceful: bool,
      ok: bool, reply: Reply)
  {
    if id !in before then reply == NotFound && now == before
    else
      && id in now && now == before[id := now[id]]
      && StopOutcome(before[id], now[id], graceful, ok, reply)
  }

  class JobSupervisor {
    var jobs: map<JobId, Job>

    ghost predicate Valid()
      reads this, jobs.Values
    {
      && (forall id <- jobs.Keys :: jobs[id].id == id)
      && AllMappable(View())
    }

    /** The states of the jobs in the map. */
    ghost function View(): map<JobId, JobState>
      reads this, jobs.Values
    {
      map id | id in jobs :: jobs[id].View()
    }

    constructor ()
      ensures Valid() && jobs == map[]
    {
      jobs := map[];
    }

    /** `Start`, for a job id that is fresh; None when the job cannot be created. */
    method Start(id: JobId, createOk: bool) returns (j: Option<Job>)
      requires Valid() && id !in jobs
      modifies this
      ensures Valid() && (j.Some? <==> createOk)
      ensures j.None? ==> jobs == old(jobs) && View() == old(View())
      ensures j.Some? ==> fresh(j.value) && j.value.id == id && jobs == old(jobs)[id := j.value]
      ensures j.Some? ==> View() == old(View())[id := NEW_JOB]
    {
      if !createOk {
        return None;
      }
      var created := new Job(id);
      Add(created);
      j := Some(created);
    }

    /** A job in the map, and no other job, is the object under its id. */
    lemma InMap(id: JobId)
      requires Valid() && id in jobs
      ensures Mappable(jobs[id].View()) && View()[id] == jobs[id].View()
      ensures forall k <- jobs.Keys :: k != id ==> jobs[k] != jobs[id]
    {
      assert Mappable(View()[id]);
    }

    /** A step of one job in the map leaves the others alone. */
    twostate lemma OneJobChanged(id: JobId)
      requires jobs == old(jobs) && id in jobs
      requires forall k <- jobs.Keys :: k != id ==> unchanged(jobs[k])
      ensures View() == old(View())[id := jobs[id].View()]
      ensures old(Valid()) && Mappable(jobs[id].View()) ==> Valid()
    {
      ViewChanged(id);
      if old(Valid()) && Mappable(jobs[id].View()) {
        MappableUpdate(old(View()), id, jobs[id].View());
      }
    }

    twostate lemma ViewChanged(id: JobId)
      requires jobs == old(jobs) && id in jobs
      requires forall k <- jobs.Keys :: k != id ==> unchanged(jobs[k])
      ensures View() == old(View())[id := jobs[id].View()]
    {
    }

    method Stop(id: JobId, graceful: bool, ok: bool) returns (reply: Reply)
      requires Valid()
      modifies jobs.Values
      ensures Valid() && StopDone(old(View()), View(), id, graceful, ok, reply)
    {
      if id !in jobs {
        return NotFound;
      }
      var j := jobs[id];
      var err: bool;
      InMap(id);
      StopKeeps(j.View(), if graceful then InitStop(ok) else ForceStop(ok));
      StopSections(j.View(), graceful, ok);
      if graceful {
        err := j.InitStop(ok);
      } else {
        err := j.Stop(ok);
      }
      OneJobChanged(id);
      reply := if err then Internal else Fine;
    }

    method Inspect(id: JobId) returns (reply: Reply)
      requires Valid()
      ensures id !in jobs ==> reply == NotFound
      ensures id in jobs ==> InspectOutcome(View()[id], reply)
    {
      if id !in jobs {
        return NotFound;
      }
      InMap(id);
      var status, code := jobs[id].Status();
      reply := Details(status, code);
    }

    /** Opens a reader of the job's output. */
    method Logs(id: JobId, follow: bool, ok: bool) returns (reply: Reply)
      requires Valid()
      modifies jobs.Values
      ensures Valid()
      ensures id !in jobs ==> reply == NotFound && View() == old(View())
      ensures id in jobs ==> View() == old(View())[id := jobs[id].View()]
      ensures id in jobs ==> (reply == Internal <==> old(View())[id].handler == Zombie || !ok)
      ensures id in jobs && reply == Internal ==> View() == old(View())
      ensures id in jobs && reply != Internal ==>
                reply == Stream(|old(View())[id].readers|)
                && Run(old(View())[id], [OpenLogs(follow, ok), CountReader]) == Some(jobs[id].View())
    {
      if id !in jobs {
        return NotFound;
      }
      var j := jobs[id];
      InMap(id);
      ghost var before := j.View();
      var r := j.Logs(follow, ok);
      OpenedIsMappable(before, follow, ok, j.View());
      OneJobChanged(id);
      reply := if r.Some? then Stream(r.value) else Internal;
      if r.None? {
        assert View() == old(View());
      }
    }

    /** `Remove`: None when the schedule ends while the cleanup is still waiting for readers. */
    method Remove(id: JobId, gap: seq<Event>, waiting: seq<Event>, ok: bool) returns (reply: Option<Reply>)
      requires Valid()
      modifies this, jobs.Values
      ensures Valid()
      ensures id !in old(jobs) ==> reply == Some(NotFound) && jobs == old(jobs)
      ensures id in old(jobs) && !old(jobs[id].handler).Completed() ==> reply == Some(Internal) && jobs == old(jobs)
      ensures id in old(jobs) && !old(jobs[id].handler).Completed() ==> unchanged(old(jobs[id]))
      ensures id in old(jobs) && old(jobs[id].handler).Completed() ==>
                RemoveDone(old(jobs[id].View()), old(jobs[id]).View(), gap, waiting, ok, reply)
      ensures id in old(jobs) && old(jobs[id].handler).Completed() ==>
                jobs == if reply == Some(Internal) then old(jobs) else old(jobs) - {id}
      ensures forall k <- old(jobs).Keys :: k != id ==> unchanged(old(jobs[k]))
    {
      if id !in jobs {
        return Some(NotFound);
      }
      var j := jobs[id];
      InMap(id);
      var completed := j.Completed();
      if !completed {
        return Some(Internal);
      }
      reply := RemoveCompleted(id, gap, waiting, ok);
    }

    /** The job is unlinked under the map lock; then, with the lock given up, the events of
     * `gap` happen to it, and its cleanup runs; if that fails, the job is put back. */
    method RemoveCompleted(id: JobId, gap: seq<Event>, waiting: seq<Event>, ok: bool) returns (reply: Option<Reply>)
      requires Valid() && id in jobs && jobs[id].handler.Completed()
      modifies this`jobs, jobs[id]
      ensures Valid()
      ensures RemoveDone(old(jobs[id].View()), old(jobs[id]).View(), gap, waiting, ok, reply)
      ensures jobs == if reply == Some(Internal) then old(jobs) else old(jobs) - {id}
    {
      var j := jobs[id];
      reply := TakeOutAndCleanUp(id, gap, waiting, ok);
      if reply == Some(Internal) {
        Add(j);
      }
    }

    method TakeOutAndCleanUp(id: JobId, gap: seq<Event>, waiting: seq<Event>, ok: bool)
      returns (reply: Option<Reply>)
      requires Valid() && id in jobs && jobs[id].handler.Completed()
      modifies this`jobs, jobs[id]
      ensures Valid() && jobs == old(jobs) - {id}
      ensures old(jobs[id]).id == id
      ensures RemoveDone(old(jobs[id].View()), old(jobs[id]).View(), gap, waiting, ok, reply)
    {
      var j := jobs[id];
      InMap(id);
      Unlink(id);
      reply := CleanUpUnlinked(j, gap, waiting, ok);
    }

    method CleanUpUnlinked(j: Job, gap: seq<Event>, waiting: seq<Event>, ok: bool) returns (reply: Option<Reply>)
      requires Valid() && j !in jobs.Values && Mappable(j.View()) && j.handler.Completed()
      modifies j
      ensures Valid()
      ensures RemoveDone(old(j.View()), j.View(), gap, waiting, ok, reply)
    {
      var result := CleanUpJob(j, gap, waiting, ok);
      NoJobChanged();
      reply := ReplyTo(result);
    }

    /** `StopSupervisor`, for a plan of what happens to each job meanwhile. It attempts SIGTERM
     * of every Active job, whatever happens then. It returns exactly if the plan lets every
     * job get done and every cleanup see its readers leave, and whatever state each job
     * started in, it has then been signalled, has exited and has been cleaned up: it is a
     * Zombie unless the removal of its directory failed. */
    method StopSupervisor(plan: map<JobId, Plan>) returns (returned: bool)
      requires Valid()
      modifies jobs.Values
      ensures jobs == old(jobs)
      ensures AllSignalled(old(View()), View(), plan)
      ensures returned <==> AllEnd(old(View()), plan)
      ensures returned ==> Valid() && AllShutDown(old(View()), View(), plan)
      ensures !returned ==> SomeOpen(View(), {}) || SomeCleaning(View(), {})
    {
      ghost var before := View();
      SignalAll(plan);
      ghost var signalled := View();
      var left: set<JobId>;
      returned, left := AwaitAll(plan);
      ghost var settled := View();
      if returned {
        returned, left := CleanUpAll(plan);
        ShutdownIs(before, signalled, settled, View(), plan, left, returned);
      } else {
        WaitIsStuck(before, signalled, settled, plan, left);
      }
    }

    /** The first loop, without the goroutines that wait. */
    method SignalAll(plan: map<JobId, Plan>)
      requires Valid()
      modifies jobs.Values
      ensures Valid() && jobs == old(jobs) && Advanced(old(View()), View(), plan, FirstLoop, {})
    {
      ghost var before, now := View(), View();
      var todo := jobs.Keys;
      assert todo == before.Keys;
      NothingAdvanced(before, plan, FirstLoop);
      while todo != {}
        invariant todo <= jobs.Keys && jobs == old(jobs)
        invariant Valid() && View() == now
        invariant Advanced(before, now, plan, FirstLoop, todo)
        decreases todo
      {
        var id :| id in todo;
        now := SignalTurn(before, now, plan, todo, id);
        todo := todo - {id};
      }
    }

    method SignalTurn(ghost before: map<JobId, JobState>, ghost now: map<JobId, JobState>, plan: map<JobId, Plan>,
        ghost todo: set<JobId>, id: JobId) returns (ghost after: map<JobId, JobState>)
      requires Valid() && id in jobs && id in todo && View() == now && Advanced(before, now, plan, FirstLoop, todo)
      modifies jobs[id]
      ensures jobs == old(jobs) && Valid() && View() == after && Advanced(before, after, plan, FirstLoop, todo - {id})
    {
      SignalOne(id, PlanFor(plan, id));
      after := AdvancedOn(before, now, plan, FirstLoop, todo, id);
    }

    method SignalOne(id: JobId, plan: Plan)
      requires Valid() && id in jobs
      modifies jobs[id]
      ensures jobs == old(jobs) && Valid() && View() == old(View())[id := PhaseStep(FirstLoop, plan, old(View())[id])]
    {
      InMap(id);
      StopKeeps(jobs[id].View(), InitStop(plan.signalOk));
      var _ := jobs[id].InitStop(plan.signalOk);
      OneJobChanged(id);
    }

    /** wg.Wait(): each goroutine waits for the `done` of its job. `left` are the jobs that have
     * not been waited for when one hangs. */
    method AwaitAll(plan: map<JobId, Plan>) returns (returned: bool, left: set<JobId>)
      requires Valid()
      modifies jobs.Values
      ensures Valid() && jobs == old(jobs) && Advanced(old(View()), View(), plan, TheWait, left)
      ensures returned ==> left == {} && AllDone(View(), {})
      ensures !returned ==> SomeOpen(View(), left)
    {
      ghost var before, now := View(), View();
      left := jobs.Keys;
      assert left == before.Keys;
      NothingAdvanced(before, plan, TheWait);
      returned := true;
      while left != {}
        invariant returned && left <= jobs.Keys && jobs == old(jobs)
        invariant Valid() && View() == now
        invariant Advanced(before, now, plan, TheWait, left) && AllDone(now, left)
        decreases left
      {
        var id :| id in left;
        returned, now := AwaitTurn(before, now, plan, left, id);
        left := left - {id};
        if !returned {
          return;
        }
      }
    }

    method AwaitTurn(ghost before: map<JobId, JobState>, ghost now: map<JobId, JobState>, plan: map<JobId, Plan>,
        ghost todo: set<JobId>, id: JobId) returns (done: bool, ghost after: map<JobId, JobState>)
      requires Valid() && id in jobs && id in todo && View() == now
      requires Advanced(before, now, plan, TheWait, todo) && AllDone(now, todo)
      modifies jobs[id]
      ensures jobs == old(jobs) && Valid() && View() == after && Advanced(before, after, plan, TheWait, todo - {id})
      ensures if done then AllDone(after, todo - {id}) else SomeOpen(after, todo - {id})
    {
      done := AwaitOne(id, PlanFor(plan, id));
      after := AdvancedOn(before, now, plan, TheWait, todo, id);
      DoneStep(now, after, todo, id);
    }

    method AwaitOne(id: JobId, plan: Plan) returns (done: bool)
      requires Valid() && id in jobs
      modifies jobs[id]
      ensures jobs == old(jobs) && Valid() && View() == old(View())[id := PhaseStep(TheWait, plan, old(View())[id])]
      ensures done == View()[id].Done()
    {
      InMap(id);
      SettleJob(jobs[id], plan.exits);
      OneJobChanged(id);
      done := jobs[id].done;
    }

    /** The second loop. */
    method CleanUpAll(plan: map<JobId, Plan>) returns (returned: bool, left: set<JobId>)
      requires Valid() && AllDone(View(), {})
      modifies jobs.Values
      ensures jobs == old(jobs) && Advanced(old(View()), View(), plan, SecondLoop, left)
      ensures returned ==> left == {} && Valid() && AllDone(View(), {})
      ensures !returned ==> SomeCleaning(View(), left)
    {
      ghost var before, now := View(), View();
      left := jobs.Keys;
      assert left == before.Keys;
      NothingAdvanced(before, plan, SecondLoop);
      returned := true;
      while left != {}
        invariant returned && left <= jobs.Keys && jobs == old(jobs)
        invariant Valid() && View() == now
        invariant Advanced(before, now, plan, SecondLoop, left) && AllDone(now, {})
        decreases left
      {
        var id :| id in left;
        returned, now := CleanUpTurn(before, now, plan, left, id);
        left := left - {id};
        if !returned {
          return;
        }
      }
    }

    method CleanUpTurn(ghost before: map<JobId, JobState>, ghost now: map<JobId, JobState>, plan: map<JobId, Plan>,
        ghost todo: set<JobId>, id: JobId) returns (returned: bool, ghost after: map<JobId, JobState>)
      requires Valid() && id in jobs && id in todo && View() == now
      requires Advanced(before, now, plan, SecondLoop, todo) && AllDone(now, {})
      modifies jobs[id]
      ensures jobs == old(jobs) && View() == after && Advanced(before, after, plan, SecondLoop, todo - {id})
      ensures if returned then Valid() && AllDone(after, {}) else SomeCleaning(after, todo - {id})
    {
      returned := CleanUpOne(id, PlanFor(plan, id));
      after := AdvancedOn(before, now, plan, SecondLoop, todo, id);
      CleaningStep(now, after, todo, id);
    }

    method CleanUpOne(id: JobId, plan: Plan) returns (returned: bool)
      requires Valid() && id in jobs && View()[id].Done()
      modifies jobs[id]
      ensures jobs == old(jobs) && View() == old(View())[id := PhaseStep(SecondLoop, plan, old(View())[id])]
      ensures returned ==> Valid() && View()[id].Done()
      ensures !returned ==> View()[id].group > 0 && View()[id].lock.Cleaning?
    {
      InMap(id);
      returned := CleanUpDone(jobs[id], plan.drain, plan.removeOk);
      OneJobChanged(id);
    }

    method Unlink(id: JobId)
      requires Valid() && id in jobs
      modifies this`jobs
      ensures Valid() && jobs == old(jobs) - {id}
      ensures old(jobs[id]) !in jobs.Values
    {
      InMap(id);
      ghost var before := View();
      jobs := jobs - {id};
      assert View() == before - {id};
    }

    /** `add`: puts a job into the map under its id. */
    method Add(j: Job)
      requires Valid() && Mappable(j.View())
      modifies this`jobs
      ensures Valid() && jobs == old(jobs)[j.id := j]
      ensures View() == old(View())[j.id := j.View()]
    {
      ghost var before := View();
      jobs := jobs[j.id := j];
      assert View() == before[j.id := j.View()];
      MappableUpdate(before, j.id, j.View());
    }

    twostate lemma NoJobChanged()
      requires jobs == old(jobs) && forall k <- jobs.Keys :: unchanged(jobs[k])
      ensures old(Valid()) ==> Valid()
    {
      assert View() == old(View());
    }
  }

  /** What happens to a job during a shutdown: whether SIGTERM can be sent, the events up to
   * its exit and during its cleanup, and whether its directory can be removed. */
  datatype Plan = Plan(signalOk: bool, exits: seq<Event>, drain: seq<Event>, removeOk: bool)

  function PlanFor(plan: map<JobId, Plan>, id: JobId): Plan {
    if id in plan then plan[id] else Plan(true, [], [], true)
  }

  /** A job that a shutdown is through with: it has exited, as stopped exactly if a signal was
   * delivered, and is clean unless that failed. */
  ghost predicate ShutDown(j: JobState, removeOk: bool) {
    && j.doneCloses == 1 && j.exit.Handled? && j.process.Reaped? && j.lock.Free?
    && (j.exit.at == Stopping || j.exit.at == Stopped <==> j.Delivered(Term) || j.Delivered(Kill))
    && (j.handler == Zombie || !removeOk)
  }

  /** The three parts of a shutdown. */
  datatype Phase = FirstLoop | TheWait | SecondLoop

  function PhaseStep(phase: Phase, p: Plan, j: JobState): JobState {
    match phase
    case FirstLoop => After(j, InitStop(p.signalOk))
    case TheWait => Interleaved(j, p.exits, None)
    case SecondLoop => CleanedUp(j, p.drain, p.removeOk)
  }

  /** A part of a shutdown has dealt with the jobs outside `todo`; the others are as before. */
  ghost predicate Advanced(before: map<JobId, JobState>, now: map<JobId, JobState>, plan: map<JobId, Plan>, phase: Phase,
      todo: set<JobId>)
  {
    && now.Keys == before.Keys
    && (forall id <- now.Keys :: id !in todo ==> now[id] == PhaseStep(phase, PlanFor(plan, id), before[id]))
    && (forall id <- now.Keys :: id in todo ==> now[id] == before[id])
  }

  lemma NothingAdvanced(before: map<JobId, JobState>, plan: map<JobId, Plan>, phase: Phase)
    ensures Advanced(before, before, plan, phase, before.Keys)
  {
  }

  lemma AdvancedOn(before: map<JobId, JobState>, now: map<JobId, JobState>, plan: map<JobId, Plan>, phase: Phase,
      todo: set<JobId>, id: JobId) returns (after: map<JobId, JobState>)
    requires Advanced(before, now, plan, phase, todo) && id in now && id in todo
    ensures after == now[id := PhaseStep(phase, PlanFor(plan, id), now[id])]
    ensures Advanced(before, after, plan, phase, todo - {id})
  {
    after := now[id := PhaseStep(phase, PlanFor(plan, id), now[id])];
  }

  ghost predicate AllDone(now: map<JobId, JobState>, todo: set<JobId>) {
    forall id <- now.Keys - todo :: now[id].Done()
  }

  /** A job that the wait has come to is not done; a cleanup in the second loop waits. */
  ghost predicate SomeOpen(now: map<JobId, JobState>, left: set<JobId>) {
    exists id :: id in now && id !in left && !now[id].Done()
  }

  ghost predicate SomeCleaning(now: map<JobId, JobState>, left: set<JobId>) {
    exists id :: id in now && id !in left && now[id].lock.Cleaning? && now[id].group > 0
  }

  lemma DoneStep(before: map<JobId, JobState>, now: map<JobId, JobState>, todo: set<JobId>, id: JobId)
    requires AllDone(before, todo) && id in before && id in now && now == before[id := now[id]]
    ensures if now[id].Done() then AllDone(now, todo - {id}) else SomeOpen(now, todo - {id})
  {
  }

  lemma CleaningStep(before: map<JobId, JobState>, now: map<JobId, JobState>, todo: set<JobId>, id: JobId)
    requires id in before && id in now && now == before[id := now[id]]
    ensures AllDone(before, {}) && now[id].Done() ==> AllDone(now, {})
    ensures now[id].lock.Cleaning? && now[id].group > 0 ==> SomeCleaning(now, todo - {id})
  {
  }

  // ----- a shutdown as a whole

  /** A job after the first loop and the wait, and after the second loop. */
  function Settled(j: JobState, p: Plan): JobState {
    PhaseStep(TheWait, p, PhaseStep(FirstLoop, p, j))
  }

  function AfterShutdown(j: JobState, p: Plan): JobState {
    PhaseStep(SecondLoop, p, Settled(j, p))
  }

  /** The plan lets a shutdown get through with the job. */
  predicate Ends(j: JobState, p: Plan) {
    Settled(j, p).Done() && !AfterShutdown(j, p).lock.Cleaning?
  }

  ghost predicate AllEnd(before: map<JobId, JobState>, plan: map<JobId, Plan>) {
    forall id <- before.Keys :: Ends(before[id], PlanFor(plan, id))
  }

  /** SIGTERM has been attempted of every job that was Active. */
  ghost predicate AllSignalled(before: map<JobId, JobState>, now: map<JobId, JobState>, plan: map<JobId, Plan>) {
    && now.Keys == before.Keys
    && (forall id <- before.Keys :: before[id].handler == Active ==>
          before[id].attempts + [Attempt(Term, PlanFor(plan, id).signalOk)] <= now[id].attempts)
  }

  /** What a shutdown that has returned has made of the jobs. */
  ghost predicate AllShutDown(before: map<JobId, JobState>, now: map<JobId, JobState>, plan: map<JobId, Plan>) {
    && now.Keys == before.Keys
    && (forall id <- now.Keys :: now[id] == AfterShutdown(before[id], PlanFor(plan, id)))
    && (forall id <- now.Keys :: ShutDown(now[id], PlanFor(plan, id).removeOk))
    && (forall id <- now.Keys :: before[id].handler == Active && PlanFor(plan, id).signalOk ==>
          now[id].exit == Handled(Stopping) || now[id].exit == Handled(Stopped))
  }

  lemma SignalStays(j: JobState, k: JobState, m: JobState, p: Plan)
    requires j.lock.Free? && k == PhaseStep(FirstLoop, p, j) && k.attempts <= m.attempts
    ensures j.handler == Active ==> j.attempts + [Attempt(Term, p.signalOk)] <= m.attempts
    ensures j.handler == Active && p.signalOk ==> m.Delivered(Term)
  {
    if j.handler == Active {
      assert k.attempts == j.attempts + [Attempt(Term, p.signalOk)];
      assert m.attempts[|j.attempts|] == Attempt(Term, p.signalOk);
    }
  }

  lemma SignalsStay(before: map<JobId, JobState>, signalled: map<JobId, JobState>, now: map<JobId, JobState>,
      plan: map<JobId, Plan>)
    requires AllMappable(before) && Advanced(before, signalled, plan, FirstLoop, {})
    requires now.Keys == before.Keys && forall id <- now.Keys :: signalled[id].attempts <= now[id].attempts
    ensures AllSignalled(before, now, plan)
    ensures forall id <- before.Keys :: before[id].handler == Active && PlanFor(plan, id).signalOk ==>
              now[id].Delivered(Term)
  {
    forall id <- before.Keys
      ensures before[id].handler == Active ==>
                before[id].attempts + [Attempt(Term, PlanFor(plan, id).signalOk)] <= now[id].attempts
      ensures before[id].handler == Active && PlanFor(plan, id).signalOk ==> now[id].Delivered(Term)
    {
      SignalStays(before[id], signalled[id], now[id], PlanFor(plan, id));
    }
  }

  lemma WaitIsStuck(before: map<JobId, JobState>, signalled: map<JobId, JobState>, settled: map<JobId, JobState>,
      plan: map<JobId, Plan>, left: set<JobId>)
    requires AllMappable(before) && Advanced(before, signalled, plan, FirstLoop, {})
    requires Advanced(signalled, settled, plan, TheWait, left)
    requires SomeOpen(settled, left)
    ensures !AllEnd(before, plan) && AllSignalled(before, settled, plan)
  {
    AttemptsGrow(signalled, settled, plan, TheWait, left);
    SignalsStay(before, signalled, settled, plan);
    var id :| id in settled && id !in left && !settled[id].Done();
    assert settled[id] == Settled(before[id], PlanFor(plan, id));
    assert !Ends(before[id], PlanFor(plan, id));
  }

  lemma ShutdownIs(before: map<JobId, JobState>, signalled: map<JobId, JobState>, settled: map<JobId, JobState>,
      now: map<JobId, JobState>, plan: map<JobId, Plan>, left: set<JobId>, returned: bool)
    requires AllMappable(before) && Advanced(before, signalled, plan, FirstLoop, {})
    requires Advanced(signalled, settled, plan, TheWait, {}) && AllDone(settled, {})
    requires Advanced(settled, now, plan, SecondLoop, left)
    requires returned ==> left == {} && AllDone(now, {}) && AllMappable(now)
    requires !returned ==> SomeCleaning(now, left)
    ensures AllSignalled(before, now, plan)
    ensures returned <==> AllEnd(before, plan)
    ensures returned ==> AllShutDown(before, now, plan)
  {
    AttemptsGrow(signalled, settled, plan, TheWait, {});
    AttemptsGrow(settled, now, plan, SecondLoop, left);
    SignalsStay(before, signalled, now, plan);
    SettledIs(before, signalled, settled, plan);
    if returned {
      CleanIsEnd(before, settled, now, plan);
    } else {
      var id :| id in now && id !in left && now[id].lock.Cleaning?;
      CleanupIsStuck(before, settled, now, plan, left, id);
    }
  }

  lemma AttemptsGrow(before: map<JobId, JobState>, now: map<JobId, JobState>, plan: map<JobId, Plan>, phase: Phase,
      left: set<JobId>)
    requires Advanced(before, now, plan, phase, left)
    ensures now.Keys == before.Keys && forall id <- now.Keys :: before[id].attempts <= now[id].attempts
  {
    forall id <- now.Keys ensures before[id].attempts <= now[id].attempts {
      PhaseKeepsAttempts(phase, PlanFor(plan, id), before[id]);
    }
  }

  lemma SettledIs(before: map<JobId, JobState>, signalled: map<JobId, JobState>, settled: map<JobId, JobState>,
      plan: map<JobId, Plan>)
    requires Advanced(before, signalled, plan, FirstLoop, {}) && Advanced(signalled, settled, plan, TheWait, {})
    ensures settled.Keys == before.Keys
    ensures forall id <- before.Keys :: settled[id] == Settled(before[id], PlanFor(plan, id))
  {
  }

  lemma CleanupIsStuck(before: map<JobId, JobState>, settled: map<JobId, JobState>, now: map<JobId, JobState>,
      plan: map<JobId, Plan>, left: set<JobId>, id: JobId)
    requires before.Keys == settled.Keys && Advanced(settled, now, plan, SecondLoop, left)
    requires id in now && id !in left && now[id].lock.Cleaning?
    requires settled[id] == Settled(before[id], PlanFor(plan, id))
    ensures !AllEnd(before, plan)
  {
    assert now[id] == AfterShutdown(before[id], PlanFor(plan, id));
    assert !Ends(before[id], PlanFor(plan, id));
  }

  lemma IsShutDown(j: JobState, p: Plan)
    requires Mappable(CleanedUp(j, p.drain, p.removeOk)) && CleanedUp(j, p.drain, p.removeOk).Done()
    ensures ShutDown(CleanedUp(j, p.drain, p.removeOk), p.removeOk)
  {
    var k := CleanedUp(j, p.drain, p.removeOk);
    WaitingKeepsLock(j.(lock := Cleaning(false)), p.drain);
    assert ExitInv(k) && SignalInv(k);
  }

  lemma CleanIsEnd(before: map<JobId, JobState>, settled: map<JobId, JobState>, now: map<JobId, JobState>,
      plan: map<JobId, Plan>)
    requires before.Keys == settled.Keys && AllDone(settled, {})
    requires forall id <- before.Keys :: settled[id] == Settled(before[id], PlanFor(plan, id))
    requires Advanced(settled, now, plan, SecondLoop, {}) && AllDone(now, {}) && AllMappable(now)
    requires forall id <- before.Keys :: before[id].handler == Active && PlanFor(plan, id).signalOk ==>
               now[id].Delivered(Term)
    ensures AllEnd(before, plan) && AllShutDown(before, now, plan)
  {
    forall id <- before.Keys
      ensures Ends(before[id], PlanFor(plan, id)) && now[id] == AfterShutdown(before[id], PlanFor(plan, id))
      ensures ShutDown(now[id], PlanFor(plan, id).removeOk)
    {
      JobIsEnd(before[id], settled[id], now[id], PlanFor(plan, id));
    }
  }

  lemma JobIsEnd(before: JobState, settled: JobState, now: JobState, p: Plan)
    requires settled == Settled(before, p) && settled.Done()
    requires now == PhaseStep(SecondLoop, p, settled) && now.Done() && Mappable(now)
    ensures Ends(before, p) && now == AfterShutdown(before, p) && ShutDown(now, p.removeOk)
  {
    IsShutDown(settled, p);
  }

  lemma PhaseKeepsAttempts(phase: Phase, p: Plan, j: JobState)
    ensures j.attempts <= PhaseStep(phase, p, j).attempts
  {
    match phase
    case FirstLoop =>
    case TheWait => InterferenceKeepsAttempts(j, p.exits);
    case SecondLoop =>
      var begun := j.(lock := Cleaning(false));
      var n := WaitsToTheEnd(begun, p.drain);
      InterferenceKeepsAttempts(begun, p.drain[..n]);
  }

  lemma InterferenceKeepsAttempts(j: JobState, es: seq<Event>)
    ensures j.attempts <= Interleaved(j, es, None).attempts
  {
    var fs := InterferenceIsRun(j, es, None);
    HistoryOnlyGrows(j, fs);
  }

  /** `Cleanup` of a job that is done; false when it is still waiting for readers. */
  method CleanUpDone(j: Job, drain: seq<Event>, ok: bool) returns (returned: bool)
    requires Mappable(j.View()) && j.done
    modifies j
    ensures j.View() == CleanedUp(old(j.View()), drain, ok)
    ensures returned ==> Mappable(j.View()) && j.done
    ensures !returned ==> j.View().group > 0 && j.stateLock.Cleaning?
  {
    var result := j.Cleanup(drain, ok);
    returned := result != StillWaiting;
  }

  /** What a Remove past its check has done to the job: its cleanup, after the events of the
   * gap and with those of the wait around it. That is a run of the job that ends in a
   * Zombie without readers, or leaves the job as good as before; RemoveAll was called only
   * late enough, and its result alone decides, if the readers leave. */
  ghost predicate RemoveDone(before: JobState, after: JobState, gap: seq<Event>, waiting: seq<Event>, ok: bool,
      reply: Option<Reply>)
  {
    && after == CleanedUp(Interleaved(before, gap, None), waiting, ok)
    && Leads(before, after) && after.handler.Completed()
    && (after.purges > before.purges ==> after.exit.Handled? || after.Delivered(Kill))
    && (match reply
        case Some(Fine) => ok && after.handler == Zombie && AllClosed(after.readers)
        case Some(Internal) => (!ok || before.handler == Zombie) && Mappable(after)
        case Some(_) => false
        case None => before.handler != Zombie && after.lock == Cleaning(false) && after.group > 0)
  }

  function ReplyTo(result: CleanupResult): Option<Reply> {
    match result
    case Removed => Some(Fine)
    case CleanupError => Some(Internal)
    case StillWaiting => None
  }

  /** The unlocked part of `Remove`. */
  method CleanUpJob(j: Job, gap: seq<Event>, waiting: seq<Event>, ok: bool) returns (result: CleanupResult)
    requires Mappable(j.View()) && j.handler.Completed()
    modifies j
    ensures j.Valid() && Leads(old(j.View()), j.View()) && j.handler.Completed()
    ensures j.View() == CleanedUp(Interleaved(old(j.View()), gap, None), waiting, ok)
    ensures j.purges > old(j.purges) ==> j.exit.Handled? || j.View().Delivered(Kill)
    ensures result == Removed ==> ok && j.handler == Zombie && AllClosed(j.readers)
    ensures result == CleanupError ==> (!ok || old(j.handler) == Zombie) && Mappable(j.View())
    ensures result == StillWaiting ==> old(j.handler) != Zombie && j.stateLock == Cleaning(false) && j.outLock > 0
  {
    SettleJob(j, gap);
    ghost var settled := j.View();
    result := j.Cleanup(waiting, ok);
    LeadsOn(old(j.View()), settled, j.View());
    LateEnough(settled, j.View());
  }

  /** A completed, not yet cleaned up job has exited or has been sent SIGKILL. */
  lemma LateEnough(j: JobState, k: JobState)
    requires ExitInv(j) && SignalInv(j) && j.handler.Completed() && Leads(j, k)
    ensures j.handler != Zombie ==> k.exit.Handled? || k.Delivered(Kill)
  {
    var es :| Run(j, es) == Some(k);
    HistoryOnlyGrows(j, es);
    assert j.attempts <= k.attempts;
    assert j.Delivered(Kill) ==> k.Delivered(Kill);
  }

  /** Background events, for a job that nobody holds. */
  method SettleJob(j: Job, es: seq<Event>)
    requires Mappable(j.View())
    modifies j
    ensures Mappable(j.View()) && Leads(old(j.View()), j.View())
    ensures j.View() == Interleaved(old(j.View()), es, None)
    ensures j.handler == Zombie <==> old(j.handler) == Zombie
    ensures old(j.handler).Completed() ==> j.handler.Completed()
    ensures old(j.done) ==> j.done
    ensures j.purges == old(j.purges)
  {
    var i := 0;
    while i < |es|
      invariant 0 <= i <= |es| && Mappable(j.View())
      invariant Interleaved(old(j.View()), es, None) == Interleaved(j.View(), es[i..], None)
    {
      StaysMappable(j.View(), es[i]);
      InterleavedNext(j.View(), es[i..], None);
      assert es[i..][1..] == es[i + 1..];
      j.Environment(es[i], None);
      i := i + 1;
    }
    SettlingKeeps(old(j.View()), es);
  }

  lemma {:induction false} SettlingKeeps(j: JobState, es: seq<Event>)
    requires Mappable(j)
    ensures var k := Interleaved(j, es, None);
            && Mappable(k) && Leads(j, k)
            && (k.handler == Zombie <==> j.handler == Zombie)
            && (j.handler.Completed() ==> k.handler.Completed())
            && (j.Done() ==> k.Done())
            && k.purges == j.purges
    decreases |es|
  {
    if es == [] {
      LeadsNowhere(j);
    } else {
      var k := Interleaved(j, [es[0]], None);
      StaysMappable(j, es[0]);
      InterleavedNext(j, es, None);
      SettlingKeeps(k, es[1..]);
      LeadsOn(j, k, Interleaved(k, es[1..], None));
    }
  }

  lemma StaysMappable(j: JobState, e: Event)
    requires Mappable(j)
    ensures var k := Interleaved(j, [e], None);
            && Mappable(k) && Leads(j, k)
            && (k.handler == Zombie <==> j.handler == Zombie)
            && (j.handler.Completed() ==> k.handler.Completed())
            && (j.Done() ==> k.Done())
            && k.purges == j.purges
  {
    InterleavedOne(j, e, None);
    LeadsByEvent(j, e);
    LeadsNowhere(j);
    if Foreign(e, None) && Next(j, e).Some? {
      AmbientMappable(j, e);
    }
  }

  lemma AmbientMappable(j: JobState, e: Event)
    requires Mappable(j) && Ambient(e) && Next(j, e).Some?
    ensures var k := Next(j, e).value;
            && Mappable(k) && k.purges == j.purges
            && (k.handler == Zombie <==> j.handler == Zombie)
            && (j.handler.Completed() ==> k.handler.Completed())
            && (j.Done() ==> k.Done())
  {
    InvNext(j, e);
    OthersKeep(j, e);
    AmbientKeeps(j, e);
  }

  /** The two sections of a job that stop it. */
  lemma StopSections(j: JobState, graceful: bool, ok: bool)
    requires Mappable(j)
    ensures var k := Next(j, if graceful then InitStop(ok) else ForceStop(ok));
            && k.Some?
            && (graceful ==> StopOutcome(j, k.value, true, ok,
                                         if j.handler == Active && k.value.handler == Stopping then Fine else Internal))
            && (!graceful ==> StopOutcome(j, k.value, false, ok,
                                          if !j.handler.Completed() && k.value.handler == Stopped then Fine else Internal))
  {
  }

  lemma StopKeeps(j: JobState, e: Event)
    requires Mappable(j) && (e.InitStop? || e.ForceStop?)
    ensures Next(j, e).Some? && Mappable(Next(j, e).value)
  {
    InvNext(j, e);
  }

  lemma OpenedIsMappable(j: JobState, follow: bool, ok: bool, k: JobState)
    requires Mappable(j) && Inv(k)
    requires k == j || Run(j, [OpenLogs(follow, ok), CountReader]) == Some(k)
    ensures Mappable(k)
  {
    if k != j {
      var a := Next(j, OpenLogs(follow, ok)).value;
      RunStep(j, [OpenLogs(follow, ok), CountReader]);
      RunStep(a, [CountReader]);
      OthersKeep(j, OpenLogs(follow, ok));
      OthersKeep(a, CountReader);
    }
  }
}
