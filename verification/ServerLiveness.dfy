/** From which states a shutdown can return and a call can be answered. */
module ServerLiveness {
  import opened JobModel
  import opened JobInvariants
  import opened JobTheorems
  import opened Progress
  import opened AccessModel
  import opened ServerModel
  import opened ServerInvariants
  import opened ServerTheorems
  import opened ServerProgress

  /** No client goes away, no read or send fails, no job fails to start, no directory fails
   * to be removed. */
  predicate Benign(e: ServerEvent) {
    match e
    case Background(_, Cancel(_)) => false
    case Background(_, Step(_, step)) => !step.FileFail? && step != Send(false)
    case CreateFails(_) => false
    case Clean(_, event) => event != EndCleanup(false)
    case ShutdownClean(_, event) => event != EndCleanup(false)
    case _ => true
  }

  ghost predicate AllBenign(fs: seq<ServerEvent>) {
    forall i :: 0 <= i < |fs| ==> Benign(fs[i])
  }

  /** A benign continuation of `s` to `t`. */
  ghost predicate Reaches(s: Server, t: Server) {
    exists fs :: AllBenign(fs) && ServerRun(s, fs) == Some(t)
  }

  lemma ReachesItself(s: Server)
    ensures Reaches(s, s)
  {
    assert ServerRun(s, []) == Some(s);
  }

  lemma ReachesNext(s: Server, e: ServerEvent) returns (t: Server)
    requires Reachable(s) && ServerNext(s, e).Some? && Benign(e)
    ensures t == ServerNext(s, e).value && Reaches(s, t) && Reachable(t)
  {
    t := ReachableStep(s, e);
    ServerRunStep(s, e, []);
    assert [e] + [] == [e];
    assert ServerRun(s, [e]) == Some(t) by { ReachesItself(t); }
  }

  lemma ReachesOn(s: Server, t: Server, u: Server)
    requires Reaches(s, t) && Reaches(t, u)
    ensures Reaches(s, u)
  {
    var fs :| AllBenign(fs) && ServerRun(s, fs) == Some(t);
    var gs :| AllBenign(gs) && ServerRun(t, gs) == Some(u);
    ServerRunConcat(s, fs, gs);
    assert AllBenign(fs + gs);
  }

  /** Only jobs in the map, and the shutdown, have changed. */
  ghost predicate OnlyMappedChanged(s: Server, t: Server) {
    && t == s.(jobs := t.jobs, shutdown := t.shutdown)
    && t.jobs.Keys == s.jobs.Keys
    && forall id <- s.jobs.Keys :: id !in s.mapped ==> t.jobs[id] == s.jobs[id]
  }

  lemma Ready(s: Server, id: JobId)
    requires Reachable(s) && id in s.mapped && (s.shutdown.Purging? ==> s.shutdown.current != Some(id))
    ensures id in s.jobs && Inv(s.jobs[id]) && !s.jobs[id].lock.Cleaning?
  {
    ReachableInv(s);
    assert JobOk(s.jobs[id], false);
  }

  lemma TodoIsMapped(s: Server)
    requires Reachable(s)
    ensures s.shutdown.Signalling? ==> s.shutdown.todo <= s.mapped
    ensures s.shutdown.Purging? ==> s.shutdown.todo <= s.mapped
    ensures s.shutdown.Purging? && s.shutdown.current.Some? ==>
              s.shutdown.current.value in s.shutdown.todo && s.shutdown.current.value in s.jobs
  {
    ReachableInv(s);
  }

  /** A section of `Logs` that is still inside a job's lock ends. */
  lemma LockGetsFree(s: Server, id: JobId) returns (t: Server)
    requires Reachable(s) && id in s.jobs && Inv(s.jobs[id]) && !s.jobs[id].lock.Cleaning?
    ensures Reachable(t) && Reaches(s, t) && id in t.jobs
    ensures t == SetJob(s, id, t.jobs[id]) && t.jobs.Keys == s.jobs.Keys
    ensures t.jobs[id].lock.Free? && t.jobs[id].handler == s.jobs[id].handler
    ensures t.jobs[id].Done() == s.jobs[id].Done()
  {
    if s.jobs[id].lock.Free? {
      t := s;
      ReachesItself(s);
      assert SetJob(s, id, s.jobs[id]) == s;
    } else {
      assert Next(s.jobs[id], CountReader).Some?;
      t := ReachesNext(s, Background(id, CountReader));
    }
  }

  // ----- shutdown

  lemma OnlyMappedOn(s: Server, t: Server, u: Server)
    requires OnlyMappedChanged(s, t) && OnlyMappedChanged(t, u)
    ensures OnlyMappedChanged(s, u)
  {
  }

  lemma SignalNext(s: Server, id: JobId) returns (t: Server)
    requires Reachable(s) && s.shutdown.Signalling? && id in s.shutdown.todo
    ensures Reachable(t) && Reaches(s, t) && OnlyMappedChanged(s, t)
    ensures t.shutdown == Signalling(s.shutdown.todo - {id})
  {
    TodoIsMapped(s);
    Ready(s, id);
    var u := LockGetsFree(s, id);
    t := ReachesNext(u, ShutdownSignal(id, true));
    ReachesOn(s, u, t);
  }

  lemma {:induction false} SignallingEnds(s: Server) returns (t: Server)
    requires Reachable(s) && s.shutdown.Signalling?
    ensures Reachable(t) && Reaches(s, t) && OnlyMappedChanged(s, t) && t.shutdown.Awaiting?
    decreases |s.shutdown.todo|
  {
    if s.shutdown.todo == {} {
      t := ReachesNext(s, ShutdownWait);
    } else {
      var id :| id in s.shutdown.todo;
      var u := SignalNext(s, id);
      t := SignallingEnds(u);
      ReachesOn(s, u, t);
      OnlyMappedOn(s, u, t);
    }
  }

  lemma MappedCanGetDone(s: Server)
    requires Reachable(s) && s.shutdown.Awaiting?
    ensures s.mapped <= s.jobs.Keys && forall id <- s.mapped :: CanGetDone(s.jobs[id])
  {
    ReachableInv(s);
    forall id | id in s.mapped ensures CanGetDone(s.jobs[id]) {
      assert JobOk(s.jobs[id], false);
    }
  }

  lemma JobsGetDone(s: Server) returns (t: Server)
    requires s.mapped <= s.jobs.Keys && forall id <- s.mapped :: CanGetDone(s.jobs[id])
    ensures Reaches(s, t) && OnlyMappedChanged(s, t) && t.shutdown == s.shutdown
    ensures forall id <- t.mapped :: id in t.jobs && t.jobs[id].Done()
  {
    var fs := AllJobsGetDone(s, s.mapped);
    t := ServerRun(s, fs).value;
    assert AllBenign(fs) by {
      assert forall i :: 0 <= i < |fs| ==> ExitEvent(fs[i]);
    }
  }

  lemma ReachesReachable(s: Server, t: Server)
    requires Reachable(s) && Reaches(s, t)
    ensures Reachable(t)
  {
    var fs :| AllBenign(fs) && ServerRun(s, fs) == Some(t);
    var full, read, es :| ServerRun(NewServer(full, read), es) == Some(s);
    ServerRunConcat(NewServer(full, read), es, fs);
    assert ServerRun(NewServer(full, read), es + fs) == Some(t);
  }

  lemma AwaitingEnds(s: Server) returns (t: Server)
    requires Reachable(s) && s.shutdown.Awaiting?
    ensures Reachable(t) && Reaches(s, t) && OnlyMappedChanged(s, t) && t.shutdown.Purging?
  {
    MappedCanGetDone(s);
    var u := JobsGetDone(s);
    ReachesReachable(s, u);
    t := ReachesNext(u, ShutdownProceed);
    ReachesOn(s, u, t);
    OnlyMappedOn(s, u, t);
  }

  /** The cleanup of one job of the second loop ends. */
  lemma {:induction false} PurgeCurrentEnds(s: Server, id: JobId) returns (t: Server)
    requires Reachable(s) && s.shutdown.Purging? && s.shutdown.current == Some(id) && id in s.jobs
    ensures Reachable(t) && Reaches(s, t) && OnlyMappedChanged(s, t)
    ensures t.shutdown == Purging(s.shutdown.todo - {id}, None, s.shutdown.failed)
    decreases Measure(s.jobs[id])
  {
    var e, u := PurgeAdvances(s, id);
    if e == EndCleanup(true) {
      t := u;
    } else {
      t := PurgeCurrentEnds(u, id);
      ReachesOn(s, u, t);
      OnlyMappedOn(s, u, t);
    }
  }

  lemma PurgeAdvances(s: Server, id: JobId) returns (e: Event, t: Server)
    requires Reachable(s) && s.shutdown.Purging? && s.shutdown.current == Some(id) && id in s.jobs
    ensures Reachable(t) && Reaches(s, t) && OnlyMappedChanged(s, t) && id in t.jobs
    ensures if e == EndCleanup(true) then t.shutdown == Purging(s.shutdown.todo - {id}, None, s.shutdown.failed)
            else t.shutdown == s.shutdown && Measure(t.jobs[id]) < Measure(s.jobs[id])
  {
    e := PurgeStep(s, id);
    t := ReachesNext(s, if e.Step? then Background(id, e) else ShutdownClean(id, e));
  }

  lemma PurgeStep(s: Server, id: JobId) returns (e: Event)
    requires Reachable(s) && s.shutdown.Purging? && s.shutdown.current == Some(id) && id in s.jobs
    ensures FaultFree(e) && Next(s.jobs[id], e).Some? && e != EndCleanup(false)
    ensures Measure(Next(s.jobs[id], e).value) < Measure(s.jobs[id])
    ensures id in s.mapped && id in s.shutdown.todo
    ensures e == EndCleanup(true) || Next(s.jobs[id], e).value.lock.Cleaning?
  {
    var j := s.jobs[id];
    ReachableInv(s);
    assert JobOk(j, id in s.removed) && j.lock.Cleaning? && j.Done();
    e := CleanupNeverBlocksAll(j);
    MeasureFalls(j, e);
  }

  lemma PurgeBegins(s: Server, id: JobId) returns (t: Server)
    requires Reachable(s) && s.shutdown.Purging? && s.shutdown.current == None && id in s.shutdown.todo
    ensures Reachable(t) && Reaches(s, t) && OnlyMappedChanged(s, t) && id in t.jobs
    ensures t.shutdown == s.shutdown.(current := Some(id))
            || t.shutdown == Purging(s.shutdown.todo - {id}, None, s.shutdown.failed)
  {
    TodoIsMapped(s);
    Ready(s, id);
    var u := LockGetsFree(s, id);
    t := ReachesNext(u, ShutdownClean(id, BeginCleanup));
    ReachesOn(s, u, t);
  }

  /** One more job of the second loop. */
  lemma PurgeNext(s: Server) returns (t: Server)
    requires Reachable(s) && s.shutdown.Purging? && s.shutdown.todo != {}
    ensures Reachable(t) && Reaches(s, t) && OnlyMappedChanged(s, t)
    ensures t.shutdown.Purging? && |t.shutdown.todo| < |s.shutdown.todo| && t.shutdown.current == None
  {
    TodoIsMapped(s);
    var u, id := s, "";
    if s.shutdown.current.Some? {
      id := s.shutdown.current.value;
      ReachesItself(s);
    } else {
      id :| id in s.shutdown.todo;
      u := PurgeBegins(s, id);
    }
    if u.shutdown.current.Some? {
      t := PurgeCurrentEnds(u, id);
      ReachesOn(s, u, t);
      OnlyMappedOn(s, u, t);
    } else {
      t := u;
    }
  }

  lemma {:induction false} PurgingEnds(s: Server) returns (t: Server)
    requires Reachable(s) && s.shutdown.Purging?
    ensures Reachable(t) && Reaches(s, t) && OnlyMappedChanged(s, t) && t.shutdown.Idle?
    decreases |s.shutdown.todo|
  {
    TodoIsMapped(s);
    if s.shutdown.todo == {} {
      t := ReachesNext(s, ShutdownEnd);
    } else {
      var u := PurgeNext(s);
      t := PurgingEnds(u);
      ReachesOn(s, u, t);
      OnlyMappedOn(s, u, t);
    }
  }

  /** StopSupervisor can always return: from every reachable state there is a continuation,
   * without any help from clients and without faults, in which it does. */
  lemma ShutdownCanReturn(s: Server) returns (t: Server)
    requires Reachable(s)
    ensures Reachable(t) && Reaches(s, t) && OnlyMappedChanged(s, t) && t.shutdown.Idle?
  {
    t := s;
    ReachesItself(s);
    if t.shutdown.Signalling? {
      t := SignallingEnds(s);
    }
    if t.shutdown.Awaiting? {
      var u := AwaitingEnds(t);
      ReachesOn(s, t, u);
      OnlyMappedOn(s, t, u);
      t := u;
    }
    if t.shutdown.Purging? {
      var u := PurgingEnds(t);
      ReachesOn(s, t, u);
      OnlyMappedOn(s, t, u);
      t := u;
    }
  }

  // ----- calls

  /** A call in the hang described in ServerProgress: its cleanup waits for a reader that
   * nothing but its client, or a fault, will release. */
  ghost predicate Hanging(s: Server, c: nat) {
    At(s, c, Detached(true)) && s.calls[c].id in s.jobs && !Drains(s.jobs[s.calls[c].id])
  }

  ghost predicate Answered(s: Server, c: nat) {
    c < |s.calls| && s.calls[c].stage.Replied?
  }

  lemma AnsweredByCleanup(s: Server, c: nat) returns (t: Server)
    requires Reachable(s) && At(s, c, Detached(true)) && !Hanging(s, c)
    ensures Reaches(s, t) && Answered(t, c)
  {
    var fs := CleanupRuns(s, c);
    t := ServerRun(s, fs).value;
    forall i | 0 <= i < |fs| ensures Benign(fs[i]) {
      ProgressIsBenign(fs[i], c, s.calls[c].id);
    }
  }

  lemma CleanupRuns(s: Server, c: nat) returns (fs: seq<ServerEvent>)
    requires Reachable(s) && At(s, c, Detached(true)) && !Hanging(s, c)
    ensures ServerRun(s, fs).Some? && Answered(ServerRun(s, fs).value, c)
    ensures forall i :: 0 <= i < |fs| ==> CleanupProgress(fs[i], c, s.calls[c].id)
  {
    ReachableInv(s);
    CleaningUnderWay(s, c);
    fs := RemoveFinishes(s, c);
  }

  lemma ProgressIsBenign(e: ServerEvent, c: nat, id: JobId)
    requires CleanupProgress(e, c, id)
    ensures Benign(e)
  {
  }

  /** What is known of the job of a Remove before its cleanup. */
  lemma DetachedJob(s: Server, c: nat)
    requires Reachable(s) && At(s, c, Detached(false))
    ensures s.calls[c].id in s.jobs && CanGetDone(s.jobs[s.calls[c].id])
  {
    ReachableInv(s);
    assert CallOk(s, s.calls[c]);
    assert JobOk(s.jobs[s.calls[c].id], false);
  }

  /** The exit of the job comes first, and then its cleanup finds only readers that are
   * bound to leave. */
  lemma DetachedGetsDone(s: Server, c: nat) returns (t: Server)
    requires Reachable(s) && At(s, c, Detached(false))
    ensures Reachable(t) && Reaches(s, t) && At(t, c, Detached(false)) && t.calls[c].id in t.jobs
    ensures t.jobs[t.calls[c].id].lock.Free? && t.jobs[t.calls[c].id].Done()
  {
    var id := s.calls[c].id;
    DetachedJob(s, c);
    var fs := MappedJobGetsDone(s, id);
    var u := ServerRun(s, fs).value;
    assert AllBenign(fs) by {
      assert forall i :: 0 <= i < |fs| ==> ExitEvent(fs[i]);
    }
    assert Reaches(s, u);
    ReachesReachable(s, u);
    DetachedJob(u, c);
    t := LockGetsFree(u, id);
    ReachesOn(s, u, t);
  }

  lemma AnsweredAfterFailure(s: Server, c: nat) returns (t: Server)
    requires Reachable(s) && At(s, c, CleanupFailed)
    ensures Reaches(s, t) && Answered(t, c)
  {
    var u := ShutdownCanReturn(s);
    t := ReachesNext(u, Relist(c));
    ReachesOn(s, u, t);
  }

  lemma AnsweredFromDetached(s: Server, c: nat) returns (t: Server)
    requires Reachable(s) && At(s, c, Detached(false))
    ensures Reaches(s, t) && Answered(t, c)
  {
    var u := DetachedGetsDone(s, c);
    var v := ReachesNext(u, Clean(c, BeginCleanup));
    ReachesOn(s, u, v);
    if v.calls[c].stage.CleanupFailed? {
      t := AnsweredAfterFailure(v, c);
    } else {
      assert v.jobs[v.calls[c].id].Done();
      t := AnsweredByCleanup(v, c);
    }
    ReachesOn(s, v, t);
  }

  /** Nobody shuts down and nobody is inside the lock of the job that a call is after. */
  lemma QuietForCall(s: Server, c: nat) returns (t: Server)
    requires Reachable(s) && At(s, c, Admitted)
    ensures Reaches(s, t) && Reachable(t) && At(t, c, Admitted) && !t.calls[c].op.StartOp?
    ensures t.shutdown.Idle?
    ensures var id := t.calls[c].id; id in t.mapped ==> id in t.jobs && t.jobs[id].lock.Free?
  {
    t := ShutdownCanReturn(s);
    AdmittedOp(t, c);
    var id := t.calls[c].id;
    if id in t.mapped {
      Ready(t, id);
      var v := LockGetsFree(t, id);
      ReachesOn(s, t, v);
      t := v;
    }
  }

  lemma AnsweredFromAdmitted(s: Server, c: nat) returns (t: Server)
    requires Reachable(s) && At(s, c, Admitted)
    ensures Reaches(s, t) && Answered(t, c)
  {
    var u := QuietForCall(s, c);
    if u.calls[c].op.RemoveOp? {
      var v := ReachesNext(u, Detach(c));
      ReachesOn(s, u, v);
      if v.calls[c].stage.Replied? {
        t := v;
      } else {
        t := AnsweredFromDetached(v, c);
        ReachesOn(s, v, t);
      }
    } else {
      t := ReachesNext(u, Perform(c, true));
      ReachesOn(s, u, t);
    }
  }

  lemma AdmittedOp(s: Server, c: nat)
    requires Reachable(s) && At(s, c, Admitted)
    ensures !s.calls[c].op.StartOp?
  {
    ReachableInv(s);
    assert CallOk(s, s.calls[c]);
  }

  /** There is always an id that is not taken. */
  lemma FreshId(taken: set<JobId>) returns (id: JobId)
    ensures GoodId(id) && id !in taken
  {
    var n := 1;
    var rest := taken;
    while rest != {}
      invariant n >= 1 && rest <= taken
      invariant forall t <- taken - rest :: |t| < n
    {
      var t :| t in rest;
      n := if |t| < n then n else |t| + 1;
      rest := rest - {t};
    }
    id := seq(n, i => 'j');
    assert |id| == n && !IsSpace(id[0]) && !IsSpace(id[n - 1]);
  }

  lemma AnsweredFromArrived(s: Server, c: nat) returns (t: Server)
    requires Reachable(s) && At(s, c, Arrived)
    ensures Reaches(s, t) && Answered(t, c)
  {
    if s.calls[c].op.StartOp? {
      var id := FreshId(s.jobs.Keys);
      var u := ReachesNext(s, CreateJob(c, id));
      t := AnsweredFromCreated(u, c);
      ReachesOn(s, u, t);
    } else {
      t := ReachesNext(s, Admit(c));
      if t.calls[c].stage.Admitted? {
        var u := AnsweredFromAdmitted(t, c);
        ReachesOn(s, t, u);
        t := u;
      }
    }
  }

  lemma AnsweredFromCreated(s: Server, c: nat) returns (t: Server)
    requires Reachable(s) && (At(s, c, Created) || At(s, c, Listed))
    ensures Reaches(s, t) && Answered(t, c)
  {
    var u := s;
    ReachesItself(s);
    if At(s, c, Created) {
      var v := ShutdownCanReturn(s);
      u := ReachesNext(v, ListJob(c));
      ReachesOn(s, v, u);
    }
    t := ReachesNext(u, GrantOwner(c));
    ReachesOn(s, u, t);
  }

  lemma AnsweredFromElsewhere(s: Server, c: nat) returns (t: Server)
    requires Reachable(s) && c < |s.calls| && !Hanging(s, c)
    ensures Reaches(s, t) && Answered(t, c)
  {
    match s.calls[c].stage
    case Arrived => t := AnsweredFromArrived(s, c);
    case Admitted => t := AnsweredFromAdmitted(s, c);
    case Created => t := AnsweredFromCreated(s, c);
    case Listed => t := AnsweredFromCreated(s, c);
    case Detached(cleaning) =>
      if cleaning { t := AnsweredByCleanup(s, c); } else { t := AnsweredFromDetached(s, c); }
    case CleanupFailed => t := AnsweredAfterFailure(s, c);
    case Purged => t := ReachesNext(s, Revoke(c));
    case Replied(_) => t := s; ReachesItself(s);
  }

  /** Deadlock freedom, exactly: in every reachable state, and for every call, there is a
   * continuation without faults and without help from clients that answers the call, if
   * and only if the call is not in the one hanging shape. */
  lemma CallsCanBeAnsweredUnlessHanging(s: Server, c: nat)
    requires Reachable(s) && c < |s.calls|
    ensures !Hanging(s, c) <==> exists t :: Reaches(s, t) && Answered(t, c)
  {
    if Hanging(s, c) {
      forall t | Reaches(s, t) ensures !Answered(t, c) {
        HangingStays(s, c, t);
      }
    } else {
      var t := AnsweredFromElsewhere(s, c);
    }
  }

  lemma HangingStays(s: Server, c: nat, t: Server)
    requires Reachable(s) && Hanging(s, c) && Reaches(s, t)
    ensures !Answered(t, c)
  {
    var id := s.calls[c].id;
    ReachableInv(s);
    CleaningUnderWay(s, c);
    var j := s.jobs[id];
    var i :| 0 <= i < |j.readers| && !Bound(j.readers[i], j.Done());
    assert Stuck(j, i);
    var fs :| AllBenign(fs) && ServerRun(s, fs) == Some(t);
    StuckCallStays(s, fs, c, i);
  }

  /** While the cleanup is stuck the call stays where it is. */
  lemma {:induction false} StuckCallStays(s: Server, fs: seq<ServerEvent>, c: nat, i: nat)
    requires Reachable(s) && At(s, c, Detached(true)) && s.calls[c].id in s.jobs
    requires Stuck(s.jobs[s.calls[c].id], i)
    requires AllBenign(fs) && ServerRun(s, fs).Some?
    ensures At(ServerRun(s, fs).value, c, Detached(true))
    decreases |fs|
  {
    if fs == [] {
    } else {
      var t := ReachableStep(s, fs[0]);
      StuckCallOnce(s, fs[0], c, i);
      StuckCallStays(t, fs[1..], c, i);
    }
  }

  lemma StuckCallOnce(s: Server, e: ServerEvent, c: nat, i: nat)
    requires Reachable(s) && At(s, c, Detached(true)) && s.calls[c].id in s.jobs
    requires Stuck(s.jobs[s.calls[c].id], i)
    requires Benign(e) && ServerNext(s, e).Some?
    ensures var t := ServerNext(s, e).value;
            && At(t, c, Detached(true)) && t.calls[c].id == s.calls[c].id && s.calls[c].id in t.jobs
            && Stuck(t.jobs[s.calls[c].id], i)
  {
    ServerRunStep(s, e, []);
    assert [e] + [] == [e];
    var t := ServerNext(s, e).value;
    assert ServerRun(t, []) == Some(t);
    RemoveHangs(s, [e], c, i);
    StuckCallKeepsStage(s, e, c);
  }

  lemma StuckCallKeepsStage(s: Server, e: ServerEvent, c: nat)
    requires At(s, c, Detached(true)) && s.calls[c].id in s.jobs
    requires s.jobs[s.calls[c].id].lock == Cleaning(false)
    requires ServerNext(s, e).Some?
    ensures var t := ServerNext(s, e).value;
            At(t, c, Detached(true)) && t.calls[c].id == s.calls[c].id
  {
  }
}
