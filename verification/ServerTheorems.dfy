/** Safety of whole runs of the server. */
module ServerTheorems {
  import opened JobModel
  import opened JobInvariants
  import opened JobTheorems
  import opened AccessModel
  import opened ServerModel
  import opened ServerInvariants

  /** A state some run of a new server leads to. */
  ghost predicate Reachable(s: Server) {
    exists full, read, es :: ServerRun(NewServer(full, read), es) == Some(s)
  }

  lemma ReachableInv(s: Server)
    requires Reachable(s)
    ensures ServerInv(s)
  {
    var full, read, es :| ServerRun(NewServer(full, read), es) == Some(s);
    ServerInvRun(NewServer(full, read), es);
  }

  // ----- each job sees an ordinary run of its own

  /** One event of the server is at most one event of each job. */
  lemma JobSeesOneEvent(s: Server, e: ServerEvent, id: JobId) returns (es: seq<Event>)
    requires ServerNext(s, e).Some? && id in s.jobs
    ensures id in ServerNext(s, e).value.jobs
    ensures |es| <= 1 && Run(s.jobs[id], es) == Some(ServerNext(s, e).value.jobs[id])
    ensures forall i :: 0 <= i < |es| && Ambient(es[i]) ==> e == Background(id, es[i])
  {
    es := [];
    match e
    case Perform(c, ok) =>
      if ServerNext(s, e).value.jobs[id] != s.jobs[id] {
        es := JobCallIsEvent(s.jobs[id], s.calls[c].op, ok);
        assert forall i :: 0 <= i < |es| ==> es[i] in es;
      }
    case Clean(c, event) => if s.calls[c].id == id { es := OneEvent(s.jobs[id], event); }
    case Background(i, event) => if i == id { es := OneEvent(s.jobs[id], event); }
    case ShutdownSignal(i, ok) => if i == id { es := OneEvent(s.jobs[id], InitStop(ok)); }
    case ShutdownClean(i, event) => if i == id { es := OneEvent(s.jobs[id], event); }
    case _ =>
  }

  lemma OneEvent(j: JobState, e: Event) returns (es: seq<Event>)
    requires Next(j, e).Some?
    ensures es == [e] && Run(j, es) == Next(j, e)
  {
    es := [e];
    RunStep(j, es);
  }

  lemma {:induction false} JobSeesRun(s: Server, fs: seq<ServerEvent>, id: JobId) returns (es: seq<Event>)
    requires id in s.jobs && ServerRun(s, fs).Some?
    ensures id in ServerRun(s, fs).value.jobs
    ensures Run(s.jobs[id], es) == Some(ServerRun(s, fs).value.jobs[id])
    ensures forall i :: 0 <= i < |es| && Ambient(es[i]) ==> Background(id, es[i]) in fs
    decreases |fs|
  {
    es := [];
    if fs == [] {
    } else {
      var head := JobSeesOneEvent(s, fs[0], id);
      var t := ServerNext(s, fs[0]).value;
      var tail := JobSeesRun(t, fs[1..], id);
      RunConcat(s.jobs[id], head, tail);
      es := head + tail;
    }
  }

  /** Whatever the calls do, each job in the server has behaved as a new job on its own may
   * behave, so every theorem about runs of a job holds in the server. */
  lemma {:induction false} JobRunsAlone(s: Server, fs: seq<ServerEvent>, id: JobId) returns (es: seq<Event>)
    requires id !in s.jobs && ServerRun(s, fs).Some? && id in ServerRun(s, fs).value.jobs
    ensures Run(NEW_JOB, es) == Some(ServerRun(s, fs).value.jobs[id])
    decreases |fs|
  {
    var t := ServerNext(s, fs[0]).value;
    if id in t.jobs {
      assert t.jobs[id] == NEW_JOB;
      es := JobSeesRun(t, fs[1..], id);
    } else {
      es := JobRunsAlone(t, fs[1..], id);
    }
  }

  // ----- where the jobs are

  /** Every job is in exactly one place: in the map, removed, or with exactly one call that
   * is creating it or removing it. */
  lemma JobsConserved(s: Server, id: JobId)
    requires Reachable(s) && id in s.jobs
    ensures id in s.mapped ==> id !in s.removed && !HeldBySome(s.calls, id)
    ensures id in s.removed ==> !HeldBySome(s.calls, id)
    ensures id in s.mapped || id in s.removed || HeldBySome(s.calls, id)
    ensures forall c, d :: 0 <= c < |s.calls| && 0 <= d < |s.calls| && Holds(s.calls[c], id) && Holds(s.calls[d], id)
              ==> c == d
  {
    ReachableInv(s);
    forall c | 0 <= c < |s.calls| && Holds(s.calls[c], id)
      ensures id !in s.mapped && id !in s.removed
    {
      assert CallOk(s, s.calls[c]);
    }
    forall c, d | 0 <= c < |s.calls| && 0 <= d < |s.calls| && Holds(s.calls[c], id) && Holds(s.calls[d], id)
      ensures c == d
    {
      assert Tied(s.calls[c]) && Tied(s.calls[d]);
    }
  }

  /** The Completed check of Remove is still valid when its Cleanup takes the job's lock,
   * and no other cleanup of the same job is then in progress. */
  lemma RemoveCheckStaysValid(s: Server, c: nat)
    requires Reachable(s) && At(s, c, Detached(false))
    ensures var id := s.calls[c].id;
            && id in s.jobs
            && s.jobs[id].handler.Completed()
            && !s.jobs[id].lock.Cleaning?
  {
    ReachableInv(s);
    assert CallOk(s, s.calls[c]);
  }

  /** A call that holds the map's lock never waits for a cleanup: the only cleanup that holds
   * the lock of a job in the map is the one of a shutdown, which holds the map's lock
   * itself. */
  lemma MapLockNeverWaitsForCleanup(s: Server, id: JobId)
    requires Reachable(s) && id in s.mapped
    ensures id in s.jobs
    ensures s.jobs[id].lock.Cleaning? ==> s.shutdown.Purging? && s.shutdown.current == Some(id)
    ensures s.jobs[id].lock.Opening? ==> Next(s.jobs[id], CountReader).Some?
  {
    ReachableInv(s);
    assert JobOk(s.jobs[id], false) && ReaderInv(s.jobs[id]);
  }

  /** RemoveAll is reached, by a Remove or by a shutdown, only for a job whose exit has been
   * handled or that has been sent SIGKILL. */
  lemma DirectoriesGoLate(s: Server, id: JobId, ok: bool)
    requires Reachable(s) && id in s.jobs && Next(s.jobs[id], EndCleanup(ok)).Some?
    ensures s.jobs[id].exit.Handled? || s.jobs[id].Delivered(Kill)
  {
    ReachableInv(s);
    assert JobOk(s.jobs[id], id in s.removed);
    assert ReaderInv(s.jobs[id]) && ExitInv(s.jobs[id]) && SignalInv(s.jobs[id]);
  }

  /** `Inspect` reports the process's exit code of a completed job in the map exactly when the
   * process has been reaped; otherwise the job is Stopped by a delivered SIGKILL, its exit
   * is still to come, and the code is -1. */
  lemma ExitCodeReportedIffReaped(s: Server, id: JobId)
    requires Reachable(s) && id in s.mapped && id in s.jobs && s.jobs[id].handler.Completed()
    ensures var j := s.jobs[id];
            && (j.process.Reaped? <==>
                  exists code :: j.process == Reaped(code) && Inspection(j) == Details(j.handler, code))
            && (j.process.Running? ==>
                  && Inspection(j) == Details(Stopped, -1)
                  && j.exit.Unhandled? && j.Delivered(Kill))
  {
    ReachableInv(s);
    var j := s.jobs[id];
    assert JobOk(j, false) && ExitInv(j) && SignalInv(j);
    if j.process.Reaped? {
      assert Inspection(j) == Details(j.handler, j.process.code);
    }
  }

  /** The code that `cmd.Wait` returned is what `Inspect` reports once the job is completed, in
   * every continuation. */
  lemma ReapedCodeIsReported(j: JobState, code: int, es: seq<Event>)
    requires Next(j, Reap(code)).Some? && Run(Next(j, Reap(code)).value, es).Some?
    ensures var m := Run(Next(j, Reap(code)).value, es).value;
            m.process == Reaped(code) && (m.handler.Completed() ==> Inspection(m) == Details(m.handler, code))
  {
    HistoryOnlyGrows(Next(j, Reap(code)).value, es);
  }

  // ----- shutdown

  /** A job in the map has `done` closed, or its exit is still to be handled and will close
   * `done`; a job whose `done` stays open for good is never in the map. */
  lemma MappedJobsWillBeDone(s: Server, id: JobId)
    requires Reachable(s) && id in s.mapped
    ensures id in s.jobs
    ensures s.jobs[id].exit.Handled? ==> s.jobs[id].Done()
    ensures s.jobs[id].exit.Unhandled? && Next(s.jobs[id], HandleExit).Some? ==>
              Next(s.jobs[id], HandleExit).value.Done()
  {
    ReachableInv(s);
    assert JobOk(s.jobs[id], false);
    assert ExitInv(s.jobs[id]);
  }

  /** The events that let a waiting shutdown go on: processes exit, and sections that were
   * already running in a job end. */
  predicate ExitEvent(e: ServerEvent) {
    e.Background? && (e.event.Reap? || e.event.HandleExit? || e.event.CountReader?)
  }

  lemma ServerRunConcat(s: Server, es: seq<ServerEvent>, fs: seq<ServerEvent>)
    requires ServerRun(s, es).Some?
    ensures ServerRun(s, es + fs) == ServerRun(ServerRun(s, es).value, fs)
    decreases |es|
  {
    if es == [] {
      assert es + fs == fs;
    } else {
      assert (es + fs)[0] == es[0] && (es + fs)[1..] == es[1..] + fs;
      ServerRunConcat(ServerNext(s, es[0]).value, es[1..], fs);
    }
  }

  /** Background events of one job, one after the other, change that job alone. */
  lemma {:induction false} BackgroundRun(s: Server, id: JobId, es: seq<Event>) returns (fs: seq<ServerEvent>)
    requires id in s.jobs && Run(s.jobs[id], es).Some?
    requires forall i :: 0 <= i < |es| ==> Ambient(es[i])
    ensures |fs| == |es| && forall i :: 0 <= i < |es| ==> fs[i] == Background(id, es[i])
    ensures ServerRun(s, fs) == Some(SetJob(s, id, Run(s.jobs[id], es).value))
    decreases |es|
  {
    if es == [] {
      fs := [];
      assert SetJob(s, id, s.jobs[id]) == s;
    } else {
      var t := SetJob(s, id, Next(s.jobs[id], es[0]).value);
      var rest := BackgroundRun(t, id, es[1..]);
      fs := [Background(id, es[0])] + rest;
      assert fs[1..] == rest;
      assert SetJob(t, id, Run(t.jobs[id], es[1..]).value) == SetJob(s, id, Run(t.jobs[id], es[1..]).value);
    }
  }

  /** The wait of StopSupervisor is always satisfiable: from any reachable waiting state the
   * exits of the jobs alone lead to one where it goes on. */
  lemma ShutdownWaitCanEnd(s: Server) returns (t: Server)
    requires Reachable(s) && s.shutdown.Awaiting?
    ensures ExitsLeadTo(s, t) && ServerNext(t, ShutdownProceed).Some?
  {
    ReachableInv(s);
    forall id | id in s.mapped ensures CanGetDone(s.jobs[id]) {
      assert JobOk(s.jobs[id], false);
    }
    var es := AllJobsGetDone(s, s.mapped);
    t := ServerRun(s, es).value;
  }

  ghost predicate ExitsLeadTo(s: Server, t: Server) {
    exists es :: ServerRun(s, es) == Some(t) && forall i :: 0 <= i < |es| ==> ExitEvent(es[i])
  }

  ghost predicate CanGetDone(j: JobState) {
    Inv(j) && !j.lock.Cleaning? && (j.handler == Zombie ==> j.Done())
  }

  /** Only jobs of a set have changed. */
  ghost predicate OnlyJobsChanged(s: Server, t: Server, ids: set<JobId>) {
    && t == s.(jobs := t.jobs)
    && t.jobs.Keys == s.jobs.Keys
    && forall id <- s.jobs.Keys :: id !in ids ==> t.jobs[id] == s.jobs[id]
  }

  lemma MappedJobGetsDone(s: Server, id: JobId) returns (fs: seq<ServerEvent>)
    requires id in s.jobs && CanGetDone(s.jobs[id])
    ensures ServerRun(s, fs).Some? && (forall i :: 0 <= i < |fs| ==> ExitEvent(fs[i]))
    ensures OnlyJobsChanged(s, ServerRun(s, fs).value, {id})
    ensures ServerRun(s, fs).value.jobs[id].Done()
  {
    var es := JobGetsDone(s.jobs[id]);
    fs := BackgroundRun(s, id, es);
  }

  lemma {:induction false} AllJobsGetDone(s: Server, todo: set<JobId>) returns (fs: seq<ServerEvent>)
    requires todo <= s.mapped <= s.jobs.Keys
    requires forall id <- todo :: CanGetDone(s.jobs[id])
    requires forall id <- s.mapped - todo :: s.jobs[id].Done()
    ensures ServerRun(s, fs).Some? && (forall i :: 0 <= i < |fs| ==> ExitEvent(fs[i]))
    ensures OnlyJobsChanged(s, ServerRun(s, fs).value, s.mapped)
    ensures forall id <- s.mapped :: ServerRun(s, fs).value.jobs[id].Done()
    decreases |todo|
  {
    if todo == {} {
      fs := [];
    } else {
      var id :| id in todo;
      var head := MappedJobGetsDone(s, id);
      var t := ServerRun(s, head).value;
      var tail := AllJobsGetDone(t, todo - {id});
      ServerRunConcat(s, head, tail);
      fs := head + tail;
    }
  }

  /** When StopSupervisor returns, every job in the map has exited with `done` closed, as
   * stopped exactly if a signal was delivered, and is a Zombie exactly unless the removal of
   * its directory has failed in this shutdown. */
  lemma ShutdownPostcondition(s: Server, id: JobId)
    requires Reachable(s) && ServerNext(s, ShutdownEnd).Some? && id in s.mapped
    ensures id in s.jobs
    ensures var j := s.jobs[id];
            && j.process.Reaped? && j.exit.Handled? && j.doneCloses == 1
            && (j.exit.at == Stopping || j.exit.at == Stopped <==> j.Delivered(Term) || j.Delivered(Kill))
            && (j.handler == Zombie <==> id !in s.shutdown.failed)
  {
    assert s.shutdown.todo == {};
    PurgedJob(s, id);
    assert ExitInv(s.jobs[id]) && SignalInv(s.jobs[id]);
  }

  /** The TERM signal of a shutdown, for a job that was Active in state `s` and is seen in `t`. */
  ghost predicate SignalTaken(s: Server, t: Server, id: JobId, ok: bool) {
    && id in s.jobs && id in t.jobs
    && (s.jobs[id].handler == Active ==> s.jobs[id].attempts + [Attempt(Term, ok)] <= t.jobs[id].attempts)
  }

  /** Each job that is in the map when a shutdown begins gets its turn in the first loop, and if
   * it is Active then, SIGTERM is attempted; `k` is its turn in the run, which has to happen
   * before the shutdown can go on to wait, and to return. */
  lemma ShutdownSignalsEveryJob(s: Server, fs: seq<ServerEvent>, id: JobId) returns (k: nat, ok: bool)
    requires Reachable(s) && ServerNext(s, ShutdownBegin).Some? && id in s.mapped
    requires ServerRun(ServerNext(s, ShutdownBegin).value, fs).Some?
    requires var t := ServerRun(ServerNext(s, ShutdownBegin).value, fs).value;
             !t.shutdown.Signalling? || id !in t.shutdown.todo
    ensures k < |fs| && fs[k] == ShutdownSignal(id, ok)
    ensures var begun := ServerNext(s, ShutdownBegin).value;
            && ServerRun(begun, fs[..k]).Some?
            && SignalTaken(ServerRun(begun, fs[..k]).value, ServerRun(begun, fs).value, id, ok)
  {
    ReachableInv(s);
    k, ok := TurnComes(ServerNext(s, ShutdownBegin).value, fs, id);
  }

  lemma {:induction false} TurnComes(s: Server, fs: seq<ServerEvent>, id: JobId) returns (k: nat, ok: bool)
    requires id in s.jobs && s.shutdown.Signalling? && id in s.shutdown.todo && ServerRun(s, fs).Some?
    requires var t := ServerRun(s, fs).value; !t.shutdown.Signalling? || id !in t.shutdown.todo
    ensures k < |fs| && fs[k] == ShutdownSignal(id, ok) && ServerRun(s, fs[..k]).Some?
    ensures SignalTaken(ServerRun(s, fs[..k]).value, ServerRun(s, fs).value, id, ok)
    decreases |fs|
  {
    var t := ServerNext(s, fs[0]).value;
    if fs[0].ShutdownSignal? && fs[0].id == id {
      k, ok := 0, fs[0].ok;
      TermAttempted(s, id, ok);
      var es := JobSeesRun(t, fs[1..], id);
      HistoryOnlyGrows(t.jobs[id], es);
    } else {
      TurnIsKept(s, fs[0], id);
      var n: nat;
      n, ok := TurnComes(t, fs[1..], id);
      k := n + 1;
      assert fs[..k][0] == fs[0] && fs[..k][1..] == fs[1..][..n];
    }
  }

  lemma TermAttempted(s: Server, id: JobId, ok: bool)
    requires ServerNext(s, ShutdownSignal(id, ok)).Some?
    ensures var t := ServerNext(s, ShutdownSignal(id, ok)).value;
            && id in s.jobs && id in t.jobs
            && (s.jobs[id].handler == Active ==> t.jobs[id].attempts == s.jobs[id].attempts + [Attempt(Term, ok)])
  {
  }

  lemma TurnIsKept(s: Server, e: ServerEvent, id: JobId)
    requires id in s.jobs && s.shutdown.Signalling? && id in s.shutdown.todo && ServerNext(s, e).Some?
    requires !(e.ShutdownSignal? && e.id == id)
    ensures var t := ServerNext(s, e).value; id in t.jobs && t.shutdown.Signalling? && id in t.shutdown.todo
  {
    var es := JobSeesOneEvent(s, e, id);
  }

  /** A job that the second loop of a shutdown is through with. */
  lemma PurgedJob(s: Server, id: JobId)
    requires Reachable(s) && s.shutdown.Purging? && id in s.mapped && id !in s.shutdown.todo
    ensures id in s.jobs && ExitInv(s.jobs[id]) && SignalInv(s.jobs[id]) && s.jobs[id].Done()
    ensures s.jobs[id].handler == Zombie <==> id !in s.shutdown.failed
  {
    ReachableInv(s);
    assert id in s.mapped - s.shutdown.todo;
    assert JobOk(s.jobs[id], false);
  }

  // ----- owners

  /** A job in the map or in the hands of a Remove has an owner unless its Start has not set
   * it yet or was asked for by a blank client. */
  lemma MappedJobsAreOwned(s: Server, id: JobId)
    requires Reachable(s) && id in s.jobs && id !in s.acl.owners && id !in s.removed
    ensures id in s.starter
    ensures Trim(s.starter[id]) == "" || SomeAt(s.calls, id, Created) || SomeAt(s.calls, id, Listed)
  {
    ReachableInv(s);
    if id !in s.announced && id !in s.mapped {
      var c :| 0 <= c < |s.calls| && Holds(s.calls[c], id);
      assert CallOk(s, s.calls[c]);
      assert s.calls[c].id == id && s.calls[c].stage == Created;
    }
  }

  /** An owned job is in the map unless its Remove is in flight. */
  lemma OwnedJobsAreMapped(s: Server, id: JobId)
    requires Reachable(s) && id in s.acl.owners && id !in s.mapped
    ensures exists c :: 0 <= c < |s.calls| && s.calls[c].id == id && s.calls[c].op.RemoveOp?
              && (s.calls[c].stage.Detached? || s.calls[c].stage.CleanupFailed? || s.calls[c].stage.Purged?)
  {
    ReachableInv(s);
    if id in s.removed {
      var c :| 0 <= c < |s.calls| && s.calls[c].id == id && s.calls[c].stage == Purged;
      assert CallOk(s, s.calls[c]);
    } else {
      assert HeldBySome(s.calls, id);
      var c :| 0 <= c < |s.calls| && Holds(s.calls[c], id);
      assert CallOk(s, s.calls[c]);
      assert !s.calls[c].stage.Created?;
    }
  }

  /** With no call between the two tables, they have the same keys, up to the jobs of blank
   * clients, which nobody owns. */
  lemma TablesAgreeAtRest(s: Server)
    requires Reachable(s) && forall c :: 0 <= c < |s.calls| ==> !Tied(s.calls[c])
    ensures s.mapped <= s.starter.Keys
    ensures s.acl.owners.Keys == set id | id in s.mapped && Trim(s.starter[id]) != ""
  {
    ReachableInv(s);
    assert forall c :: 0 <= c < |s.calls| ==> !Tied(s.calls[c]);
    forall id | id in s.acl.owners.Keys ensures id in s.mapped && Trim(s.starter[id]) != "" {
      if id !in s.mapped {
        OwnedJobsAreMapped(s, id);
      }
    }
    forall id | id in s.mapped && Trim(s.starter[id]) != "" ensures id in s.acl.owners.Keys {
      if id !in s.acl.owners {
        MappedJobsAreOwned(s, id);
      }
    }
  }

  // ----- access

  /** The access check admits exactly the entitled clients of a job that has an owner: the
   * client spelled like the trimmed name of its starter, full superusers, and read
   * superusers for reading; and who may do everything may read. */
  lemma CheckMeansEntitled(s: Server, client: string, op: Op, id: JobId)
    requires Reachable(s)
    ensures Allowed(s.acl, client, id, op.Needs()) <==> id in s.acl.owners && Entitled(s, client, op, id)
    ensures Entitled(s, client, op, id) <==>
            && id in s.starter
            && (client == Trim(s.starter[id]) || client in s.acl.full
                || (client in s.acl.read && (op == InspectOp || op == LogsOp(true) || op == LogsOp(false))))
    ensures Allowed(s.acl, client, id, FullAccess) ==> Allowed(s.acl, client, id, ReadAccess)
  {
    OwnersKnown(s);
  }

  lemma OwnersKnown(s: Server)
    requires Reachable(s)
    ensures forall id <- s.acl.owners.Keys :: id in s.starter && s.acl.owners[id] == Trim(s.starter[id]) != ""
  {
    ReachableInv(s);
  }

  predicate Superuser(s: Server, client: string) {
    client in s.acl.full || client in s.acl.read
  }

  /** A client that gets in without having started the job: another spelling of the starter. */
  predicate OtherSpelling(client: string, starter: string) {
    client == Trim(starter) != starter
  }

  /** In every run, a call that got anything but "not found" out of the server, or that is
   * inside the supervisor, comes from the client that started the job and whose name has
   * no blanks around it, from a superuser of the kind needed, or from a client whose name
   * is that of the starter without the blanks around it; everybody else is told "not
   * found", as for a job that does not exist. */
  lemma OnlyEntitledCallsReachJobs(s: Server, c: nat)
    requires Reachable(s) && c < |s.calls| && !s.calls[c].op.StartOp?
    requires s.calls[c].stage != Arrived && s.calls[c].stage != Replied(NotFound)
    ensures s.calls[c].id in s.starter
    ensures var q := s.calls[c]; var starter := s.starter[q.id];
            || (q.client == starter && Trim(q.client) == q.client)
            || q.client in s.acl.full
            || ((q.op == InspectOp || q.op == LogsOp(true) || q.op == LogsOp(false)) && q.client in s.acl.read)
            || OtherSpelling(q.client, starter)
  {
    ReachableInv(s);
    assert CallOk(s, s.calls[c]);
  }

  /** What the check does with a call: it is admitted if the job has an owner of the client's
   * name, or the client may do everything, or it may read and the call is an Inspect or a
   * Logs; in particular a Stop or a Remove of a client that may only read is refused. */
  lemma AdmissionDecided(s: Server, c: nat)
    requires ServerNext(s, Admit(c)).Some?
    ensures var q, t := s.calls[c], ServerNext(s, Admit(c)).value;
            && t == s.(calls := s.calls[c := t.calls[c]]) && t.calls[c] == q.(stage := t.calls[c].stage)
            && t.calls[c].stage ==
                 if && q.id in s.acl.owners
                    && (|| s.acl.owners[q.id] == q.client
                        || q.client in s.acl.full
                        || (q.client in s.acl.read && (q.op == InspectOp || q.op == LogsOp(true) || q.op == LogsOp(false))))
                 then Admitted else Replied(NotFound)
  {
    assert !s.calls[c].op.StartOp?;
  }

  /** What a call that the check has admitted does to its job, and what it answers. */
  lemma PerformAnswers(s: Server, c: nat, ok: bool)
    requires ServerNext(s, Perform(c, ok)).Some?
    ensures var q, t := s.calls[c], ServerNext(s, Perform(c, ok)).value;
            && c < |t.calls| && t.calls[c].stage.Replied? && t.mapped == s.mapped && t.acl == s.acl
            && var reply := t.calls[c].stage.reply;
            && (q.id !in s.mapped ==> reply == NotFound && t.jobs == s.jobs)
            && (q.id in s.mapped && q.id in s.jobs ==>
                  && q.id in t.jobs && t.jobs == s.jobs[q.id := t.jobs[q.id]]
                  && (q.op == StopOp(true) ==> StopOutcome(s.jobs[q.id], t.jobs[q.id], true, ok, reply))
                  && (q.op == StopOp(false) ==> StopOutcome(s.jobs[q.id], t.jobs[q.id], false, ok, reply))
                  && (q.op == InspectOp ==> t.jobs == s.jobs && InspectOutcome(s.jobs[q.id], reply))
                  && (q.op == LogsOp(true) ==> OpenOutcome(s.jobs[q.id], t.jobs[q.id], true, ok, reply))
                  && (q.op == LogsOp(false) ==> OpenOutcome(s.jobs[q.id], t.jobs[q.id], false, ok, reply)))
  {
    var q := s.calls[c];
    if q.id in s.mapped && q.id in s.jobs {
      var j := s.jobs[q.id];
      JobCallOutcome(j, q.op, ok);
      var k := JobCall(j, q.op, ok).value.0;
      assert ServerNext(s, Perform(c, ok)).value.jobs[q.id] == k;
      assert q.op.InspectOp? ==> s.jobs[q.id := j] == s.jobs;
    }
  }

  lemma JobCallOutcome(j: JobState, op: Op, ok: bool)
    requires !op.StartOp? && !op.RemoveOp? && JobCall(j, op, ok).Some?
    ensures var (k, reply) := JobCall(j, op, ok).value;
            && (op.StopOp? ==> StopOutcome(j, k, op.graceful, ok, reply))
            && (op.InspectOp? ==> k == j && InspectOutcome(j, reply))
            && (op.LogsOp? ==> OpenOutcome(j, k, op.follow, ok, reply))
  {
  }

  /** A Start creates a fresh job, puts it into the map, and gives it to the trimmed client, or
   * to nobody if that is blank; or it fails and leaves nothing behind. */
  lemma StartAnswers(s: Server, e: ServerEvent, c: nat, id: JobId)
    requires ServerNext(s, e).Some?
    requires e == CreateJob(c, id) || ((e == CreateFails(c) || e == ListJob(c) || e == GrantOwner(c)) && s.calls[c].id == id)
    ensures var q, t := s.calls[c], ServerNext(s, e).value;
            && c < |t.calls| && t.calls == s.calls[c := t.calls[c]] && t.calls[c].client == q.client && t.calls[c].id == id
            && (e.CreateFails? ==> t == s.(calls := t.calls) && t.calls[c].stage == Replied(Internal))
            && (e.CreateJob? ==>
                  && id !in s.jobs && t.jobs == s.jobs[id := NEW_JOB] && t.mapped == s.mapped && t.acl == s.acl
                  && t.calls[c].stage == Created)
            && (e.ListJob? ==>
                  && t.jobs == s.jobs && t.mapped == s.mapped + {id} && t.acl == s.acl && t.calls[c].stage == Listed)
            && (e.GrantOwner? && Trim(id) == id != "" ==>
                  && t.jobs == s.jobs && t.mapped == s.mapped && t.calls[c].stage == Replied(Started(id))
                  && t.acl == if Trim(q.client) == "" then s.acl
                              else s.acl.(owners := s.acl.owners[id := Trim(q.client)]))
  {
  }

  /** A Remove that the check has admitted takes a completed job, and no other, out of the map;
   * it answers what it has found, or what has become of its cleanup. */
  lemma RemoveAnswers(s: Server, e: ServerEvent, c: nat)
    requires ServerNext(s, e).Some? && (e == Detach(c) || e == Relist(c) || e == Revoke(c))
    ensures var id, t := s.calls[c].id, ServerNext(s, e).value;
            && t.jobs == s.jobs && c < |t.calls| && t.calls == s.calls[c := s.calls[c].(stage := t.calls[c].stage)]
            && (e.Detach? ==>
                  && t.acl == s.acl
                  && (id !in s.mapped ==> t.calls[c].stage == Replied(NotFound) && t.mapped == s.mapped)
                  && (id in s.mapped && id in s.jobs && !s.jobs[id].handler.Completed() ==>
                        t.calls[c].stage == Replied(Internal) && t.mapped == s.mapped)
                  && (id in s.mapped && id in s.jobs && s.jobs[id].handler.Completed() ==>
                        t.calls[c].stage == Detached(false) && t.mapped == s.mapped - {id}))
            && (e.Relist? ==>
                  && s.calls[c].stage == CleanupFailed && t.acl == s.acl
                  && t.calls[c].stage == Replied(Internal) && t.mapped == s.mapped + {id})
            && (e.Revoke? ==>
                  && s.calls[c].stage == Purged && t.mapped == s.mapped
                  && t.calls[c].stage == Replied(Fine) && t.acl == s.acl.(owners := s.acl.owners - {id}))
  {
    assert s.calls[c].id !in s.acl.owners ==> s.acl.owners - {s.calls[c].id} == s.acl.owners;
  }

  /** In between, its cleanup either makes the job a Zombie, without readers, and lets it go
   * for good, or fails and leaves the job as it was. */
  lemma RemoveCleans(s: Server, c: nat, event: Event)
    requires Reachable(s) && ServerNext(s, Clean(c, event)).Some?
    ensures var id, t := s.calls[c].id, ServerNext(s, Clean(c, event)).value;
            && id in s.jobs && id in t.jobs && c < |t.calls| && t.mapped == s.mapped && t.acl == s.acl
            && (t.calls[c].stage == Purged <==> event == EndCleanup(true))
            && (t.calls[c].stage == CleanupFailed <==>
                  event == EndCleanup(false) || (event == BeginCleanup && s.jobs[id].handler == Zombie))
            && (t.calls[c].stage == Purged ==>
                  t.jobs[id].handler == Zombie && AllClosed(t.jobs[id].readers) && id in t.removed)
            && (t.calls[c].stage != Purged ==> t.jobs[id].handler == s.jobs[id].handler && t.removed == s.removed)
            && (t.calls[c].stage != Detached(true) ==> t.jobs[id].lock.Free?)
            && t.jobs[id].purges == s.jobs[id].purges + (if event.EndCleanup? then 1 else 0)
  {
    RemovedJob(s, c);
    CleanedJob(s, c, event);
  }

  /** The job of a Remove that is cleaning up, or is about to. */
  lemma RemovedJob(s: Server, c: nat)
    requires Reachable(s) && c < |s.calls| && s.calls[c].stage.Detached?
    ensures s.calls[c].id in s.jobs && ReaderInv(s.jobs[s.calls[c].id])
    ensures s.jobs[s.calls[c].id].lock.Cleaning? <==> s.calls[c].stage == Detached(true)
  {
    ReachableInv(s);
    assert CallOk(s, s.calls[c]) && JobOk(s.jobs[s.calls[c].id], false);
  }

  lemma CleanedJob(s: Server, c: nat, event: Event)
    requires AfterClean(s, c, event).Some? && s.calls[c].id in s.jobs && ReaderInv(s.jobs[s.calls[c].id])
    requires s.jobs[s.calls[c].id].lock.Cleaning? <==> s.calls[c].stage == Detached(true)
    ensures var id, t := s.calls[c].id, AfterClean(s, c, event).value;
            && id in t.jobs && c < |t.calls| && t.mapped == s.mapped && t.acl == s.acl
            && (t.calls[c].stage == Purged <==> event == EndCleanup(true))
            && (t.calls[c].stage == CleanupFailed <==>
                  event == EndCleanup(false) || (event == BeginCleanup && s.jobs[id].handler == Zombie))
            && (t.calls[c].stage == Purged ==>
                  t.jobs[id].handler == Zombie && AllClosed(t.jobs[id].readers) && id in t.removed)
            && (t.calls[c].stage != Purged ==> t.jobs[id].handler == s.jobs[id].handler && t.removed == s.removed)
            && (t.calls[c].stage != Detached(true) ==> t.jobs[id].lock.Free?)
            && t.jobs[id].purges == s.jobs[id].purges + (if event.EndCleanup? then 1 else 0)
  {
  }

  /** The last case is real, and exactly this: a client without privileges gets in without
   * having started the job if and only if it is that other spelling. The starter itself
   * gets in if and only if its name has no blanks around it. */
  lemma StrangersGetInExactly(s: Server, client: string, id: JobId, access: Access)
    requires Reachable(s) && id in s.acl.owners && !Superuser(s, client)
    ensures id in s.starter
    ensures Allowed(s.acl, client, id, access) && client != s.starter[id] <==> OtherSpelling(client, s.starter[id])
    ensures client == s.starter[id] ==> (Allowed(s.acl, client, id, access) <==> Trim(client) == client)
  {
    OwnersKnown(s);
  }

  ghost predicate StarterAlone(s: Server, id: JobId, access: Access)
    requires id in s.starter
  {
    forall client :: !Superuser(s, client) && Allowed(s.acl, client, id, access) ==> client == s.starter[id]
  }

  /** So among clients without privileges a job is its starter's alone exactly when the
   * starter's name has no blanks around it, or is privileged without them. */
  lemma StarterAloneIffTrimmed(s: Server, id: JobId, access: Access)
    requires Reachable(s) && id in s.acl.owners
    ensures id in s.starter
    ensures StarterAlone(s, id, access) <==>
            Trim(s.starter[id]) == s.starter[id] || Superuser(s, Trim(s.starter[id]))
  {
    ReachableInv(s);
    var other := Trim(s.starter[id]);
    if other != s.starter[id] && !Superuser(s, other) {
      StrangersGetInExactly(s, other, id, access);
    } else {
      forall client | !Superuser(s, client) && Allowed(s.acl, client, id, access) ensures client == s.starter[id] {
        StrangersGetInExactly(s, client, id, access);
      }
    }
  }

  /** A call that has been answered stays answered. */
  lemma {:induction false} RepliesAreFinal(s: Server, fs: seq<ServerEvent>, c: nat)
    requires ServerRun(s, fs).Some? && c < |s.calls| && s.calls[c].stage.Replied?
    ensures c < |ServerRun(s, fs).value.calls|
    ensures ServerRun(s, fs).value.calls[c] == s.calls[c]
    decreases |fs|
  {
    if fs == [] {
    } else {
      ReplyStays(s, fs[0], c);
      RepliesAreFinal(ServerNext(s, fs[0]).value, fs[1..], c);
    }
  }

  lemma ReplyStays(s: Server, e: ServerEvent, c: nat)
    requires ServerNext(s, e).Some? && c < |s.calls| && s.calls[c].stage.Replied?
    ensures var t := ServerNext(s, e).value; c < |t.calls| && t.calls[c] == s.calls[c]
  {
  }

  /** Once a Remove has been answered with success, no client, superusers included, gets
   * past the check for that id in any continuation, and the id is never in the map
   * again. */
  lemma RemoveRevokesForGood(s: Server, fs: seq<ServerEvent>, c: nat, client: string, access: Access)
    requires Reachable(s) && ServerRun(s, fs).Some?
    requires c < |s.calls| && s.calls[c].op.RemoveOp? && s.calls[c].stage == Replied(Fine)
    ensures var t := ServerRun(s, fs).value; var id := s.calls[c].id;
            && !Allowed(t.acl, client, id, access)
            && id !in t.mapped && id in t.jobs && t.jobs[id].handler == Zombie
  {
    ReachableInv(s);
    ServerInvRun(s, fs);
    RepliesAreFinal(s, fs, c);
    var t := ServerRun(s, fs).value;
    assert CallOk(t, t.calls[c]);
    assert JobOk(t.jobs[s.calls[c].id], true);
  }
}
