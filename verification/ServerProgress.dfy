/** When a Remove finishes, and how it can hang. */
module ServerProgress {
  import opened JobModel
  import opened JobInvariants
  import opened JobTheorems
  import opened Progress
  import opened AccessModel
  import opened ServerModel
  import opened ServerInvariants
  import opened ServerTheorems

  /** A step of the cleanup of call `c`, of the readers it waits for, or of its reply. */
  predicate CleanupProgress(e: ServerEvent, c: nat, id: JobId) {
    || e == Revoke(c)
    || (e.Clean? && e.call == c && FaultFree(e.event) && e.event != EndCleanup(false))
    || (e.Background? && e.id == id && FaultFree(e.event))
  }

  /** A fault-free step of a cleanup under way, as an event of the server. */
  lemma CleanupEvent(s: Server, c: nat, e: Event) returns (f: ServerEvent)
    requires At(s, c, Detached(true)) && s.calls[c].id in s.jobs
    requires FaultFree(e) && Next(s.jobs[s.calls[c].id], e).Some? && e != EndCleanup(false)
    ensures CleanupProgress(f, c, s.calls[c].id) && ServerNext(s, f).Some?
    ensures var t := ServerNext(s, f).value;
            && s.calls[c].id in t.jobs && t.jobs[s.calls[c].id] == Next(s.jobs[s.calls[c].id], e).value
            && c < |t.calls| && t.calls[c].id == s.calls[c].id
            && t.calls[c].stage == if e == EndCleanup(true) then Purged else Detached(true)
  {
    f := if e.Step? then Background(s.calls[c].id, e) else Clean(c, e);
  }

  lemma RevokeEnds(s: Server, c: nat)
    requires At(s, c, Purged)
    ensures ServerRun(s, [Revoke(c)]).Some? && At(ServerRun(s, [Revoke(c)]).value, c, Replied(Fine))
  {
    var u := ServerNext(s, Revoke(c)).value;
    assert [Revoke(c)][1..] == [];
    assert ServerRun(u, []) == Some(u);
  }

  lemma ServerRunStep(s: Server, f: ServerEvent, rest: seq<ServerEvent>)
    requires ServerNext(s, f).Some?
    ensures ServerRun(s, [f] + rest) == ServerRun(ServerNext(s, f).value, rest)
  {
    assert ([f] + rest)[1..] == rest;
  }

  /** A Remove whose cleanup waits for readers that are all bound to leave, as they are when
   * `done` is closed, can always run to its successful reply. */
  lemma {:induction false} RemoveFinishes(s: Server, c: nat) returns (fs: seq<ServerEvent>)
    requires Reachable(s) && At(s, c, Detached(true)) && s.calls[c].id in s.jobs
    requires Drains(s.jobs[s.calls[c].id])
    ensures ServerRun(s, fs).Some? && At(ServerRun(s, fs).value, c, Replied(Fine))
    ensures forall i :: 0 <= i < |fs| ==> CleanupProgress(fs[i], c, s.calls[c].id)
    decreases Measure(s.jobs[s.calls[c].id])
  {
    var f, t := RemoveAdvances(s, c);
    var rest: seq<ServerEvent>;
    if t.calls[c].stage.Purged? {
      rest := [Revoke(c)];
      RevokeEnds(t, c);
    } else {
      rest := RemoveFinishes(t, c);
    }
    fs := [f] + rest;
    ServerRunStep(s, f, rest);
  }

  /** One step of a Remove whose readers are all bound to leave. */
  lemma RemoveAdvances(s: Server, c: nat) returns (f: ServerEvent, t: Server)
    requires Reachable(s) && At(s, c, Detached(true)) && s.calls[c].id in s.jobs
    requires Drains(s.jobs[s.calls[c].id])
    ensures CleanupProgress(f, c, s.calls[c].id) && ServerNext(s, f) == Some(t) && Reachable(t)
    ensures c < |t.calls| && t.calls[c].id == s.calls[c].id && s.calls[c].id in t.jobs
    ensures t.calls[c].stage == Purged
            || (t.calls[c].stage == Detached(true) && Drains(t.jobs[s.calls[c].id])
                && Measure(t.jobs[s.calls[c].id]) < Measure(s.jobs[s.calls[c].id]))
  {
    var j := s.jobs[s.calls[c].id];
    ReachableInv(s);
    CleaningUnderWay(s, c);
    var e := CleanupNeverBlocksAll(j);
    MeasureFalls(j, e);
    f := CleanupEvent(s, c, e);
    t := ReachableStep(s, f);
  }

  lemma CleaningUnderWay(s: Server, c: nat)
    requires ServerInv(s) && At(s, c, Detached(true))
    ensures s.calls[c].id in s.jobs && s.jobs[s.calls[c].id].lock.Cleaning? && Inv(s.jobs[s.calls[c].id])
  {
    assert CallOk(s, s.calls[c]);
    assert JobOk(s.jobs[s.calls[c].id], false);
  }

  // ----- any scheduling

  /** Whether an event of the server is a step of the cleanup of job `id`, or of one of its
   * readers. */
  predicate IsTick(s: Server, e: ServerEvent, id: JobId) {
    match e
    case Background(i, event) => i == id && CleanupTick(event)
    case Clean(c, event) => c < |s.calls| && s.calls[c].id == id && CleanupTick(event)
    case ShutdownClean(i, event) => i == id && CleanupTick(event)
    case _ => false
  }

  function TickOf(s: Server, e: ServerEvent, id: JobId): nat {
    if IsTick(s, e, id) then 1 else 0
  }

  /** How many there are in a run while the cleanup under way is not over. */
  function ServerTicks(s: Server, fs: seq<ServerEvent>, id: JobId): nat
    requires ServerRun(s, fs).Some?
    decreases |fs|
  {
    if fs == [] || id !in s.jobs || !s.jobs[id].lock.Cleaning? then 0
    else TickOf(s, fs[0], id) + ServerTicks(ServerNext(s, fs[0]).value, fs[1..], id)
  }

  /** Job `id` when the cleanup under way is over, or else at the end of the run. */
  function JobAtEnd(s: Server, fs: seq<ServerEvent>, id: JobId): JobState
    requires id in s.jobs && ServerRun(s, fs).Some?
    decreases |fs|
  {
    if fs == [] || !s.jobs[id].lock.Cleaning? || id !in ServerNext(s, fs[0]).value.jobs then s.jobs[id]
    else JobAtEnd(ServerNext(s, fs[0]).value, fs[1..], id)
  }

  /** In every run of the server, whatever other calls, clients, timers, processes and jobs do,
   * the cleanup of a draining job, by a Remove or by a shutdown, is accounted for with its
   * readers up to its end. */
  lemma {:induction false} ServerTicksAreBounded(s: Server, fs: seq<ServerEvent>, id: JobId)
    requires id in s.jobs && Inv(s.jobs[id]) && s.jobs[id].lock.Cleaning? && Drains(s.jobs[id])
    requires ServerRun(s, fs).Some?
    ensures Accounted(ServerTicks(s, fs, id), s.jobs[id], JobAtEnd(s, fs, id))
    decreases |fs|
  {
    if fs == [] {
      NothingWritten(0, s.jobs[id], s.jobs[id]);
    } else {
      var t := ServerNext(s, fs[0]).value;
      TickAccounts(s, fs[0], id);
      TicksUnfold(s, fs, id);
      if t.jobs[id].lock.Cleaning? {
        ServerTicksAreBounded(t, fs[1..], id);
      } else {
        NothingWritten(0, t.jobs[id], t.jobs[id]);
      }
      AccountsAdd(TickOf(s, fs[0], id), ServerTicks(t, fs[1..], id), s.jobs[id], t.jobs[id], JobAtEnd(t, fs[1..], id));
    }
  }

  lemma TicksUnfold(s: Server, fs: seq<ServerEvent>, id: JobId)
    requires id in s.jobs && s.jobs[id].lock.Cleaning? && fs != [] && ServerRun(s, fs).Some?
    requires id in ServerNext(s, fs[0]).value.jobs
    ensures var t := ServerNext(s, fs[0]).value;
            && ServerTicks(s, fs, id) == TickOf(s, fs[0], id) + ServerTicks(t, fs[1..], id)
            && JobAtEnd(s, fs, id) == JobAtEnd(t, fs[1..], id)
            && (!t.jobs[id].lock.Cleaning? ==> ServerTicks(t, fs[1..], id) == 0 && JobAtEnd(t, fs[1..], id) == t.jobs[id])
  {
  }

  lemma TickAccounts(s: Server, e: ServerEvent, id: JobId)
    requires id in s.jobs && Inv(s.jobs[id]) && s.jobs[id].lock.Cleaning? && Drains(s.jobs[id])
    requires ServerNext(s, e).Some?
    ensures id in ServerNext(s, e).value.jobs && Inv(ServerNext(s, e).value.jobs[id])
    ensures Accounted(TickOf(s, e, id), s.jobs[id], ServerNext(s, e).value.jobs[id])
  {
    var j := s.jobs[id];
    JobStays(s, e, id);
    var k := ServerNext(s, e).value.jobs[id];
    if IsTick(s, e, id) {
      TickIsStep(s, e, id);
      JobAccounts(j, e.event);
    } else {
      var es := JobSeesOneEvent(s, e, id);
      if es == [] {
        assert k == j;
        NothingWritten(0, j, j);
      } else {
        RunStep(j, es);
        JobAccounts(j, es[0]);
        assert Next(j, es[0]) == Some(k);
      }
    }
  }

  lemma JobAccounts(j: JobState, e: Event)
    requires Inv(j) && j.lock.Cleaning? && Drains(j) && Next(j, e).Some?
    ensures var k := Next(j, e).value; Inv(k) && Accounted(Tick(e), j, k) && Accounted(0, j, k)
  {
    InvNext(j, e);
    MeasureAccounts(j, e);
  }

  lemma JobStays(s: Server, e: ServerEvent, id: JobId)
    requires id in s.jobs && ServerNext(s, e).Some?
    ensures id in ServerNext(s, e).value.jobs
  {
    var es := JobSeesOneEvent(s, e, id);
  }

  lemma TickIsStep(s: Server, e: ServerEvent, id: JobId)
    requires id in s.jobs && ServerNext(s, e).Some? && IsTick(s, e, id)
    ensures id in ServerNext(s, e).value.jobs
    ensures CleanupTick(e.event) && Next(s.jobs[id], e.event) == Some(ServerNext(s, e).value.jobs[id])
  {
  }

  /** So a Remove that waits for readers over a closed `done` is bounded in every run: there
   * are no more steps of its cleanup and its readers than the measure says, and as long
   * as it is not over, one of them is possible. */
  lemma RemoveIsBounded(s: Server, fs: seq<ServerEvent>, c: nat)
    requires Reachable(s) && At(s, c, Detached(true)) && s.calls[c].id in s.jobs
    requires s.jobs[s.calls[c].id].Done() && ServerRun(s, fs).Some?
    ensures ServerTicks(s, fs, s.calls[c].id) <= Measure(s.jobs[s.calls[c].id])
    ensures var t := ServerRun(s, fs).value;
            At(t, c, Detached(true)) ==> exists f :: CleanupProgress(f, c, t.calls[c].id) && ServerNext(t, f).Some?
  {
    ReachableInv(s);
    CleaningUnderWay(s, c);
    DoneCleanupIsBounded(s, fs, s.calls[c].id);
    ReachableRun(s, fs);
    if At(ServerRun(s, fs).value, c, Detached(true)) {
      var f := RemoveCanGoOn(ServerRun(s, fs).value, c);
    }
  }

  lemma DoneCleanupIsBounded(s: Server, fs: seq<ServerEvent>, id: JobId)
    requires id in s.jobs && Inv(s.jobs[id]) && s.jobs[id].lock.Cleaning? && s.jobs[id].Done()
    requires ServerRun(s, fs).Some?
    ensures ServerTicks(s, fs, id) <= Measure(s.jobs[id])
  {
    ServerTicksAreBounded(s, fs, id);
    assert ExitInv(s.jobs[id]);
    PaidByMeasure(ServerTicks(s, fs, id), s.jobs[id], JobAtEnd(s, fs, id));
  }

  lemma PaidByMeasure(ticks: nat, j: JobState, k: JobState)
    requires Accounted(ticks, j, k) && j.process.Reaped?
    ensures ticks + Measure(k) <= Measure(j)
  {
  }

  lemma RemoveCanGoOn(s: Server, c: nat) returns (f: ServerEvent)
    requires Reachable(s) && At(s, c, Detached(true))
    ensures CleanupProgress(f, c, s.calls[c].id) && ServerNext(s, f).Some?
  {
    ReachableInv(s);
    CleaningUnderWay(s, c);
    var e := CleanupNeverBlocksAll(s.jobs[s.calls[c].id]);
    f := CleanupEvent(s, c, e);
  }

  lemma ReachableRun(s: Server, fs: seq<ServerEvent>)
    requires Reachable(s) && ServerRun(s, fs).Some?
    ensures Reachable(ServerRun(s, fs).value)
  {
    var full, read, es :| ServerRun(NewServer(full, read), es) == Some(s);
    ServerRunConcat(NewServer(full, read), es, fs);
    assert ServerRun(NewServer(full, read), es + fs) == ServerRun(s, fs);
  }

  /** A cleanup in progress over an open `done` is always that of a Remove that found the job
   * Stopped before its exit was handled. */
  lemma OpenCleanupIsEarlyRemove(s: Server, id: JobId)
    requires Reachable(s) && id in s.jobs && s.jobs[id].lock.Cleaning? && !s.jobs[id].Done()
    ensures s.jobs[id].handler == Stopped && s.jobs[id].exit.Unhandled? && s.jobs[id].Delivered(Kill)
    ensures exists c :: 0 <= c < |s.calls| && s.calls[c] == Call(s.calls[c].client, RemoveOp, id, Detached(true))
  {
    ReachableInv(s);
    var j := s.jobs[id];
    assert JobOk(j, id in s.removed) && ExitInv(j) && SignalInv(j) && ReaderInv(j);
    assert id !in s.mapped;
    var c :| 0 <= c < |s.calls| && Holds(s.calls[c], id);
    assert CallOk(s, s.calls[c]);
  }

  /** Nobody releases reader `i` of job `id` during a run. */
  ghost predicate NobodyReleases(fs: seq<ServerEvent>, id: JobId, i: nat) {
    forall e <- fs :: e.Background? && e.id == id ==> !Releases(e.event, i)
  }

  /** The hang: from a state in which a Remove waits for an undisturbed following reader of
   * a job that is not done, no run whatsoever answers the Remove, closes `done`, or
   * ends the stream. */
  lemma RemoveHangs(s: Server, fs: seq<ServerEvent>, c: nat, i: nat)
    requires Reachable(s) && At(s, c, Detached(true)) && s.calls[c].id in s.jobs
    requires Stuck(s.jobs[s.calls[c].id], i)
    requires ServerRun(s, fs).Some? && NobodyReleases(fs, s.calls[c].id, i)
    ensures var t := ServerRun(s, fs).value;
            && s.calls[c].id in t.jobs
            && Stuck(t.jobs[s.calls[c].id], i)
  {
    ReachableInv(s);
    CleaningUnderWay(s, c);
    var id := s.calls[c].id;
    var es := JobSeesRun(s, fs, id);
    forall k | 0 <= k < |es| ensures !Releases(es[k], i) {
      var f := Background(id, es[k]);
      assert Ambient(es[k]) ==> f in fs && f.Background? && f.id == id;
    }
    StuckForever(s.jobs[id], i, es);
  }

  lemma ReachableStep(s: Server, e: ServerEvent) returns (t: Server)
    requires Reachable(s) && ServerNext(s, e).Some?
    ensures t == ServerNext(s, e).value && Reachable(t)
  {
    t := ServerNext(s, e).value;
    var full, read, es :| ServerRun(NewServer(full, read), es) == Some(s);
    ServerRunConcat(NewServer(full, read), es, [e]);
    ServerRunStep(s, e, []);
    assert [e] + [] == [e];
    assert ServerRun(t, []) == Some(t);
    assert ServerRun(NewServer(full, read), es + [e]) == Some(t);
  }

  /** A client that owns a job gets a request of its own past the access check. */
  lemma OwnerAsks(s: Server, client: string, op: Op, id: JobId) returns (t: Server)
    requires Reachable(s) && !op.StartOp? && id in s.acl.owners && s.acl.owners[id] == client
    ensures Reachable(t) && At(t, |s.calls|, Admitted)
    ensures |t.calls| == |s.calls| + 1 && t.calls[|s.calls|] == Call(client, op, id, Admitted)
    ensures t == s.(calls := t.calls)
  {
    var u := ReachableStep(s, Arrive(client, op, id));
    t := ReachableStep(u, Admit(|s.calls|));
  }

  /** A job of `client`, started and announced, on a server without superusers. */
  lemma StartedJob(client: string, id: JobId) returns (s: Server)
    requires GoodId(id) && Trim(client) != ""
    ensures Reachable(s) && s.shutdown.Idle? && s.acl == Acl(map[id := Trim(client)], {}, {})
    ensures s.calls == [Call(client, StartOp, id, Replied(Started(id)))]
    ensures id in s.mapped && id in s.jobs && s.jobs[id] == NEW_JOB
    ensures s.starter == map[id := client]
  {
    var s2 := CreatedJob(client, id);
    var s3 := ReachableStep(s2, ListJob(0));
    s := ReachableStep(s3, GrantOwner(0));
  }

  lemma CreatedJob(client: string, id: JobId) returns (s: Server)
    requires GoodId(id)
    ensures Reachable(s)
    ensures s == NewServer({}, {}).(jobs := map[id := NEW_JOB], starter := map[id := client],
                                    calls := [Call(client, StartOp, id, Created)])
  {
    var s0 := NewServer({}, {});
    assert ServerRun(s0, []) == Some(s0);
    var s1 := ReachableStep(s0, Arrive(client, StartOp, ""));
    s := ReachableStep(s1, CreateJob(0, id));
  }

  /** The run in which a client that has made no call at all may do everything with a job, and
   * the client that has started it nothing: the name of the starter has blanks around it. */
  lemma OtherSpellingGetsIn(client: string, id: JobId, access: Access) returns (s: Server)
    requires GoodId(id) && Trim(client) != "" && Trim(client) != client
    ensures Reachable(s) && s.calls == [Call(client, StartOp, id, Replied(Started(id)))]
    ensures Allowed(s.acl, Trim(client), id, FullAccess) && !Allowed(s.acl, client, id, access)
    ensures Trim(" bob") == "bob"
  {
    s := StartedJob(client, id);
  }

  /** A request that the job answers, as one event. */
  lemma RequestDone(s: Server, c: nat, ok: bool) returns (t: Server)
    requires Reachable(s) && At(s, c, Admitted) && s.shutdown.Idle?
    requires !s.calls[c].op.RemoveOp? && !s.calls[c].op.StartOp?
    requires s.calls[c].id in s.mapped && s.calls[c].id in s.jobs
    requires JobCall(s.jobs[s.calls[c].id], s.calls[c].op, ok).Some?
    ensures Reachable(t) && |t.calls| == |s.calls|
    ensures t == s.(calls := t.calls,
                    jobs := s.jobs[s.calls[c].id := JobCall(s.jobs[s.calls[c].id], s.calls[c].op, ok).value.0])
  {
    t := ReachableStep(s, Perform(c, ok));
  }

  /** The job after a following reader, and then a SIGKILL. */
  function WatchedJob(): JobState {
    NEW_JOB.(readers := [NewReader(true, 0).(pc := Polling)], group := 1, logReaders := 1)
  }

  function KilledJob(): JobState {
    WatchedJob().(handler := Stopped, attempts := [Attempt(Kill, true)])
  }

  lemma StartedAndWatched(client: string, id: JobId) returns (s: Server)
    requires GoodId(id) && Trim(client) == client && client != ""
    ensures Reachable(s) && s.shutdown.Idle? && id in s.acl.owners && s.acl.owners[id] == client
    ensures id in s.mapped && id in s.jobs && s.jobs[id] == WatchedJob()
  {
    var s0 := StartedJob(client, id);
    var s1 := OwnerAsks(s0, client, LogsOp(true), id);
    var s2 := RequestDone(s1, |s0.calls|, true);
    s := ReachableStep(s2, Background(id, CountReader));
  }

  lemma StartedAndKilled(client: string, id: JobId) returns (s: Server)
    requires GoodId(id) && Trim(client) == client && client != ""
    ensures Reachable(s) && s.shutdown.Idle? && id in s.acl.owners && s.acl.owners[id] == client
    ensures id in s.mapped && id in s.jobs && s.jobs[id] == KilledJob()
  {
    var s3 := StartedAndWatched(client, id);
    var s4 := OwnerAsks(s3, client, StopOp(false), id);
    s := RequestDone(s4, |s3.calls|, true);
  }

  /** The run in which `Inspect` reports a stopped job without an exit code. */
  lemma StoppedWithoutExitCode(client: string, id: JobId) returns (s: Server, c: nat)
    requires GoodId(id) && Trim(client) == client && client != ""
    ensures Reachable(s) && c < |s.calls|
    ensures s.calls[c] == Call(client, InspectOp, id, Replied(Details(Stopped, -1)))
    ensures id in s.mapped && id in s.jobs && s.jobs[id].process.Running?
  {
    var s5 := StartedAndKilled(client, id);
    var s6 := OwnerAsks(s5, client, InspectOp, id);
    c := |s5.calls|;
    s := ReachableStep(s6, Perform(c, true));
  }

  /** The hang can happen to any client whose name has no blanks around it: it follows the
   * log of its job, stops the job by force, and removes it before the server has noticed
   * the exit. */
  lemma HangIsReachable(client: string, id: JobId) returns (s: Server, c: nat)
    requires GoodId(id) && Trim(client) == client && client != ""
    ensures Reachable(s) && At(s, c, Detached(true)) && s.calls[c].id == id && s.calls[c].client == client
    ensures id in s.jobs && Stuck(s.jobs[id], 0)
  {
    var s5 := StartedAndKilled(client, id);
    var s6 := OwnerAsks(s5, client, RemoveOp, id);
    c := |s5.calls|;
    var s7 := ReachableStep(s6, Detach(c));
    s := ReachableStep(s7, Clean(c, BeginCleanup));
  }
}
