/** What every interleaving of calls, timers, exits, readers and shutdown keeps. */
module ServerInvariants {
  import opened JobModel
  import opened JobInvariants
  import opened JobTheorems
  import opened AccessModel
  import opened ServerModel

  /** A call that is responsible for a job: its Start has not finished with it, or its
   * Remove has taken it. */
  predicate Tied(q: Call) {
    q.stage.Created? || q.stage.Listed? || q.stage.Detached? || q.stage.CleanupFailed? || q.stage.Purged?
  }

  /** A call that holds a job outside the map. */
  predicate Holds(q: Call, id: JobId) {
    q.id == id && (q.stage.Created? || q.stage.Detached? || q.stage.CleanupFailed?)
  }

  ghost predicate HeldBySome(calls: seq<Call>, id: JobId) {
    exists c :: 0 <= c < |calls| && Holds(calls[c], id)
  }

  ghost predicate SomeAt(calls: seq<Call>, id: JobId, stage: Stage) {
    exists c :: 0 <= c < |calls| && calls[c].id == id && calls[c].stage == stage
  }

  ghost predicate Domains(s: Server) {
    && s.mapped <= s.jobs.Keys
    && s.removed <= s.jobs.Keys
    && s.mapped !! s.removed
    && s.starter.Keys == s.jobs.Keys
    && s.acl.owners.Keys <= s.announced <= s.jobs.Keys
    && s.removed <= s.announced
    && (forall id <- s.jobs.Keys :: GoodId(id))
  }

  /** What a client must be to get past the access check of an operation on a job. */
  predicate Entitled(s: Server, client: string, op: Op, id: JobId) {
    && id in s.starter
    && (|| client == Trim(s.starter[id])
        || client in s.acl.full
        || ((op.InspectOp? || op.LogsOp?) && client in s.acl.read))
  }

  ghost predicate PurgeJustified(j: JobState) {
    j.purges > 0 ==> j.exit.Handled? || j.Delivered(Kill)
  }

  /** The part of a job's invariant that depends on where the job is. */
  ghost predicate JobOk(j: JobState, removed: bool) {
    && Inv(j)
    && (j.handler == Zombie && !removed ==> j.Done())
    && (removed ==> j.handler == Zombie)
    && (j.lock.Cleaning? ==> j.handler.Completed())
    && PurgeJustified(j)
  }

  ghost predicate JobsOk(s: Server) {
    forall id <- s.jobs.Keys :: JobOk(s.jobs[id], id in s.removed)
  }

  /** Only the second loop of a shutdown cleans up a job that is in the map. */
  ghost predicate LocksOk(s: Server) {
    forall id <- s.mapped :: id in s.jobs && s.jobs[id].lock.Cleaning? ==>
      s.shutdown.Purging? && s.shutdown.current == Some(id)
  }

  /** Every job is in the map, or removed, or held by some call. */
  ghost predicate Placed(s: Server) {
    forall id <- s.jobs.Keys :: id in s.mapped || id in s.removed || HeldBySome(s.calls, id)
  }

  ghost predicate OwnersOk(s: Server) {
    && (forall id <- s.acl.owners.Keys :: id in s.starter && s.acl.owners[id] == Trim(s.starter[id]) != "")
    && (forall id <- s.announced :: id !in s.removed && id in s.starter && Trim(s.starter[id]) != "" ==>
          id in s.acl.owners)
    && (forall id <- s.mapped :: id !in s.announced ==> SomeAt(s.calls, id, Listed))
    && (forall id <- s.removed :: id in s.acl.owners ==> SomeAt(s.calls, id, Purged))
  }

  ghost predicate CallOk(s: Server, q: Call) {
    && (q.op.StartOp? ==>
          q.stage.Arrived? || q.stage.Created? || q.stage.Listed? || q.stage.Replied?)
    && (q.stage.Created? || q.stage.Listed? ==>
          && q.op.StartOp?
          && q.id in s.jobs && q.id in s.starter && q.id !in s.announced
          && s.starter[q.id] == q.client)
    && (q.stage.Created? ==> q.id !in s.mapped && !s.jobs[q.id].lock.Cleaning?)
    && (q.stage.Listed? ==> q.id in s.mapped)
    && (q.stage.Admitted? ==> q.id in s.announced && Entitled(s, q.client, q.op, q.id))
    && (q.stage.Detached? || q.stage.CleanupFailed? ==>
          && q.op.RemoveOp?
          && q.id in s.jobs && q.id in s.announced && q.id !in s.mapped && q.id !in s.removed
          && s.jobs[q.id].handler.Completed()
          && (s.jobs[q.id].lock.Cleaning? <==> q.stage == Detached(true))
          && Entitled(s, q.client, q.op, q.id))
    && (q.stage.Purged? ==> q.op.RemoveOp? && q.id in s.removed && Entitled(s, q.client, q.op, q.id))
    && (q.stage.Replied? && q.op.RemoveOp? && q.stage.reply == Fine ==>
          && q.id in s.removed && q.id !in s.acl.owners)
    && (q.stage.Replied? && !q.op.StartOp? && q.stage.reply != NotFound ==>
          Entitled(s, q.client, q.op, q.id))
  }

  ghost predicate CallsOk(s: Server) {
    forall c :: 0 <= c < |s.calls| ==> CallOk(s, s.calls[c])
  }

  /** Two calls are never responsible for the same job. */
  ghost predicate TiesUnique(calls: seq<Call>) {
    forall c, d :: 0 <= c < d < |calls| && Tied(calls[c]) && Tied(calls[d]) ==> calls[c].id != calls[d].id
  }

  ghost predicate ShutdownOk(s: Server) {
    match s.shutdown
    case Signalling(todo) => todo <= s.mapped
    case Purging(todo, current, failed) =>
      && todo <= s.mapped
      && (forall id <- s.mapped :: id in s.jobs && s.jobs[id].Done())
      && failed !! todo
      && (forall id <- s.mapped - todo :: id in s.jobs && (s.jobs[id].handler == Zombie <==> id !in failed))
      && (current.Some? ==> current.value in todo && current.value in s.jobs && s.jobs[current.value].lock.Cleaning?)
    case _ => true
  }

  /** Everything but the jobs' own invariants. */
  ghost predicate TablesOk(s: Server) {
    && Domains(s) && LocksOk(s) && Placed(s) && OwnersOk(s)
    && CallsOk(s) && TiesUnique(s.calls) && ShutdownOk(s)
  }

  ghost predicate ServerInv(s: Server) {
    TablesOk(s) && JobsOk(s)
  }

  // ----- what one event does to one job

  /** The job events that keep `stateLock` from and for cleanups alone. */
  ghost predicate Kept(j: JobState, k: JobState) {
    && (k.lock.Cleaning? <==> j.lock.Cleaning?)
    && (k.handler == Zombie <==> j.handler == Zombie)
    && (j.handler.Completed() ==> k.handler.Completed())
    && (j.Done() ==> k.Done())
    && (PurgeJustified(j) ==> PurgeJustified(k))
  }

  lemma OthersKeep(j: JobState, e: Event)
    requires Next(j, e).Some? && !CleanupStep(e)
    ensures Kept(j, Next(j, e).value)
  {
    var k := Next(j, e).value;
    HistoryGrowsByOne(j, e);
    assert j.attempts <= k.attempts;
    assert j.Delivered(Kill) ==> k.Delivered(Kill);
    assert k.purges == j.purges;
  }

  lemma JobOkKept(j: JobState, e: Event, removed: bool)
    requires JobOk(j, removed) && Next(j, e).Some? && !CleanupStep(e)
    ensures JobOk(Next(j, e).value, removed) && Kept(j, Next(j, e).value)
  {
    InvNext(j, e);
    OthersKeep(j, e);
  }

  lemma CallsKept(s: Server, t: Server)
    requires CallsOk(s) && t.calls == s.calls
    requires t.mapped == s.mapped && t.acl == s.acl && t.starter == s.starter
    requires t.announced == s.announced && t.removed == s.removed
    requires s.jobs.Keys == t.jobs.Keys
    requires forall id <- s.jobs.Keys :: t.jobs[id] == s.jobs[id] || Kept(s.jobs[id], t.jobs[id])
    ensures CallsOk(t)
  {
    forall c | 0 <= c < |s.calls| ensures CallOk(t, t.calls[c]) {
      assert CallOk(s, s.calls[c]);
    }
  }

  /** The server around a job that moved on without a cleanup. */
  lemma JobReplaced(s: Server, id: JobId, k: JobState)
    requires TablesOk(s) && id in s.jobs && Kept(s.jobs[id], k)
    ensures TablesOk(SetJob(s, id, k)) && SetJob(s, id, k).jobs.Keys == s.jobs.Keys
  {
    var t := SetJob(s, id, k);
    assert t.jobs.Keys == s.jobs.Keys;
    CallsKept(s, t);
  }

  /** A job's own step, outside cleanups, keeps everything. */
  lemma JobEventKeeps(s: Server, id: JobId, e: Event)
    requires ServerInv(s) && JobEvent(s, id, e).Some? && !CleanupStep(e)
    ensures ServerInv(JobEvent(s, id, e).value)
  {
    JobOkKept(s.jobs[id], e, id in s.removed);
    JobReplaced(s, id, Next(s.jobs[id], e).value);
  }

  // ----- what one event does to the calls

  lemma HeldKept(calls: seq<Call>, c: nat, q: Call)
    requires c < |calls|
    ensures forall id :: HeldBySome(calls, id) && !Holds(calls[c], id) ==> HeldBySome(calls[c := q], id)
    ensures forall id :: Holds(q, id) ==> HeldBySome(calls[c := q], id)
  {
    forall id | HeldBySome(calls, id) && !Holds(calls[c], id)
      ensures HeldBySome(calls[c := q], id)
    {
      var d :| 0 <= d < |calls| && Holds(calls[d], id);
      assert Holds(calls[c := q][d], id);
    }
    assert calls[c := q][c] == q;
  }

  lemma SomeAtKept(calls: seq<Call>, c: nat, q: Call, stage: Stage)
    requires c < |calls|
    ensures forall id :: SomeAt(calls, id, stage) && (calls[c].id != id || calls[c].stage != stage)
              ==> SomeAt(calls[c := q], id, stage)
    ensures q.stage == stage ==> SomeAt(calls[c := q], q.id, stage)
  {
    forall id | SomeAt(calls, id, stage) && (calls[c].id != id || calls[c].stage != stage)
      ensures SomeAt(calls[c := q], id, stage)
    {
      var d :| 0 <= d < |calls| && calls[d].id == id && calls[d].stage == stage;
      assert calls[c := q][d] == calls[d];
    }
    assert calls[c := q][c] == q;
  }

  /** What is left of the call-table facts when call `c` becomes `q`. */
  lemma CallMoves(calls: seq<Call>, c: nat, q: Call)
    requires c < |calls| && TiesUnique(calls)
    requires Tied(q) ==> forall d :: 0 <= d < |calls| && d != c && Tied(calls[d]) ==> calls[d].id != q.id
    ensures TiesUnique(calls[c := q])
    ensures forall id :: HeldBySome(calls, id) && !Holds(calls[c], id) ==> HeldBySome(calls[c := q], id)
    ensures forall id :: Holds(q, id) ==> HeldBySome(calls[c := q], id)
    ensures forall id :: SomeAt(calls, id, Listed) && (calls[c].id != id || calls[c].stage != Listed)
              ==> SomeAt(calls[c := q], id, Listed)
    ensures forall id :: SomeAt(calls, id, Purged) && (calls[c].id != id || calls[c].stage != Purged)
              ==> SomeAt(calls[c := q], id, Purged)
    ensures q.stage == Listed || q.stage == Purged ==> SomeAt(calls[c := q], q.id, q.stage)
  {
    HeldKept(calls, c, q);
    SomeAtKept(calls, c, q, Listed);
    SomeAtKept(calls, c, q, Purged);
    assert calls[c := q][c] == q;
  }

  /** An untied call that gets a new, untied stage. */
  lemma UntiedMoves(s: Server, c: nat, stage: Stage)
    requires TablesOk(s) && c < |s.calls| && !Tied(s.calls[c])
    requires !Tied(s.calls[c].(stage := stage))
    requires CallOk(s, s.calls[c].(stage := stage))
    ensures TablesOk(SetStage(s, c, stage))
  {
    var t := SetStage(s, c, stage);
    CallMoves(s.calls, c, t.calls[c]);
    forall d | 0 <= d < |t.calls| ensures CallOk(t, t.calls[d]) {
      assert CallOk(s, s.calls[d]);
      assert CallOk(s, t.calls[d]);
    }
  }

  lemma ArriveKeeps(s: Server, client: string, op: Op, id: JobId)
    requires TablesOk(s)
    ensures TablesOk(ServerNext(s, Arrive(client, op, id)).value)
  {
    var t := ServerNext(s, Arrive(client, op, id)).value;
    assert forall d :: 0 <= d < |s.calls| ==> t.calls[d] == s.calls[d];
    forall d | 0 <= d < |t.calls| ensures CallOk(t, t.calls[d]) {
      if d < |s.calls| {
        assert CallOk(s, s.calls[d]);
      }
    }
    forall i | HeldBySome(s.calls, i) ensures HeldBySome(t.calls, i) {
      var d :| 0 <= d < |s.calls| && Holds(s.calls[d], i);
      assert Holds(t.calls[d], i);
    }
    forall i, stage | SomeAt(s.calls, i, stage) ensures SomeAt(t.calls, i, stage) {
      var d :| 0 <= d < |s.calls| && s.calls[d].id == i && s.calls[d].stage == stage;
      assert t.calls[d].id == i && t.calls[d].stage == stage;
    }
  }

  lemma AdmitKeeps(s: Server, c: nat)
    requires TablesOk(s) && AfterAdmit(s, c).Some?
    ensures TablesOk(AfterAdmit(s, c).value)
  {
    var q := s.calls[c];
    assert CallOk(s, q);
    UntiedMoves(s, c, if Allowed(s.acl, q.client, q.id, q.op.Needs()) then Admitted else Replied(NotFound));
  }

  /** A fresh job disturbs no call. */
  lemma CreateKeepsCall(s: Server, c: nat, id: JobId, q: Call)
    requires Domains(s) && CallOk(s, q) && AfterCreate(s, c, id).Some?
    ensures CallOk(AfterCreate(s, c, id).value, q)
    ensures Tied(q) ==> q.id != id
  {
  }

  lemma CreateKeepsCalls(s: Server, c: nat, id: JobId)
    requires Domains(s) && CallsOk(s) && TiesUnique(s.calls) && AfterCreate(s, c, id).Some?
    ensures var t := AfterCreate(s, c, id).value;
            && CallsOk(t) && TiesUnique(t.calls)
            && HeldBySome(t.calls, id)
            && (forall i :: HeldBySome(s.calls, i) ==> HeldBySome(t.calls, i))
            && (forall i :: SomeAt(s.calls, i, Listed) ==> SomeAt(t.calls, i, Listed))
            && (forall i :: SomeAt(s.calls, i, Purged) ==> SomeAt(t.calls, i, Purged))
  {
    var t := AfterCreate(s, c, id).value;
    forall d | 0 <= d < |s.calls| ensures CallOk(t, s.calls[d]) && (Tied(s.calls[d]) ==> s.calls[d].id != id) {
      CreateKeepsCall(s, c, id, s.calls[d]);
    }
    assert CallOk(t, t.calls[c]);
    CallMoves(s.calls, c, t.calls[c]);
    assert Holds(t.calls[c], id);
  }

  lemma CreateKeeps(s: Server, c: nat, id: JobId)
    requires TablesOk(s) && AfterCreate(s, c, id).Some?
    ensures TablesOk(AfterCreate(s, c, id).value)
  {
    CreateKeepsCalls(s, c, id);
    CreateKeepsTables(s, c, id);
  }

  lemma CreateKeepsTables(s: Server, c: nat, id: JobId)
    requires Domains(s) && LocksOk(s) && ShutdownOk(s) && AfterCreate(s, c, id).Some?
    ensures var t := AfterCreate(s, c, id).value; Domains(t) && LocksOk(t) && ShutdownOk(t)
  {
    assert AfterCreate(s, c, id).value.jobs.Keys == s.jobs.Keys + {id};
  }

  lemma ListKeepsCalls(s: Server, c: nat)
    requires CallsOk(s) && TiesUnique(s.calls) && AfterList(s, c).Some?
    ensures CallsOk(AfterList(s, c).value)
  {
    var t := AfterList(s, c).value;
    assert CallOk(s, s.calls[c]);
    forall d | 0 <= d < |t.calls| ensures CallOk(t, t.calls[d]) {
      assert CallOk(s, s.calls[d]);
      assert d != c && Tied(s.calls[d]) ==> s.calls[d].id != s.calls[c].id;
    }
  }

  lemma ListKeepsTables(s: Server, c: nat)
    requires Domains(s) && LocksOk(s) && Placed(s) && OwnersOk(s) && TiesUnique(s.calls)
    requires AfterList(s, c).Some? && CallOk(s, s.calls[c])
    ensures var t := AfterList(s, c).value;
            Domains(t) && LocksOk(t) && Placed(t) && OwnersOk(t) && TiesUnique(t.calls)
  {
    CallMoves(s.calls, c, s.calls[c].(stage := Listed));
  }

  lemma ListKeeps(s: Server, c: nat)
    requires TablesOk(s) && AfterList(s, c).Some?
    ensures TablesOk(AfterList(s, c).value)
  {
    assert CallOk(s, s.calls[c]);
    ListKeepsTables(s, c);
    ListKeepsCalls(s, c);
  }

  lemma GrantKeepsCall(s: Server, c: nat, q: Call)
    requires Domains(s) && AfterGrant(s, c).Some? && CallOk(s, s.calls[c]) && CallOk(s, q)
    requires Tied(q) ==> q.id != s.calls[c].id
    ensures CallOk(AfterGrant(s, c).value, q)
  {
    assert s.calls[c].id !in s.removed;
  }

  lemma GrantKeepsCalls(s: Server, c: nat)
    requires Domains(s) && CallsOk(s) && TiesUnique(s.calls) && AfterGrant(s, c).Some?
    ensures var t := AfterGrant(s, c).value;
            && CallsOk(t) && TiesUnique(t.calls)
            && (forall i :: HeldBySome(s.calls, i) ==> HeldBySome(t.calls, i))
            && (forall i :: SomeAt(s.calls, i, Listed) && i != s.calls[c].id ==> SomeAt(t.calls, i, Listed))
            && (forall i :: SomeAt(s.calls, i, Purged) ==> SomeAt(t.calls, i, Purged))
  {
    var t := AfterGrant(s, c).value;
    assert CallOk(s, s.calls[c]);
    CallMoves(s.calls, c, t.calls[c]);
    forall d | 0 <= d < |t.calls| ensures CallOk(t, t.calls[d]) {
      if d != c {
        assert CallOk(s, s.calls[d]);
        GrantKeepsCall(s, c, s.calls[d]);
      }
    }
  }

  lemma GrantKeeps(s: Server, c: nat)
    requires TablesOk(s) && AfterGrant(s, c).Some?
    ensures TablesOk(AfterGrant(s, c).value)
  {
    var t := AfterGrant(s, c).value;
    var id := s.calls[c].id;
    assert CallOk(s, s.calls[c]);
    GrantKeepsCalls(s, c);
    assert GoodId(id) && id !in s.removed && id in s.mapped;
    assert t.acl.owners.Keys <= s.acl.owners.Keys + {id};
  }

  lemma DetachKeeps(s: Server, c: nat)
    requires TablesOk(s) && AfterDetach(s, c).Some?
    ensures TablesOk(AfterDetach(s, c).value)
  {
    var t := AfterDetach(s, c).value;
    var q := s.calls[c];
    assert CallOk(s, q);
    if t.calls[c].stage.Replied? {
      UntiedMoves(s, c, t.calls[c].stage);
    } else {
      UnlinkKeepsCalls(s, c);
      CallMoves(s.calls, c, t.calls[c]);
      assert Holds(t.calls[c], q.id);
    }
  }

  /** Nobody else was responsible for the job that a Remove takes out of the map. */
  lemma UnlinkKeepsCalls(s: Server, c: nat)
    requires CallsOk(s) && AfterDetach(s, c).Some? && AfterDetach(s, c).value.calls[c].stage.Detached?
    requires s.calls[c].id in s.announced && s.calls[c].id !in s.removed
    ensures CallsOk(AfterDetach(s, c).value)
    ensures forall d :: 0 <= d < |s.calls| && Tied(s.calls[d]) ==> s.calls[d].id != s.calls[c].id
  {
    var t := AfterDetach(s, c).value;
    assert CallOk(s, s.calls[c]);
    forall d | 0 <= d < |s.calls| && Tied(s.calls[d]) ensures s.calls[d].id != s.calls[c].id {
      assert CallOk(s, s.calls[d]);
    }
    forall d | 0 <= d < |t.calls| ensures CallOk(t, t.calls[d]) {
      assert CallOk(s, s.calls[d]);
    }
  }

  lemma RelistKeepsCalls(s: Server, c: nat)
    requires CallsOk(s) && TiesUnique(s.calls) && AfterRelist(s, c).Some?
    ensures CallsOk(AfterRelist(s, c).value)
  {
    var t := AfterRelist(s, c).value;
    assert CallOk(s, s.calls[c]);
    forall d | 0 <= d < |t.calls| ensures CallOk(t, t.calls[d]) {
      assert CallOk(s, s.calls[d]);
      assert d != c && Tied(s.calls[d]) ==> s.calls[d].id != s.calls[c].id;
    }
  }

  lemma RelistKeepsTables(s: Server, c: nat)
    requires Domains(s) && LocksOk(s) && Placed(s) && OwnersOk(s) && TiesUnique(s.calls)
    requires AfterRelist(s, c).Some? && CallOk(s, s.calls[c])
    ensures var t := AfterRelist(s, c).value;
            Domains(t) && LocksOk(t) && Placed(t) && OwnersOk(t) && TiesUnique(t.calls)
  {
    CallMoves(s.calls, c, s.calls[c].(stage := Replied(Internal)));
  }

  lemma RelistKeeps(s: Server, c: nat)
    requires TablesOk(s) && AfterRelist(s, c).Some?
    ensures TablesOk(AfterRelist(s, c).value)
  {
    assert CallOk(s, s.calls[c]);
    RelistKeepsTables(s, c);
    RelistKeepsCalls(s, c);
  }

  lemma RevokeKeeps(s: Server, c: nat)
    requires TablesOk(s) && AfterRevoke(s, c).Some?
    ensures TablesOk(AfterRevoke(s, c).value)
  {
    var t := AfterRevoke(s, c).value;
    assert CallOk(s, s.calls[c]);
    CallMoves(s.calls, c, t.calls[c]);
    assert t.acl.owners.Keys <= s.acl.owners.Keys;
    RevokeKeepsCalls(s, c);
  }

  lemma RevokeKeepsCalls(s: Server, c: nat)
    requires Domains(s) && CallsOk(s) && AfterRevoke(s, c).Some?
    ensures CallsOk(AfterRevoke(s, c).value)
  {
    var t := AfterRevoke(s, c).value;
    assert CallOk(s, s.calls[c]);
    forall d | 0 <= d < |t.calls| ensures CallOk(t, t.calls[d]) {
      assert CallOk(s, s.calls[d]);
    }
  }

  lemma JobCallIsEvent(j: JobState, op: Op, ok: bool) returns (es: seq<Event>)
    requires !op.StartOp? && !op.RemoveOp? && JobCall(j, op, ok).Some?
    ensures Run(j, es) == Some(JobCall(j, op, ok).value.0)
    ensures |es| <= 1 && (forall e <- es :: !CleanupStep(e) && !Ambient(e))
    ensures es == [] ==> JobCall(j, op, ok).value.0 == j
  {
    es := match op
      case StopOp(true) => [InitStop(ok)]
      case StopOp(false) => [ForceStop(ok)]
      case LogsOp(follow) => [OpenLogs(follow, ok)]
      case _ => [];
    if es != [] {
      RunStep(j, es);
    }
  }

  lemma JobCallKeeps(s: Server, id: JobId, op: Op, ok: bool)
    requires ServerInv(s) && id in s.jobs && !op.StartOp? && !op.RemoveOp?
    requires JobCall(s.jobs[id], op, ok).Some?
    ensures ServerInv(SetJob(s, id, JobCall(s.jobs[id], op, ok).value.0))
  {
    var j := s.jobs[id];
    var k := JobCall(j, op, ok).value.0;
    var es := JobCallIsEvent(j, op, ok);
    if es == [] {
      assert SetJob(s, id, k) == s;
    } else {
      RunStep(j, es);
      assert !CleanupStep(es[0]);
      assert JobEvent(s, id, es[0]) == Some(SetJob(s, id, k));
      JobEventKeeps(s, id, es[0]);
    }
  }

  lemma JobsOkSame(s: Server, t: Server)
    requires JobsOk(s) && t.jobs == s.jobs && t.removed == s.removed
    ensures JobsOk(t)
  {
  }

  lemma PerformMoves(s: Server, c: nat, reply: Reply)
    requires TablesOk(s) && At(s, c, Admitted) && !s.calls[c].op.RemoveOp?
    ensures TablesOk(SetStage(s, c, Replied(reply)))
  {
    assert CallOk(s, s.calls[c]);
    assert CallOk(s, s.calls[c].(stage := Replied(reply)));
    UntiedMoves(s, c, Replied(reply));
  }

  lemma PerformKeeps(s: Server, c: nat, ok: bool)
    requires ServerInv(s) && AfterPerform(s, c, ok).Some?
    ensures ServerInv(AfterPerform(s, c, ok).value)
  {
    var q := s.calls[c];
    var t, reply := s, NotFound;
    if q.id in s.mapped && q.id in s.jobs {
      JobCallKeeps(s, q.id, q.op, ok);
      var r := JobCall(s.jobs[q.id], q.op, ok).value;
      t, reply := SetJob(s, q.id, r.0), r.1;
    }
    PerformMoves(t, c, reply);
    assert AfterPerform(s, c, ok).value == SetStage(t, c, Replied(reply));
    JobsOkSame(t, AfterPerform(s, c, ok).value);
  }

  // ----- cleanups

  lemma JobOkCleanup(j: JobState, e: Event)
    requires JobOk(j, false) && CleanupStep(e) && Next(j, e).Some?
    requires e.BeginCleanup? ==> j.handler.Completed()
    ensures e != EndCleanup(true) || j.Done() ==> JobOk(Next(j, e).value, false)
    ensures e == EndCleanup(true) ==> JobOk(Next(j, e).value, true)
    ensures Next(j, e).value.handler.Completed()
    ensures Next(j, e).value.Done() == j.Done()
  {
    InvNext(j, e);
    CleanupJustified(j, e);
  }

  /** A cleanup that entered a completed job removes a directory only of a process that
   * has exited or has been sent SIGKILL. */
  lemma CleanupJustified(j: JobState, e: Event)
    requires ExitInv(j) && SignalInv(j) && PurgeJustified(j) && CleanupStep(e) && Next(j, e).Some?
    requires j.handler == Zombie ==> j.lock.Free?
    requires j.lock.Cleaning? ==> j.handler.Completed()
    ensures PurgeJustified(Next(j, e).value)
  {
    var k := Next(j, e).value;
    assert k.attempts == j.attempts && k.exit == j.exit;
  }

  function HolderState(s: Server, c: nat, k: JobState, stage: Stage): Server
    requires c < |s.calls|
  {
    var t := SetStage(SetJob(s, s.calls[c].id, k), c, stage);
    if stage == Purged then t.(removed := s.removed + {s.calls[c].id}) else t
  }

  lemma HolderMovesCalls(s: Server, c: nat, k: JobState, stage: Stage)
    requires Domains(s) && CallsOk(s) && TiesUnique(s.calls)
    requires c < |s.calls| && s.calls[c].stage.Detached?
    requires stage.Detached? || stage.CleanupFailed? || stage.Purged?
    requires k.handler.Completed() && (k.lock.Cleaning? <==> stage == Detached(true))
    ensures CallsOk(HolderState(s, c, k, stage))
  {
    var t := HolderState(s, c, k, stage);
    assert CallOk(s, s.calls[c]);
    forall d | 0 <= d < |t.calls| ensures CallOk(t, t.calls[d]) {
      assert CallOk(s, s.calls[d]);
      assert d != c && Tied(s.calls[d]) ==> s.calls[d].id != s.calls[c].id;
    }
  }

  /** The cleanup of a Remove moves on; the job is outside the map. */
  lemma HolderMoves(s: Server, c: nat, k: JobState, stage: Stage)
    requires TablesOk(s)
    requires c < |s.calls| && s.calls[c].stage.Detached?
    requires stage.Detached? || stage.CleanupFailed? || stage.Purged?
    requires k.handler.Completed() && (k.lock.Cleaning? <==> stage == Detached(true))
    ensures TablesOk(HolderState(s, c, k, stage))
  {
    var q := s.calls[c];
    assert CallOk(s, q);
    HolderMovesCalls(s, c, k, stage);
    HolderMovesJobs(s, c, k, stage);
    HolderMovesPlaces(s, c, k, stage);
  }

  lemma HolderMovesJobs(s: Server, c: nat, k: JobState, stage: Stage)
    requires Domains(s) && LocksOk(s) && ShutdownOk(s)
    requires c < |s.calls| && s.calls[c].stage.Detached? && CallOk(s, s.calls[c])
    requires stage.Detached? || stage.CleanupFailed? || stage.Purged?
    ensures var t := HolderState(s, c, k, stage); Domains(t) && LocksOk(t) && ShutdownOk(t)
  {
    assert HolderState(s, c, k, stage).jobs.Keys == s.jobs.Keys;
  }

  lemma HolderMovesPlaces(s: Server, c: nat, k: JobState, stage: Stage)
    requires Placed(s) && OwnersOk(s) && TiesUnique(s.calls)
    requires c < |s.calls| && s.calls[c].stage.Detached? && CallOk(s, s.calls[c])
    requires stage.Detached? || stage.CleanupFailed? || stage.Purged?
    ensures var t := HolderState(s, c, k, stage); Placed(t) && OwnersOk(t) && TiesUnique(t.calls)
  {
    var q := s.calls[c];
    CallMoves(s.calls, c, q.(stage := stage));
    assert stage != Purged ==> Holds(q.(stage := stage), q.id);
  }

  lemma CleanKeeps(s: Server, c: nat, e: Event)
    requires ServerInv(s) && AfterClean(s, c, e).Some?
    ensures ServerInv(AfterClean(s, c, e).value)
  {
    var id := s.calls[c].id;
    assert CallOk(s, s.calls[c]);
    assert s.jobs[id].handler.Completed() && (s.jobs[id].lock.Cleaning? <==> s.calls[c].stage == Detached(true));
    assert JobOk(s.jobs[id], false);
    CleanIsHolderMove(s, c, e);
    HolderMoves(s, c, Next(s.jobs[id], e).value, AfterClean(s, c, e).value.calls[c].stage);
    CleanKeepsJobs(s, c, e);
  }

  lemma CleanIsHolderMove(s: Server, c: nat, e: Event)
    requires AfterClean(s, c, e).Some? && JobOk(s.jobs[s.calls[c].id], false)
    requires s.jobs[s.calls[c].id].handler.Completed()
    requires s.jobs[s.calls[c].id].lock.Cleaning? <==> s.calls[c].stage == Detached(true)
    ensures var t := AfterClean(s, c, e).value; var k := Next(s.jobs[s.calls[c].id], e).value;
            && c < |t.calls| && t == HolderState(s, c, k, t.calls[c].stage)
            && (t.calls[c].stage.Detached? || t.calls[c].stage.CleanupFailed? || t.calls[c].stage.Purged?)
            && k.handler.Completed() && (k.lock.Cleaning? <==> t.calls[c].stage == Detached(true))
  {
    var t := AfterClean(s, c, e).value;
    JobOkCleanup(s.jobs[s.calls[c].id], e);
    assert e.ReadersGone? ==> t.calls == s.calls[c := s.calls[c].(stage := t.calls[c].stage)];
  }

  lemma CleanKeepsJobs(s: Server, c: nat, e: Event)
    requires JobsOk(s) && AfterClean(s, c, e).Some?
    requires var id := s.calls[c].id; id !in s.removed && s.jobs[id].handler.Completed()
    requires var id := s.calls[c].id; s.jobs[id].handler == Zombie ==> e.BeginCleanup?
    ensures JobsOk(AfterClean(s, c, e).value)
  {
    var id := s.calls[c].id;
    assert JobOk(s.jobs[id], false);
    JobOkCleanup(s.jobs[id], e);
    var t := AfterClean(s, c, e).value;
    forall i <- t.jobs.Keys ensures JobOk(t.jobs[i], i in t.removed) {
      assert i != id ==> JobOk(s.jobs[i], i in s.removed);
    }
  }

  lemma ShutdownCleanKeeps(s: Server, id: JobId, e: Event)
    requires ServerInv(s) && AfterShutdownClean(s, id, e).Some?
    ensures ServerInv(AfterShutdownClean(s, id, e).value)
  {
    assert JobOk(s.jobs[id], false);
    var t := AfterShutdownClean(s, id, e).value;
    JobOkCleanup(s.jobs[id], e);
    assert ReaderInv(s.jobs[id]);
    PurgerMovesCalls(s, t, id);
    PurgerMovesTables(s, id, e);
    ShutdownCleanKeepsJobs(s, id, e);
  }

  lemma ShutdownCleanKeepsJobs(s: Server, id: JobId, e: Event)
    requires JobsOk(s) && AfterShutdownClean(s, id, e).Some?
    requires id in s.mapped && s.mapped !! s.removed && s.jobs[id].Done() && s.jobs[id].handler.Completed()
    ensures JobsOk(AfterShutdownClean(s, id, e).value)
  {
    assert JobOk(s.jobs[id], false);
    JobOkCleanup(s.jobs[id], e);
    var t := AfterShutdownClean(s, id, e).value;
    forall i <- t.jobs.Keys ensures JobOk(t.jobs[i], i in t.removed) {
      assert i != id ==> JobOk(s.jobs[i], i in s.removed);
    }
  }

  /** A cleanup inside the map concerns no call. */
  lemma PurgerMovesCalls(s: Server, t: Server, id: JobId)
    requires CallsOk(s) && id in s.mapped && id in s.jobs && id in t.jobs
    requires t == s.(jobs := s.jobs[id := t.jobs[id]], shutdown := t.shutdown)
    requires s.jobs[id].handler.Completed() && t.jobs[id].handler.Completed()
    ensures CallsOk(t)
  {
    forall d | 0 <= d < |t.calls| ensures CallOk(t, t.calls[d]) {
      assert CallOk(s, s.calls[d]);
    }
  }

  lemma PurgerMovesTables(s: Server, id: JobId, e: Event)
    requires Domains(s) && LocksOk(s) && Placed(s) && OwnersOk(s) && ShutdownOk(s)
    requires AfterShutdownClean(s, id, e).Some?
    requires s.jobs[id].handler == Zombie ==> s.jobs[id].lock.Free?
    ensures var t := AfterShutdownClean(s, id, e).value;
            Domains(t) && LocksOk(t) && Placed(t) && OwnersOk(t) && ShutdownOk(t)
  {
    PurgerMovesShutdown(s, id, e);
    assert AfterShutdownClean(s, id, e).value.jobs.Keys == s.jobs.Keys;
  }

  /** The loop of a shutdown keeps account of the jobs it has cleaned up. */
  lemma PurgerMovesShutdown(s: Server, id: JobId, e: Event)
    requires LocksOk(s) && ShutdownOk(s) && AfterShutdownClean(s, id, e).Some?
    requires s.jobs[id].handler == Zombie ==> s.jobs[id].lock.Free?
    ensures var t := AfterShutdownClean(s, id, e).value; LocksOk(t) && ShutdownOk(t)
  {
  }

  /** The events that change calls, the map, the owners or the stage of a shutdown, but no
   * existing job. */
  predicate TableEvent(e: ServerEvent) {
    || e.Arrive? || e.Admit? || e.CreateFails? || e.ListJob? || e.GrantOwner? || e.Detach?
    || e.Relist? || e.Revoke?
    || e.ShutdownBegin? || e.ShutdownWait? || e.ShutdownProceed? || e.ShutdownEnd?
  }

  lemma TableEventKeeps(s: Server, e: ServerEvent)
    requires TablesOk(s) && ServerNext(s, e).Some? && TableEvent(e)
    ensures TablesOk(ServerNext(s, e).value)
  {
    match e
    case Arrive(client, op, id) => ArriveKeeps(s, client, op, id);
    case Admit(c) => AdmitKeeps(s, c);
    case CreateFails(c) => UntiedMoves(s, c, Replied(Internal));
    case ListJob(c) => ListKeeps(s, c);
    case GrantOwner(c) => GrantKeeps(s, c);
    case Detach(c) => DetachKeeps(s, c);
    case Relist(c) => RelistKeeps(s, c);
    case Revoke(c) => RevokeKeeps(s, c);
    case _ => ShutdownMoves(s, e);
  }

  lemma TableEventLeavesJobs(s: Server, e: ServerEvent)
    requires JobsOk(s) && ServerNext(s, e).Some? && TableEvent(e)
    ensures JobsOk(ServerNext(s, e).value)
  {
    assert ServerNext(s, e).value.jobs == s.jobs;
    JobsOkSame(s, ServerNext(s, e).value);
  }

  lemma CreateKeepsJobs(s: Server, c: nat, id: JobId)
    requires ServerInv(s) && AfterCreate(s, c, id).Some?
    ensures ServerInv(AfterCreate(s, c, id).value)
  {
    CreateKeeps(s, c, id);
    InvNew();
    var t := AfterCreate(s, c, id).value;
    forall i <- t.jobs.Keys ensures JobOk(t.jobs[i], i in t.removed) {
      assert i != id ==> JobOk(s.jobs[i], i in s.removed);
    }
  }

  /** The events of a shutdown outside jobs. */
  lemma ShutdownMoves(s: Server, e: ServerEvent)
    requires TablesOk(s) && ServerNext(s, e).Some?
    requires e.ShutdownBegin? || e.ShutdownWait? || e.ShutdownProceed? || e.ShutdownEnd?
    ensures TablesOk(ServerNext(s, e).value)
  {
    var t := ServerNext(s, e).value;
    forall c | 0 <= c < |s.calls| ensures CallOk(t, t.calls[c]) {
      assert CallOk(s, s.calls[c]);
    }
  }

  lemma ShutdownSignalKeeps(s: Server, id: JobId, ok: bool)
    requires ServerInv(s) && AfterShutdownSignal(s, id, ok).Some?
    ensures ServerInv(AfterShutdownSignal(s, id, ok).value)
  {
    JobEventKeeps(s, id, InitStop(ok));
    var t := JobEvent(s, id, InitStop(ok)).value;
    var u := AfterShutdownSignal(s, id, ok).value;
    forall c | 0 <= c < |t.calls| ensures CallOk(u, u.calls[c]) {
      assert CallOk(t, t.calls[c]);
    }
    JobsOkSame(t, u);
  }

  lemma ServerInvNext(s: Server, e: ServerEvent)
    requires ServerInv(s) && ServerNext(s, e).Some?
    ensures ServerInv(ServerNext(s, e).value)
  {
    match e
    case CreateJob(c, id) => CreateKeepsJobs(s, c, id);
    case Perform(c, ok) => PerformKeeps(s, c, ok);
    case Clean(c, event) => CleanKeeps(s, c, event);
    case Background(id, event) => JobEventKeeps(s, id, event);
    case ShutdownSignal(id, ok) => ShutdownSignalKeeps(s, id, ok);
    case ShutdownClean(id, event) => ShutdownCleanKeeps(s, id, event);
    case _ => TableEventKeeps(s, e); TableEventLeavesJobs(s, e);
  }

  /** The invariant holds in every state of every run of a new server. */
  lemma {:induction false} ServerInvRun(s: Server, es: seq<ServerEvent>)
    requires ServerInv(s) && ServerRun(s, es).Some?
    ensures ServerInv(ServerRun(s, es).value)
    decreases |es|
  {
    if es == [] {
    } else {
      ServerInvNext(s, es[0]);
      ServerInvRun(ServerNext(s, es[0]).value, es[1..]);
    }
  }
}
