/** `pkg/server`, one call at a time: each method joins the access table and the supervisor.
 * Interleaved calls are the subject of ServerModel. */
module JobServerObject {
  import opened JobModel
  import opened AccessModel
  import opened ServerModel
  import opened JobObject
  import opened LogServer
  import opened Supervisor
  import opened AccessControlObject

  /** A reply, or the refusal of a call without a client id, or the end of a log stream (None
   * when it is still streaming). */
  datatype Response = Unauthenticated | Answer(reply: Reply) | Streamed(outcome: Option<Outcome>)

  /** What a permitted `Stop` does: the supervisor's stop, and its answer. */
  ghost predicate StopAnswered(before: map<JobId, JobState>, now: map<JobId, JobState>, id: JobId, graceful: bool,
      ok: bool, r: Response)
  {
    r.Answer? && StopDone(before, now, id, graceful, ok, r.reply)
  }

  /** What a permitted `Logs` does: it finds no job, or cannot open its output, or streams. */
  ghost predicate LogsDone(before: map<JobId, JobState>, now: map<JobId, JobState>, id: JobId, follow: bool, ok: bool,
      rounds: seq<Round>, chunks: seq<seq<Byte>>, r: Response)
  {
    if id !in before then r == Answer(NotFound) && chunks == [] && now == before
    else if !ok || before[id].handler == Zombie then r == Answer(Internal) && chunks == [] && now == before
    else
      && r.Streamed? && id in now && now == before[id := now[id]]
      && StreamDone(before[id], now[id], follow, rounds, chunks, r.outcome)
  }

  lemma LogsStreamed(before: map<JobId, JobState>, mid: map<JobId, JobState>, now: map<JobId, JobState>, id: JobId,
      follow: bool, ok: bool, rounds: seq<Round>, chunks: seq<seq<Byte>>, outcome: Option<Outcome>)
    requires id in before && ok && before[id].handler != Zombie
    requires mid == before[id := Opened(before[id], follow)]
    requires id in now && now == mid[id := now[id]]
    requires StreamDone(before[id], now[id], follow, rounds, chunks, outcome)
    ensures LogsDone(before, now, id, follow, ok, rounds, chunks, Streamed(outcome))
  {
  }

  class JobServer {
    const jobs: JobSupervisor
    const auth: AccessControl

    constructor (jobs: JobSupervisor, auth: AccessControl)
      ensures this.jobs == jobs && this.auth == auth
    {
      this.jobs := jobs;
      this.auth := auth;
    }

    ghost predicate Valid()
      reads jobs, auth, jobs.jobs.Values
    {
      jobs.Valid()
    }

    /** The jobs in the map are the jobs that have an owner. */
    ghost predicate TablesAgree()
      reads jobs, auth
    {
      auth.owners.Keys == jobs.jobs.Keys
    }

    /** Who may do what; None for a call without a client id. */
    ghost predicate MayDo(client: Option<string>, access: Access, id: JobId)
      reads auth
    {
      client.Some? && Allowed(auth.View(), client.value, id, access)
    }

    /** The job belongs to the trimmed client, and to nobody if that is blank. */
    method Start(client: Option<string>, id: JobId, createOk: bool) returns (r: Response)
      requires Valid() && GoodId(id) && id !in jobs.jobs
      modifies jobs, auth
      ensures Valid()
      ensures client.None? ==> r == Unauthenticated
      ensures client.Some? && !createOk ==> r == Answer(Internal)
      ensures client.None? || !createOk ==> jobs.jobs == old(jobs.jobs) && auth.owners == old(auth.owners)
      ensures client.Some? && createOk ==>
                && r == Answer(Started(id))
                && jobs.View() == old(jobs.View())[id := NEW_JOB]
                && auth.owners == if Trim(client.value) == "" then old(auth.owners)
                                  else old(auth.owners)[id := Trim(client.value)]
      ensures auth.View() == old(auth.View()).(owners := auth.owners)
      ensures old(TablesAgree()) && (client.Some? ==> Trim(client.value) != "") ==> TablesAgree()
    {
      if client.None? {
        return Unauthenticated;
      }
      var j := jobs.Start(id, createOk);
      if j.None? {
        return Answer(Internal);
      }
      var _ := auth.SetOwner(id, client.value);
      r := Answer(Started(id));
    }

    method Stop(client: Option<string>, id: JobId, graceful: bool, ok: bool) returns (r: Response)
      requires Valid()
      modifies jobs.jobs.Values
      ensures Valid()
      ensures !MayDo(client, FullAccess, id) ==>
                r == (if client.None? then Unauthenticated else Answer(NotFound))
                && jobs.View() == old(jobs.View())
      ensures MayDo(client, FullAccess, id) ==>
                StopAnswered(old(jobs.View()), jobs.View(), id, graceful, ok, r)
    {
      if client.None? {
        return Unauthenticated;
      }
      var allowed := auth.Check(client.value, id, FullAccess);
      if !allowed {
        return Answer(NotFound);
      }
      r := StopAllowed(id, graceful, ok);
    }

    method StopAllowed(id: JobId, graceful: bool, ok: bool) returns (r: Response)
      requires Valid()
      modifies jobs.jobs.Values
      ensures Valid() && StopAnswered(old(jobs.View()), jobs.View(), id, graceful, ok, r)
    {
      var reply := jobs.Stop(id, graceful, ok);
      r := Answer(reply);
    }

    method Inspect(client: Option<string>, id: JobId) returns (r: Response)
      requires Valid()
      ensures client.None? ==> r == Unauthenticated
      ensures client.Some? && (!MayDo(client, ReadAccess, id) || id !in jobs.jobs) ==> r == Answer(NotFound)
      ensures MayDo(client, ReadAccess, id) && id in jobs.jobs ==> r.Answer? && InspectOutcome(jobs.View()[id], r.reply)
    {
      if client.None? {
        return Unauthenticated;
      }
      var allowed := auth.Check(client.value, id, ReadAccess);
      if !allowed {
        return Answer(NotFound);
      }
      var reply := jobs.Inspect(id);
      r := Answer(reply);
    }

    /** Access, lookup and stream; `chunks` is what the client is sent before the response. */
    method Logs(client: Option<string>, id: JobId, follow: bool, ok: bool, rounds: seq<Round>)
      returns (chunks: seq<seq<Byte>>, r: Response)
      requires Valid()
      modifies jobs.jobs.Values
      ensures Valid()
      ensures !MayDo(client, ReadAccess, id) ==>
                r == (if client.None? then Unauthenticated else Answer(NotFound))
                && chunks == [] && jobs.View() == old(jobs.View())
      ensures MayDo(client, ReadAccess, id) ==>
                LogsDone(old(jobs.View()), jobs.View(), id, follow, ok, rounds, chunks, r)
    {
      chunks := [];
      if client.None? {
        return chunks, Unauthenticated;
      }
      var allowed := auth.Check(client.value, id, ReadAccess);
      if !allowed {
        return chunks, Answer(NotFound);
      }
      chunks, r := LogsAllowed(id, follow, ok, rounds);
    }

    method LogsAllowed(id: JobId, follow: bool, ok: bool, rounds: seq<Round>)
      returns (chunks: seq<seq<Byte>>, r: Response)
      requires Valid()
      modifies jobs.jobs.Values
      ensures Valid() && LogsDone(old(jobs.View()), jobs.View(), id, follow, ok, rounds, chunks, r)
    {
      ghost var before := jobs.View();
      var reply := OpenLogs(id, follow, ok);
      if !reply.Stream? {
        return [], Answer(reply);
      }
      ghost var mid := jobs.View();
      var outcome: Option<Outcome>;
      chunks, outcome := StreamJob(id, reply.reader, follow, rounds, before[id]);
      LogsStreamed(before, mid, jobs.View(), id, follow, ok, rounds, chunks, outcome);
      r := Streamed(outcome);
    }

    /** The reader that the supervisor opens, if it does. */
    method OpenLogs(id: JobId, follow: bool, ok: bool) returns (reply: Reply)
      requires Valid()
      modifies jobs.jobs.Values
      ensures Valid()
      ensures reply.Stream? <==> id in jobs.jobs && ok && old(jobs.View())[id].handler != Zombie
      ensures reply.Stream? ==> Mappable(old(jobs.View())[id]) && reply.reader == |old(jobs.View())[id].readers|
      ensures reply.Stream? ==> jobs.View() == old(jobs.View())[id := Opened(old(jobs.View())[id], follow)]
      ensures !reply.Stream? ==> jobs.View() == old(jobs.View())
      ensures !reply.Stream? ==> reply == if id in jobs.jobs then Internal else NotFound
    {
      ghost var before := jobs.View();
      assert id in jobs.jobs ==> Mappable(before[id]);
      reply := jobs.Logs(id, follow, ok);
      if reply.Stream? {
        OpenedReader(before[id], follow);
      }
    }

    /** The stream of a reader that has just been opened in state `before`. */
    method StreamJob(id: JobId, i: nat, follow: bool, rounds: seq<Round>, ghost before: JobState)
      returns (chunks: seq<seq<Byte>>, outcome: Option<Outcome>)
      requires Valid() && id in jobs.jobs && Mappable(before) && before.handler != Zombie
      requires jobs.View()[id] == Opened(before, follow) && i == |before.readers|
      modifies jobs.jobs[id]
      ensures Valid() && jobs.View() == old(jobs.View())[id := jobs.View()[id]]
      ensures StreamDone(before, jobs.View()[id], follow, rounds, chunks, outcome)
    {
      jobs.InMap(id);
      chunks, outcome := StreamFrom(jobs.jobs[id], i, follow, rounds, before);
      DriftKeeps(Opened(before, follow), jobs.jobs[id].View());
      jobs.OneJobChanged(id);
    }

    /** None while the cleanup is still waiting for readers. The owner goes only after the
     * job has gone. */
    method Remove(client: Option<string>, id: JobId, gap: seq<Event>, waiting: seq<Event>, ok: bool)
      returns (r: Option<Response>)
      requires Valid()
      modifies jobs, jobs.jobs.Values, auth
      ensures Valid()
      ensures forall k <- old(jobs.jobs).Keys :: k != id ==> unchanged(old(jobs.jobs[k]))
      ensures !old(MayDo(client, FullAccess, id)) ==>
                r == Some(if client.None? then Unauthenticated else Answer(NotFound))
                && (id in old(jobs.jobs) ==> unchanged(old(jobs.jobs[id])))
      ensures old(MayDo(client, FullAccess, id)) && id !in old(jobs.jobs) ==> r == Some(Answer(NotFound))
      ensures old(MayDo(client, FullAccess, id)) && id in old(jobs.jobs) && !old(jobs.jobs[id].handler).Completed() ==>
                r == Some(Answer(Internal)) && unchanged(old(jobs.jobs[id]))
      ensures old(MayDo(client, FullAccess, id)) && id in old(jobs.jobs) && old(jobs.jobs[id].handler).Completed() ==>
                && (r.Some? ==> r.value.Answer?)
                && RemoveDone(old(jobs.jobs[id].View()), old(jobs.jobs[id]).View(), gap, waiting, ok, ReplyIn(r))
                && (ok && old(jobs.jobs[id].handler) != Zombie ==> r == Some(Answer(Fine)) || r == None)
                && (!ok ==> r != Some(Answer(Fine)))
      ensures jobs.jobs == if r == Some(Answer(Fine)) || r == None then old(jobs.jobs) - {id} else old(jobs.jobs)
      ensures auth.owners == if r == Some(Answer(Fine)) then old(auth.owners) - {id} else old(auth.owners)
      ensures auth.View() == old(auth.View()).(owners := auth.owners)
      ensures old(TablesAgree()) && r.Some? ==> TablesAgree()
    {
      if client.None? {
        return Some(Unauthenticated);
      }
      var allowed := auth.Check(client.value, id, FullAccess);
      if !allowed {
        return Some(Answer(NotFound));
      }
      r := RemoveAllowed(id, gap, waiting, ok);
    }

    method RemoveAllowed(id: JobId, gap: seq<Event>, waiting: seq<Event>, ok: bool) returns (r: Option<Response>)
      requires Valid()
      modifies jobs, jobs.jobs.Values, auth
      ensures Valid()
      ensures forall k <- old(jobs.jobs).Keys :: k != id ==> unchanged(old(jobs.jobs[k]))
      ensures id !in old(jobs.jobs) ==> r == Some(Answer(NotFound))
      ensures id in old(jobs.jobs) && !old(jobs.jobs[id].handler).Completed() ==>
                r == Some(Answer(Internal)) && unchanged(old(jobs.jobs[id]))
      ensures id in old(jobs.jobs) && old(jobs.jobs[id].handler).Completed() ==>
                && (r.Some? ==> r.value.Answer?)
                && RemoveDone(old(jobs.jobs[id].View()), old(jobs.jobs[id]).View(), gap, waiting, ok, ReplyIn(r))
      ensures jobs.jobs == if r == Some(Answer(Fine)) || r == None then old(jobs.jobs) - {id} else old(jobs.jobs)
      ensures auth.View() == old(auth.View()).(owners := auth.owners)
      ensures auth.owners == if r == Some(Answer(Fine)) then old(auth.owners) - {id} else old(auth.owners)
    {
      var reply := jobs.Remove(id, gap, waiting, ok);
      assert auth.View() == old(auth.View());
      if reply.None? {
        return None;
      }
      if reply.value == Fine {
        ghost var left := jobs.View();
        Revoke(id);
        assert jobs.View() == left;
      }
      r := Some(Answer(reply.value));
      assert ReplyIn(r) == reply;
    }

    method Revoke(id: JobId)
      requires Valid()
      modifies auth
      ensures Valid() && jobs.jobs == old(jobs.jobs) && jobs.View() == old(jobs.View())
      ensures auth.View() == old(auth.View()).(owners := old(auth.owners) - {id})
    {
      var _ := auth.Remove(id);
    }
  }

  /** The reply in a response that has one. */
  function ReplyIn(r: Option<Response>): Option<Reply> {
    match r
    case Some(Answer(reply)) => Some(reply)
    case _ => None
  }
}
