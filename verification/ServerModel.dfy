/** The whole server as a state machine: concurrent API calls over the supervisor's map,
 * the access-control table and the jobs.
 *
 * A section under the map's lock, or under the access table's lock, is one event; when
 * the supervisor calls into a job while it holds the map lock, the job's section is
 * part of the same event. `Remove` gives up the map lock after it has unlinked the job,
 * so its cleanup and its re-insertion are separate events. `StopSupervisor` keeps the
 * map lock from its first event to its last. */
module ServerModel {
  import opened JobModel
  import opened AccessModel

  type JobId = string

  datatype Op =
    | StartOp
    | StopOp(graceful: bool)
    | RemoveOp
    | InspectOp
    | LogsOp(follow: bool)
  {
    /** The access the server asks for before it acts. */
    function Needs(): Access {
      if InspectOp? || LogsOp? then ReadAccess else FullAccess
    }
  }

  datatype Reply =
    | Started(id: JobId)
    | Fine
    | Details(status: Handler, code: int)
    | Stream(reader: nat)
    | NotFound
    | Internal

  /** How far a call has come. */
  datatype Stage =
    | Arrived
    | Admitted                    // access granted, supervisor not yet called
    | Created                     // Start: the job exists, not yet in the map
    | Listed                      // Start: in the map, no owner yet
    | Detached(cleaning: bool)    // Remove: unlinked; inside Cleanup or before it
    | CleanupFailed               // Remove: to be put back
    | Purged                      // Remove: cleaned up, owner entry still there
    | Replied(reply: Reply)

  datatype Call = Call(client: string, op: Op, id: JobId, stage: Stage)

  /** `StopSupervisor`: off, in its first loop, in wg.Wait, or in its second loop. */
  datatype Shutdown =
    | Idle
    | Signalling(todo: set<JobId>)
    | Awaiting
    | Purging(todo: set<JobId>, current: Option<JobId>, failed: set<JobId>)

  /** `mapped` is the key set of the supervisor's map. `jobs` also has the jobs that are
   * not, or no longer, in it. History: `starter` is the client of the Start that created
   * a job, `announced` the ids whose Start has set the owner, `removed` the ids whose
   * Remove has cleaned up. */
  datatype Server = Server(
    jobs: map<JobId, JobState>,
    mapped: set<JobId>,
    acl: Acl,
    calls: seq<Call>,
    shutdown: Shutdown,
    starter: map<JobId, string>,
    announced: set<JobId>,
    removed: set<JobId>)

  datatype ServerEvent =
    | Arrive(client: string, op: Op, id: JobId)
    | Admit(call: nat)
    | CreateJob(call: nat, id: JobId)
    | CreateFails(call: nat)
    | ListJob(call: nat)
    | GrantOwner(call: nat)
    | Perform(call: nat, ok: bool)
    | Detach(call: nat)
    | Clean(call: nat, event: Event)
    | Relist(call: nat)
    | Revoke(call: nat)
    | Background(id: JobId, event: Event)
    | ShutdownBegin
    | ShutdownSignal(id: JobId, ok: bool)
    | ShutdownWait
    | ShutdownProceed
    | ShutdownClean(id: JobId, event: Event)
    | ShutdownEnd

  /** A server as `New` returns it, for any configured superusers. */
  function NewServer(full: set<string>, read: set<string>): Server {
    Server(map[], {}, Acl(map[], full, read), [], Idle, map[], {}, {})
  }

  /** Job ids are generated, so they are never blank and need no trimming. */
  predicate GoodId(id: JobId) {
    id != "" && Trim(id) == id
  }

  predicate CleanupStep(e: Event) {
    e.BeginCleanup? || e.ReadersGone? || e.EndCleanup?
  }

  /** What `Inspect` reports: exit code 0 for a running job; for the others the code of
   * the process, or -1 while it has not been reaped. */
  function Inspection(j: JobState): Reply {
    if !j.handler.Completed() then Details(j.handler, 0)
    else if j.process.Reaped? then Details(j.handler, j.process.code)
    else Details(j.handler, -1)
  }

  /** The section of the job that a call runs, and the reply it gets. */
  function JobCall(j: JobState, op: Op, ok: bool): Option<(JobState, Reply)>
    requires !op.StartOp? && !op.RemoveOp?
  {
    match op
    case StopOp(true) =>
      (match Next(j, InitStop(ok))
       case None => None
       case Some(k) => Some((k, if j.handler.Active? && ok then Fine else Internal)))
    case StopOp(false) =>
      (match Next(j, ForceStop(ok))
       case None => None
       case Some(k) => Some((k, if !j.handler.Completed() && ok then Fine else Internal)))
    case LogsOp(follow) =>
      (match Next(j, OpenLogs(follow, ok))
       case None => None
       case Some(k) => Some((k, if !j.handler.Zombie? && ok then Stream(|j.readers|) else Internal)))
    case InspectOp => if j.lock.Free? then Some((j, Inspection(j))) else None
  }

  // ----- the same, as a caller sees it

  /** A stop that has answered `reply` has made job `k` of job `j`. A graceful one arms a timer
   * and attempts SIGTERM, of an Active job only; a forced one attempts SIGKILL, of a running
   * job only, after it has cancelled the unexpired timer that a Stopping job remembers. */
  ghost predicate StopOutcome(j: JobState, k: JobState, graceful: bool, ok: bool, reply: Reply) {
    if graceful then
      if j.handler == Active then
        && k == j.(handler := if ok then Stopping else Active, attempts := j.attempts + [Attempt(Term, ok)],
                   timers := j.timers + [Pending], stopTimer := Some(|j.timers|))
        && reply == if ok then Fine else Internal
      else k == j && reply == Internal
    else if j.handler == Active || j.handler == Stopping then
      && k == j.(handler := if ok then Stopped else j.handler, attempts := j.attempts + [Attempt(Kill, ok)],
                 timers := k.timers)
      && |k.timers| == |j.timers|
      && (forall t :: 0 <= t < |j.timers| ==>
            k.timers[t] == if j.handler == Stopping && j.stopTimer == Some(t) && j.timers[t] == Pending
                           then Over else j.timers[t])
      && reply == if ok then Fine else Internal
    else k == j && reply == Internal
  }

  /** What `Inspect` may answer about a job. */
  ghost predicate InspectOutcome(j: JobState, reply: Reply) {
    && reply.Details? && reply.status == j.handler
    && (j.handler == Active || j.handler == Stopping ==> reply.code == 0)
    && (j.handler.Completed() && j.process.Running? ==> reply.code == -1)
    && (j.handler.Completed() && j.process.Reaped? ==> reply.code == j.process.code)
  }

  /** The section of `Logs` that opens a reader: refused for a Zombie or a file that does not
   * open; otherwise one more reader, at the start of the file, is in the wait group. */
  ghost predicate OpenOutcome(j: JobState, k: JobState, follow: bool, ok: bool, reply: Reply) {
    if j.handler == Zombie || !ok then k == j && reply == Internal
    else
      && reply == Stream(|j.readers|) && |k.readers| == |j.readers| + 1
      && k == j.(readers := k.readers, group := j.group + 1, lock := Opening(|j.readers|))
      && k.readers[..|j.readers|] == j.readers
      && var r := k.readers[|j.readers|];
      && r.follow == follow && r.pc == Creating && r.offset == 0 && r.sent == [] && r.outcome == None
      && !r.cancelled && r.start == |j.output|
  }

  function SetStage(s: Server, c: nat, stage: Stage): Server
    requires c < |s.calls|
  {
    s.(calls := s.calls[c := s.calls[c].(stage := stage)])
  }

  function SetJob(s: Server, id: JobId, j: JobState): Server {
    s.(jobs := s.jobs[id := j])
  }

  /** A section of a job that belongs to no call. */
  function JobEvent(s: Server, id: JobId, e: Event): Option<Server> {
    if id !in s.jobs then None
    else
      match Next(s.jobs[id], e)
      case None => None
      case Some(j) => Some(SetJob(s, id, j))
  }

  predicate At(s: Server, c: nat, stage: Stage) {
    c < |s.calls| && s.calls[c].stage == stage
  }

  function AfterAdmit(s: Server, c: nat): Option<Server> {
    if !At(s, c, Arrived) || s.calls[c].op.StartOp? then None
    else
      var q := s.calls[c];
      Some(SetStage(s, c,
        if Allowed(s.acl, q.client, q.id, q.op.Needs()) then Admitted else Replied(NotFound)))
  }

  function AfterCreate(s: Server, c: nat, id: JobId): Option<Server> {
    if !At(s, c, Arrived) || !s.calls[c].op.StartOp? || id in s.jobs || !GoodId(id) then None
    else
      Some(s.(jobs := s.jobs[id := NEW_JOB],
              starter := s.starter[id := s.calls[c].client],
              calls := s.calls[c := s.calls[c].(id := id, stage := Created)]))
  }

  function AfterList(s: Server, c: nat): Option<Server> {
    if !At(s, c, Created) || !s.shutdown.Idle? then None
    else Some(SetStage(s, c, Listed).(mapped := s.mapped + {s.calls[c].id}))
  }

  function AfterGrant(s: Server, c: nat): Option<Server> {
    if !At(s, c, Listed) then None
    else
      var q := s.calls[c];
      var t := SetStage(s, c, Replied(Started(q.id))).(announced := s.announced + {q.id});
      match WithOwner(s.acl, q.id, q.client)
      case None => Some(t)
      case Some(a) => Some(t.(acl := a))
  }

  function AfterPerform(s: Server, c: nat, ok: bool): Option<Server> {
    if !At(s, c, Admitted) || !s.shutdown.Idle? || s.calls[c].op.RemoveOp? || s.calls[c].op.StartOp? then None
    else
      var q := s.calls[c];
      if q.id !in s.mapped || q.id !in s.jobs then Some(SetStage(s, c, Replied(NotFound)))
      else
        match JobCall(s.jobs[q.id], q.op, ok)
        case None => None
        case Some((j, reply)) => Some(SetStage(SetJob(s, q.id, j), c, Replied(reply)))
  }

  /** The locked part of `Remove`: lookup, Completed check, delete. */
  function AfterDetach(s: Server, c: nat): Option<Server> {
    if !At(s, c, Admitted) || !s.shutdown.Idle? || !s.calls[c].op.RemoveOp? then None
    else
      var id := s.calls[c].id;
      if id !in s.mapped || id !in s.jobs then Some(SetStage(s, c, Replied(NotFound)))
      else if !s.jobs[id].lock.Free? then None
      else if !s.jobs[id].handler.Completed() then Some(SetStage(s, c, Replied(Internal)))
      else Some(SetStage(s, c, Detached(false)).(mapped := s.mapped - {id}))
  }

  /** `Cleanup` inside `Remove`. A Zombie refuses at once. */
  function AfterClean(s: Server, c: nat, e: Event): Option<Server> {
    if c >= |s.calls| || !s.calls[c].stage.Detached? || !CleanupStep(e)
       || e.BeginCleanup? == s.calls[c].stage.cleaning then None
    else
      var id := s.calls[c].id;
      match JobEvent(s, id, e)
      case None => None
      case Some(t) =>
        if e.BeginCleanup? then
          Some(SetStage(t, c, if s.jobs[id].handler.Zombie? then CleanupFailed else Detached(true)))
        else if e.EndCleanup? then
          if e.ok then Some(SetStage(t, c, Purged).(removed := s.removed + {id}))
          else Some(SetStage(t, c, CleanupFailed))
        else Some(t)
  }

  function AfterRelist(s: Server, c: nat): Option<Server> {
    if !At(s, c, CleanupFailed) || !s.shutdown.Idle? then None
    else Some(SetStage(s, c, Replied(Internal)).(mapped := s.mapped + {s.calls[c].id}))
  }

  function AfterRevoke(s: Server, c: nat): Option<Server> {
    if !At(s, c, Purged) then None
    else
      var t := SetStage(s, c, Replied(Fine));
      match WithoutOwner(s.acl, s.calls[c].id)
      case None => Some(t)
      case Some(a) => Some(t.(acl := a))
  }

  function AfterShutdownSignal(s: Server, id: JobId, ok: bool): Option<Server> {
    if !s.shutdown.Signalling? || id !in s.shutdown.todo then None
    else
      match JobEvent(s, id, InitStop(ok))
      case None => None
      case Some(t) => Some(t.(shutdown := Signalling(s.shutdown.todo - {id})))
  }

  /** `Cleanup` in the second loop. */
  function AfterShutdownClean(s: Server, id: JobId, e: Event): Option<Server> {
    if !s.shutdown.Purging? || id !in s.shutdown.todo || !CleanupStep(e)
       || s.shutdown.current != (if e.BeginCleanup? then None else Some(id)) then None
    else
      match JobEvent(s, id, e)
      case None => None
      case Some(t) =>
        var p := s.shutdown;
        if e.BeginCleanup? && !s.jobs[id].handler.Zombie? then Some(t.(shutdown := p.(current := Some(id))))
        else if e.ReadersGone? then Some(t)
        else
          Some(t.(shutdown := Purging(p.todo - {id}, None,
                    if e == EndCleanup(false) then p.failed + {id} else p.failed)))
  }

  /** The server after an event, or None when the event cannot happen. */
  function ServerNext(s: Server, e: ServerEvent): Option<Server> {
    match e
    case Arrive(client, op, id) =>
      Some(s.(calls := s.calls + [Call(client, op, if op.StartOp? then "" else id, Arrived)]))
    case Admit(c) => AfterAdmit(s, c)
    case CreateJob(c, id) => AfterCreate(s, c, id)
    case CreateFails(c) =>
      if At(s, c, Arrived) && s.calls[c].op.StartOp? then Some(SetStage(s, c, Replied(Internal))) else None
    case ListJob(c) => AfterList(s, c)
    case GrantOwner(c) => AfterGrant(s, c)
    case Perform(c, ok) => AfterPerform(s, c, ok)
    case Detach(c) => AfterDetach(s, c)
    case Clean(c, event) => AfterClean(s, c, event)
    case Relist(c) => AfterRelist(s, c)
    case Revoke(c) => AfterRevoke(s, c)
    case Background(id, event) => if Ambient(event) then JobEvent(s, id, event) else None
    case ShutdownBegin => if s.shutdown.Idle? then Some(s.(shutdown := Signalling(s.mapped))) else None
    case ShutdownSignal(id, ok) => AfterShutdownSignal(s, id, ok)
    case ShutdownWait => if s.shutdown == Signalling({}) then Some(s.(shutdown := Awaiting)) else None
    case ShutdownProceed =>
      if s.shutdown.Awaiting? && forall id <- s.mapped :: id in s.jobs && s.jobs[id].Done()
      then Some(s.(shutdown := Purging(s.mapped, None, {}))) else None
    case ShutdownClean(id, event) => AfterShutdownClean(s, id, event)
    case ShutdownEnd =>
      if s.shutdown.Purging? && s.shutdown.todo == {} && s.shutdown.current == None
      then Some(s.(shutdown := Idle)) else None
  }

  function ServerRun(s: Server, es: seq<ServerEvent>): Option<Server>
    decreases |es|
  {
    if es == [] then Some(s)
    else
      match ServerNext(s, es[0])
      case None => None
      case Some(t) => ServerRun(t, es[1..])
  }
}
