/** The concurrent server against a job map whose operations happen at one point each. */
module Refinement {
  import opened JobModel
  import opened JobInvariants
  import opened JobTheorems
  import opened AccessModel
  import opened ServerModel
  import opened ServerInvariants
  import opened ServerTheorems

  /** An atomic job map. `world` holds the jobs themselves, which also move on their own;
   * `visible` is the key set of the map; `hidden` has the jobs that a Remove has taken out
   * for the time being, with the call that did; `acl` says who may do what; `answers` has
   * the result of every call that has happened. */
  datatype Atomic = Atomic(
    world: map<JobId, JobState>,
    visible: set<JobId>,
    hidden: map<JobId, nat>,
    acl: Acl,
    answers: map<nat, Reply>)

  datatype AtomicOp =
    | Skip
    | NewWorldJob(id: JobId)
    | WorldEvent(id: JobId, event: Event)
    | DoStart(call: nat, id: JobId)
    | DoCall(call: nat, op: Op, id: JobId, ok: bool)
    | DoRemove(call: nat, id: JobId)
    | Hide(call: nat, id: JobId)
    | Restore(call: nat, id: JobId)
    | Forget(call: nat, id: JobId)
    | Refuse(call: nat, client: string, op: Op, id: JobId)
    | FailStart(call: nat)
    | Grant(id: JobId, client: string)
    | Forbid(id: JobId)

  /** The map's operations. Each call is answered once, by the map as it stands then. */
  function AtomicNext(a: Atomic, op: AtomicOp): Option<Atomic> {
    match op
    case Skip => Some(a)
    case NewWorldJob(id) => if id in a.world then None else Some(a.(world := a.world[id := NEW_JOB]))
    case WorldEvent(id, e) =>
      if id !in a.world then None
      else
        (match Next(a.world[id], e)
         case None => None
         case Some(j) => Some(a.(world := a.world[id := j])))
    case DoStart(c, id) =>
      if c in a.answers || id !in a.world || id in a.visible then None
      else Some(a.(visible := a.visible + {id}, answers := a.answers[c := Started(id)]))
    case DoCall(c, request, id, ok) =>
      if c in a.answers || request.StartOp? || request.RemoveOp? then None
      else if id !in a.visible || id !in a.world then Some(a.(answers := a.answers[c := NotFound]))
      else
        (match JobCall(a.world[id], request, ok)
         case None => None
         case Some((j, reply)) =>
           Some(a.(world := a.world[id := j], answers := a.answers[c := reply])))
    case DoRemove(c, id) =>
      if c in a.answers then None
      else if id !in a.visible || id !in a.world then Some(a.(answers := a.answers[c := NotFound]))
      else if !a.world[id].handler.Completed() then Some(a.(answers := a.answers[c := Internal]))
      else Some(a.(visible := a.visible - {id}, answers := a.answers[c := Fine]))
    case Hide(c, id) =>
      if c in a.answers || id !in a.visible || id !in a.world || !a.world[id].handler.Completed() then None
      else Some(a.(visible := a.visible - {id}, hidden := a.hidden[id := c]))
    case Restore(c, id) =>
      if id !in a.hidden || a.hidden[id] != c || c in a.answers then None
      else Some(a.(visible := a.visible + {id}, hidden := a.hidden - {id}, answers := a.answers[c := Internal]))
    case Forget(c, id) =>
      if id !in a.hidden || a.hidden[id] != c || c in a.answers then None
      else Some(a.(hidden := a.hidden - {id}, answers := a.answers[c := Fine]))
    case Refuse(c, client, request, id) =>
      if c in a.answers || request.StartOp? || Allowed(a.acl, client, id, request.Needs()) then None
      else Some(a.(answers := a.answers[c := NotFound]))
    case FailStart(c) => if c in a.answers then None else Some(a.(answers := a.answers[c := Internal]))
    case Grant(id, client) =>
      (match WithOwner(a.acl, id, client)
       case None => Some(a)
       case Some(acl) => Some(a.(acl := acl)))
    case Forbid(id) =>
      (match WithoutOwner(a.acl, id)
       case None => Some(a)
       case Some(acl) => Some(a.(acl := acl)))
  }

  function AtomicRun(a: Atomic, ops: seq<AtomicOp>): Option<Atomic>
    decreases |ops|
  {
    if ops == [] then Some(a)
    else
      match AtomicNext(a, ops[0])
      case None => None
      case Some(b) => AtomicRun(b, ops[1..])
  }

  lemma AtomicRunConcat(a: Atomic, ops: seq<AtomicOp>, more: seq<AtomicOp>)
    requires AtomicRun(a, ops).Some?
    ensures AtomicRun(a, ops + more) == AtomicRun(AtomicRun(a, ops).value, more)
    decreases |ops|
  {
    if ops == [] {
      assert ops + more == more;
    } else {
      assert (ops + more)[0] == ops[0] && (ops + more)[1..] == ops[1..] + more;
      AtomicRunConcat(AtomicNext(a, ops[0]).value, ops[1..], more);
    }
  }

  lemma AtomicStep(a: Atomic, ops: seq<AtomicOp>)
    requires ops != [] && AtomicNext(a, ops[0]).Some?
    ensures AtomicRun(a, ops) == AtomicRun(AtomicNext(a, ops[0]).value, ops[1..])
  {
  }

  /** A new map, for any configured superusers. */
  function NewAtomic(full: set<string>, read: set<string>): Atomic {
    Atomic(map[], {}, map[], Acl(map[], full, read), map[])
  }

  /** How the answer of a call relates to how far the call has come. A call that has not
   * reached the supervisor, and has not been refused, has not happened; one that has
   * replied got the map's answer. With `atOnce`, a Remove happens when it unlinks the job,
   * and never fails afterwards. */
  predicate AnswerOk(q: Call, c: nat, answers: map<nat, Reply>, atOnce: bool) {
    match q.stage
    case Arrived => c !in answers
    case Admitted => c !in answers
    case Created => c !in answers
    case Listed => c in answers && answers[c] == Started(q.id)
    case Detached(_) => if atOnce then c in answers && answers[c] == Fine else c !in answers
    case CleanupFailed => !atOnce && c !in answers
    case Purged => c in answers && answers[c] == Fine
    case Replied(reply) => c in answers && answers[c] == reply
  }

  ghost predicate AnswersOk(calls: seq<Call>, answers: map<nat, Reply>, atOnce: bool) {
    && (forall c <- answers.Keys :: c < |calls|)
    && (forall c :: 0 <= c < |calls| ==> AnswerOk(calls[c], c, answers, atOnce))
  }

  ghost predicate HiddenOk(calls: seq<Call>, hidden: map<JobId, nat>) {
    && (forall id <- hidden.Keys :: hidden[id] < |calls| && calls[hidden[id]].id == id
          && (calls[hidden[id]].stage.Detached? || calls[hidden[id]].stage.CleanupFailed?))
    && (forall c :: 0 <= c < |calls| && (calls[c].stage.Detached? || calls[c].stage.CleanupFailed?) ==>
          calls[c].id in hidden && hidden[calls[c].id] == c)
  }

  /** The map is the supervisor's map, the world its jobs, the access table the server's. */
  ghost predicate Simulates(s: Server, a: Atomic, atOnce: bool) {
    && a.world == s.jobs
    && a.visible == s.mapped
    && a.acl == s.acl
    && AnswersOk(s.calls, a.answers, atOnce)
    && (if atOnce then a.hidden == map[] else HiddenOk(s.calls, a.hidden))
  }

  /** Where in the server's run each operation of the map happens. */
  function Linearized(s: Server, e: ServerEvent, atOnce: bool): AtomicOp
    requires ServerNext(s, e).Some?
  {
    match e
    case Admit(c) =>
      var q := s.calls[c];
      if Allowed(s.acl, q.client, q.id, q.op.Needs()) then Skip else Refuse(c, q.client, q.op, q.id)
    case CreateFails(c) => FailStart(c)
    case CreateJob(c, id) => NewWorldJob(id)
    case GrantOwner(c) => Grant(s.calls[c].id, s.calls[c].client)
    case Revoke(c) => Forbid(s.calls[c].id)
    case ListJob(c) => DoStart(c, s.calls[c].id)
    case Perform(c, ok) => DoCall(c, s.calls[c].op, s.calls[c].id, ok)
    case Detach(c) =>
      if atOnce || !ServerNext(s, e).value.calls[c].stage.Detached? then DoRemove(c, s.calls[c].id)
      else Hide(c, s.calls[c].id)
    case Clean(c, event) => WorldEvent(s.calls[c].id, event)
    case Relist(c) => Restore(c, s.calls[c].id)
    case Background(id, event) => WorldEvent(id, event)
    case ShutdownSignal(id, ok) => WorldEvent(id, InitStop(ok))
    case ShutdownClean(id, event) => WorldEvent(id, event)
    case _ => Skip
  }

  /** The operations of the map for one event: a successful cleanup also lets go of the
   * hidden job. */
  function LinearizedAll(s: Server, e: ServerEvent, atOnce: bool): seq<AtomicOp>
    requires ServerNext(s, e).Some?
  {
    [Linearized(s, e, atOnce)]
      + if !atOnce && e.Clean? && e.event == EndCleanup(true) then [Forget(e.call, s.calls[e.call].id)] else []
  }

  // ----- no failures, no shutdown: Remove happens at one point

  /** Cleanups do not fail and nobody shuts the server down. */
  predicate Smooth(e: ServerEvent) {
    match e
    case Clean(_, event) => event != EndCleanup(false)
    case ShutdownBegin => false
    case _ => true
  }

  /** In smooth runs a job is a Zombie exactly when it has been removed. */
  ghost predicate ZombiesRemoved(s: Server) {
    && s.shutdown.Idle?
    && forall id <- s.jobs.Keys :: s.jobs[id].handler == Zombie ==> id in s.removed
  }

  lemma ZombiesStayRemoved(s: Server, e: ServerEvent)
    requires ZombiesRemoved(s) && ServerNext(s, e).Some? && Smooth(e)
    ensures ZombiesRemoved(ServerNext(s, e).value)
  {
    var t := ServerNext(s, e).value;
    match e
    case Perform(c, ok) =>
      var id := s.calls[c].id;
      if id in s.mapped && id in s.jobs {
        var es := JobCallIsEvent(s.jobs[id], s.calls[c].op, ok);
        if es != [] {
          RunStep(s.jobs[id], es);
          OthersKeep(s.jobs[id], es[0]);
        }
      }
    case Background(id, event) => OthersKeep(s.jobs[id], event);
    case _ =>
  }

  // ----- the simulation

  lemma AnswersMove(calls: seq<Call>, answers: map<nat, Reply>, after: map<nat, Reply>, c: nat, q: Call, atOnce: bool)
    requires AnswersOk(calls, answers, atOnce) && c < |calls|
    requires answers.Keys <= after.Keys <= answers.Keys + {c}
    requires forall d <- answers.Keys :: d != c ==> after[d] == answers[d]
    requires AnswerOk(q, c, after, atOnce)
    ensures AnswersOk(calls[c := q], after, atOnce)
  {
    var moved := calls[c := q];
    forall d | 0 <= d < |moved| ensures AnswerOk(moved[d], d, after, atOnce) {
      assert AnswerOk(calls[d], d, answers, atOnce);
    }
  }

  lemma ArrivalAgrees(s: Server, a: Atomic, e: ServerEvent, atOnce: bool)
    requires Simulates(s, a, atOnce) && e.Arrive?
    ensures Simulates(ServerNext(s, e).value, a, atOnce)
  {
    var t := ServerNext(s, e).value;
    forall d | 0 <= d < |t.calls| ensures AnswerOk(t.calls[d], d, a.answers, atOnce) {
      if d < |s.calls| {
        assert AnswerOk(s.calls[d], d, a.answers, atOnce);
      }
    }
  }

  /** A call admitted or refused before the supervisor. */
  lemma AdmissionAgrees(s: Server, a: Atomic, e: ServerEvent, c: nat, atOnce: bool)
    requires Simulates(s, a, atOnce) && ServerNext(s, e).Some? && c < |s.calls|
    requires AnswerOk(s.calls[c], c, a.answers, atOnce)
    requires e == Admit(c) || e == CreateFails(c)
    ensures var op := Linearized(s, e, atOnce);
            AtomicNext(a, op).Some? && Simulates(ServerNext(s, e).value, AtomicNext(a, op).value, atOnce)
  {
    var t := ServerNext(s, e).value;
    assert t.calls == s.calls[c := t.calls[c]];
    CallMovesOn(s, t, a, AtomicNext(a, Linearized(s, e, atOnce)).value, c, atOnce);
  }

  /** A Start that has happened gets its owner. */
  lemma GrantAgrees(s: Server, a: Atomic, c: nat, atOnce: bool)
    requires Simulates(s, a, atOnce) && AfterGrant(s, c).Some?
    requires AnswerOk(s.calls[c], c, a.answers, atOnce)
    ensures var op := Grant(s.calls[c].id, s.calls[c].client);
            AtomicNext(a, op).Some? && Simulates(AfterGrant(s, c).value, AtomicNext(a, op).value, atOnce)
  {
    var b := AtomicNext(a, Grant(s.calls[c].id, s.calls[c].client)).value;
    CallMovesOn(s, AfterGrant(s, c).value, a, b, c, atOnce);
  }

  /** A Remove that has happened takes the owner away. */
  lemma RevokeAgrees(s: Server, a: Atomic, c: nat, atOnce: bool)
    requires Simulates(s, a, atOnce) && AfterRevoke(s, c).Some?
    requires AnswerOk(s.calls[c], c, a.answers, atOnce)
    ensures var op := Forbid(s.calls[c].id);
            AtomicNext(a, op).Some? && Simulates(AfterRevoke(s, c).value, AtomicNext(a, op).value, atOnce)
  {
    CallMovesOn(s, AfterRevoke(s, c).value, a, AtomicNext(a, Forbid(s.calls[c].id)).value, c, atOnce);
  }

  /** One call moves on in both systems, and no job is hidden or shown. */
  lemma CallMovesOn(s: Server, t: Server, a: Atomic, b: Atomic, c: nat, atOnce: bool)
    requires Simulates(s, a, atOnce) && c < |s.calls| == |t.calls| && t.calls == s.calls[c := t.calls[c]]
    requires b.world == t.jobs && b.visible == t.mapped && b.hidden == a.hidden && b.acl == t.acl
    requires a.answers.Keys <= b.answers.Keys <= a.answers.Keys + {c}
    requires forall d <- a.answers.Keys :: d != c ==> b.answers[d] == a.answers[d]
    requires AnswerOk(t.calls[c], c, b.answers, atOnce)
    requires atOnce || (!s.calls[c].stage.Detached? && !s.calls[c].stage.CleanupFailed?)
    requires atOnce || (!t.calls[c].stage.Detached? && !t.calls[c].stage.CleanupFailed?)
    ensures Simulates(t, b, atOnce)
  {
    AnswersMove(s.calls, a.answers, b.answers, c, t.calls[c], atOnce);
  }

  lemma CreateAgrees(s: Server, a: Atomic, c: nat, id: JobId, atOnce: bool)
    requires Simulates(s, a, atOnce) && AfterCreate(s, c, id).Some?
    requires AnswerOk(s.calls[c], c, a.answers, atOnce)
    ensures AtomicNext(a, NewWorldJob(id)).Some?
    ensures Simulates(AfterCreate(s, c, id).value, AtomicNext(a, NewWorldJob(id)).value, atOnce)
  {
    CallMovesOn(s, AfterCreate(s, c, id).value, a, AtomicNext(a, NewWorldJob(id)).value, c, atOnce);
  }

  lemma ListAgrees(s: Server, a: Atomic, c: nat, atOnce: bool)
    requires Simulates(s, a, atOnce) && AfterList(s, c).Some? && CallOk(s, s.calls[c])
    requires AnswerOk(s.calls[c], c, a.answers, atOnce)
    ensures AtomicNext(a, DoStart(c, s.calls[c].id)).Some?
    ensures Simulates(AfterList(s, c).value, AtomicNext(a, DoStart(c, s.calls[c].id)).value, atOnce)
  {
    var b := AtomicNext(a, DoStart(c, s.calls[c].id)).value;
    CallMovesOn(s, AfterList(s, c).value, a, b, c, atOnce);
  }

  lemma PerformAgrees(s: Server, a: Atomic, c: nat, ok: bool, atOnce: bool)
    requires Simulates(s, a, atOnce) && AfterPerform(s, c, ok).Some?
    requires AnswerOk(s.calls[c], c, a.answers, atOnce)
    ensures var op := DoCall(c, s.calls[c].op, s.calls[c].id, ok);
            AtomicNext(a, op).Some? && Simulates(AfterPerform(s, c, ok).value, AtomicNext(a, op).value, atOnce)
  {
    var q := s.calls[c];
    var b := AtomicNext(a, DoCall(c, q.op, q.id, ok)).value;
    CallMovesOn(s, AfterPerform(s, c, ok).value, a, b, c, atOnce);
  }

  /** Only the call itself can have hidden a job that is in the map. */
  ghost predicate NobodyElseHides(calls: seq<Call>, c: nat)
    requires c < |calls|
  {
    forall d :: 0 <= d < |calls| && d != c && (calls[d].stage.Detached? || calls[d].stage.CleanupFailed?) ==>
      calls[d].id != calls[c].id
  }

  lemma HideAgrees(s: Server, a: Atomic, c: nat)
    requires Simulates(s, a, false) && Domains(s) && AfterDetach(s, c).Some?
    requires AnswerOk(s.calls[c], c, a.answers, false)
    requires AfterDetach(s, c).value.calls[c].stage.Detached? && NobodyElseHides(s.calls, c)
    ensures var op := Hide(c, s.calls[c].id);
            AtomicNext(a, op).Some? && Simulates(AfterDetach(s, c).value, AtomicNext(a, op).value, false)
  {
    AnswersMove(s.calls, a.answers, a.answers, c, AfterDetach(s, c).value.calls[c], false);
  }

  lemma DetachAgrees(s: Server, a: Atomic, c: nat, atOnce: bool)
    requires Simulates(s, a, atOnce) && Domains(s) && AfterDetach(s, c).Some?
    requires AnswerOk(s.calls[c], c, a.answers, atOnce)
    requires atOnce || !AfterDetach(s, c).value.calls[c].stage.Detached?
    ensures var op := DoRemove(c, s.calls[c].id);
            AtomicNext(a, op).Some? && Simulates(AfterDetach(s, c).value, AtomicNext(a, op).value, atOnce)
  {
    var b := AtomicNext(a, DoRemove(c, s.calls[c].id)).value;
    CallMovesOn(s, AfterDetach(s, c).value, a, b, c, atOnce);
  }

  lemma RelistAgrees(s: Server, a: Atomic, c: nat)
    requires Simulates(s, a, false) && AfterRelist(s, c).Some?
    requires AnswerOk(s.calls[c], c, a.answers, false)
    ensures var op := Restore(c, s.calls[c].id);
            AtomicNext(a, op).Some? && Simulates(AfterRelist(s, c).value, AtomicNext(a, op).value, false)
  {
    var b := AtomicNext(a, Restore(c, s.calls[c].id)).value;
    AnswersMove(s.calls, a.answers, b.answers, c, AfterRelist(s, c).value.calls[c], false);
  }

  /** Inside a cleanup that does not end it with success, or at one point. */
  lemma CleanAgrees(s: Server, a: Atomic, c: nat, e: Event, atOnce: bool)
    requires Simulates(s, a, atOnce) && AfterClean(s, c, e).Some?
    requires AnswerOk(s.calls[c], c, a.answers, atOnce)
    requires if atOnce then !AfterClean(s, c, e).value.calls[c].stage.CleanupFailed? else e != EndCleanup(true)
    ensures var op := WorldEvent(s.calls[c].id, e);
            AtomicNext(a, op).Some? && Simulates(AfterClean(s, c, e).value, AtomicNext(a, op).value, atOnce)
  {
    AnswersMove(s.calls, a.answers, a.answers, c, AfterClean(s, c, e).value.calls[c], atOnce);
    assert s.calls[c := s.calls[c]] == s.calls;
  }

  lemma PurgeAgrees(s: Server, a: Atomic, c: nat)
    requires Simulates(s, a, false) && AfterClean(s, c, EndCleanup(true)).Some?
    requires AnswerOk(s.calls[c], c, a.answers, false)
    ensures var id := s.calls[c].id; var w := AtomicNext(a, WorldEvent(id, EndCleanup(true)));
            && w.Some? && AtomicNext(w.value, Forget(c, id)).Some?
            && Simulates(AfterClean(s, c, EndCleanup(true)).value, AtomicNext(w.value, Forget(c, id)).value, false)
  {
    var id := s.calls[c].id;
    var b := AtomicNext(AtomicNext(a, WorldEvent(id, EndCleanup(true))).value, Forget(c, id)).value;
    AnswersMove(s.calls, a.answers, b.answers, c, AfterClean(s, c, EndCleanup(true)).value.calls[c], false);
  }

  ghost predicate StepAllowed(s: Server, e: ServerEvent, atOnce: bool) {
    atOnce ==> Smooth(e) && ZombiesRemoved(s)
  }

  /** A smooth cleanup never ends in failure. */
  lemma SmoothCleanSucceeds(s: Server, c: nat, e: Event)
    requires ZombiesRemoved(s) && AfterClean(s, c, e).Some? && e != EndCleanup(false)
    requires CallOk(s, s.calls[c])
    ensures !AfterClean(s, c, e).value.calls[c].stage.CleanupFailed?
  {
  }

  lemma OneOp(a: Atomic, op: AtomicOp)
    requires AtomicNext(a, op).Some?
    ensures AtomicRun(a, [op]) == AtomicNext(a, op)
  {
    AtomicStep(a, [op]);
    assert [op][1..] == [];
  }

  lemma CleanEventAgrees(s: Server, a: Atomic, c: nat, e: Event, atOnce: bool)
    requires CallsOk(s) && Simulates(s, a, atOnce) && AfterClean(s, c, e).Some?
    requires StepAllowed(s, Clean(c, e), atOnce)
    ensures AtomicRun(a, LinearizedAll(s, Clean(c, e), atOnce)).Some?
    ensures Simulates(AfterClean(s, c, e).value, AtomicRun(a, LinearizedAll(s, Clean(c, e), atOnce)).value, atOnce)
  {
    var id := s.calls[c].id;
    assert CallOk(s, s.calls[c]);
    if atOnce {
      SmoothCleanSucceeds(s, c, e);
      CleanAgrees(s, a, c, e, atOnce);
      OneOp(a, WorldEvent(id, e));
    } else if e == EndCleanup(true) {
      PurgeAgrees(s, a, c);
      OneOp(a, WorldEvent(id, e));
      OneOp(AtomicNext(a, WorldEvent(id, e)).value, Forget(c, id));
      AtomicRunConcat(a, [WorldEvent(id, e)], [Forget(c, id)]);
    } else {
      CleanAgrees(s, a, c, e, atOnce);
      OneOp(a, WorldEvent(id, e));
    }
  }

  lemma DetachEventAgrees(s: Server, a: Atomic, c: nat, atOnce: bool)
    requires CallsOk(s) && Domains(s) && Simulates(s, a, atOnce) && AfterDetach(s, c).Some?
    ensures var op := Linearized(s, Detach(c), atOnce);
            AtomicNext(a, op).Some? && Simulates(AfterDetach(s, c).value, AtomicNext(a, op).value, atOnce)
  {
    assert AnswerOk(s.calls[c], c, a.answers, atOnce);
    if atOnce || !AfterDetach(s, c).value.calls[c].stage.Detached? {
      DetachAgrees(s, a, c, atOnce);
    } else {
      forall d | 0 <= d < |s.calls| && (s.calls[d].stage.Detached? || s.calls[d].stage.CleanupFailed?)
        ensures s.calls[d].id != s.calls[c].id
      {
        assert CallOk(s, s.calls[d]);
      }
      HideAgrees(s, a, c);
    }
  }

  /** Jobs move on in the world as in the server. */
  lemma WorldAgrees(s: Server, a: Atomic, e: ServerEvent, atOnce: bool)
    requires Simulates(s, a, atOnce) && ServerNext(s, e).Some?
    requires e.Background? || e.ShutdownBegin? || e.ShutdownSignal? || e.ShutdownWait? || e.ShutdownProceed?
             || e.ShutdownClean? || e.ShutdownEnd?
    ensures var op := Linearized(s, e, atOnce);
            AtomicNext(a, op).Some? && Simulates(ServerNext(s, e).value, AtomicNext(a, op).value, atOnce)
  {
  }

  lemma TableAgrees(s: Server, a: Atomic, e: ServerEvent, atOnce: bool)
    requires CallsOk(s) && Domains(s) && Simulates(s, a, atOnce) && ServerNext(s, e).Some?
    requires e.Arrive? || e.Admit? || e.CreateFails? || e.GrantOwner? || e.Revoke? || e.CreateJob? || e.ListJob?
    ensures var op := Linearized(s, e, atOnce);
            AtomicNext(a, op).Some? && Simulates(ServerNext(s, e).value, AtomicNext(a, op).value, atOnce)
  {
    if e.Arrive? {
      ArrivalAgrees(s, a, e, atOnce);
    } else {
      assert AnswerOk(s.calls[e.call], e.call, a.answers, atOnce) && CallOk(s, s.calls[e.call]);
      if e.CreateJob? {
        CreateAgrees(s, a, e.call, e.id, atOnce);
      } else if e.ListJob? {
        ListAgrees(s, a, e.call, atOnce);
      } else if e.Admit? || e.CreateFails? {
        AdmissionAgrees(s, a, e, e.call, atOnce);
      } else if e.GrantOwner? {
        GrantAgrees(s, a, e.call, atOnce);
      } else {
        RevokeAgrees(s, a, e.call, atOnce);
      }
    }
  }

  /** One event of the server is its operations on the map. */
  lemma EventAgrees(s: Server, a: Atomic, e: ServerEvent, atOnce: bool)
    requires CallsOk(s) && Domains(s) && Simulates(s, a, atOnce) && ServerNext(s, e).Some?
    requires StepAllowed(s, e, atOnce)
    ensures AtomicRun(a, LinearizedAll(s, e, atOnce)).Some?
    ensures Simulates(ServerNext(s, e).value, AtomicRun(a, LinearizedAll(s, e, atOnce)).value, atOnce)
  {
    if e.Clean? {
      CleanEventAgrees(s, a, e.call, e.event, atOnce);
    } else {
      var op := Linearized(s, e, atOnce);
      match e {
        case Perform(c, ok) => assert AnswerOk(s.calls[c], c, a.answers, atOnce); PerformAgrees(s, a, c, ok, atOnce);
        case Detach(c) => DetachEventAgrees(s, a, c, atOnce);
        case Relist(c) => assert AnswerOk(s.calls[c], c, a.answers, atOnce); RelistAgrees(s, a, c);
        case Background(_, _) => WorldAgrees(s, a, e, atOnce);
        case ShutdownBegin => WorldAgrees(s, a, e, atOnce);
        case ShutdownSignal(_, _) => WorldAgrees(s, a, e, atOnce);
        case ShutdownWait => WorldAgrees(s, a, e, atOnce);
        case ShutdownProceed => WorldAgrees(s, a, e, atOnce);
        case ShutdownClean(_, _) => WorldAgrees(s, a, e, atOnce);
        case ShutdownEnd => WorldAgrees(s, a, e, atOnce);
        case _ => TableAgrees(s, a, e, atOnce);
      }
      OneOp(a, op);
      assert LinearizedAll(s, e, atOnce) == [op];
    }
  }

  ghost predicate AllSmooth(es: seq<ServerEvent>) {
    forall i :: 0 <= i < |es| ==> Smooth(es[i])
  }

  /** The operations of the map in a run of the server, in the order in which the events
   * they belong to happen. */
  function LinearizedRun(s: Server, es: seq<ServerEvent>, atOnce: bool): seq<AtomicOp>
    requires ServerRun(s, es).Some?
    decreases |es|
  {
    if es == [] then []
    else LinearizedAll(s, es[0], atOnce) + LinearizedRun(ServerNext(s, es[0]).value, es[1..], atOnce)
  }

  ghost predicate NothingHidden(ops: seq<AtomicOp>) {
    forall i :: 0 <= i < |ops| ==> !ops[i].Hide? && !ops[i].Restore? && !ops[i].Forget?
  }

  lemma AtOnceHidesNothing(s: Server, a: Atomic, e: ServerEvent)
    requires Simulates(s, a, true) && ServerNext(s, e).Some?
    ensures NothingHidden(LinearizedAll(s, e, true))
  {
    if e.Relist? {
      assert false;
    }
  }

  lemma {:induction false} RunAgrees(s: Server, a: Atomic, es: seq<ServerEvent>, atOnce: bool)
    requires ServerInv(s) && Simulates(s, a, atOnce) && ServerRun(s, es).Some?
    requires atOnce ==> AllSmooth(es) && ZombiesRemoved(s)
    ensures AtomicRun(a, LinearizedRun(s, es, atOnce)).Some?
    ensures Simulates(ServerRun(s, es).value, AtomicRun(a, LinearizedRun(s, es, atOnce)).value, atOnce)
    ensures atOnce ==> NothingHidden(LinearizedRun(s, es, atOnce))
    decreases |es|
  {
    if es == [] {
    } else {
      var t := ServerNext(s, es[0]).value;
      var head := LinearizedAll(s, es[0], atOnce);
      EventAgrees(s, a, es[0], atOnce);
      ServerInvNext(s, es[0]);
      if atOnce {
        ZombiesStayRemoved(s, es[0]);
        AtOnceHidesNothing(s, a, es[0]);
      }
      RunAgrees(t, AtomicRun(a, head).value, es[1..], atOnce);
      AtomicRunConcat(a, head, LinearizedRun(t, es[1..], atOnce));
    }
  }

  /** A new atomic map can do these operations; it then has the jobs, the map and the access
   * table of the server, and has given every call the answer it got from the server. */
  ghost predicate Explains(ops: seq<AtomicOp>, start: Atomic, s: Server, atOnce: bool) {
    && AtomicRun(start, ops).Some?
    && var a := AtomicRun(start, ops).value;
    && a.visible == s.mapped && a.world == s.jobs && a.acl == s.acl
    && AnswersOk(s.calls, a.answers, atOnce)
    && (if atOnce then a.hidden == map[] else HiddenOk(s.calls, a.hidden))
  }

  /** In every run without cleanup failures and shutdown, all calls get the results of an
   * atomic job map in which a successful Remove deletes at one point, between its arrival
   * and its reply, whatever happens in the gap where the map is unlocked. */
  lemma RemoveIsAtomic(full: set<string>, read: set<string>, es: seq<ServerEvent>)
    requires ServerRun(NewServer(full, read), es).Some? && AllSmooth(es)
    ensures var ops := LinearizedRun(NewServer(full, read), es, true);
            NothingHidden(ops) && Explains(ops, NewAtomic(full, read), ServerRun(NewServer(full, read), es).value, true)
  {
    RunAgrees(NewServer(full, read), NewAtomic(full, read), es, true);
  }

  /** In every run, failures and shutdowns included, all calls get the results of an atomic
   * job map with a set of temporarily hidden jobs: a Remove hides its job, and then either
   * forgets it or puts it back. */
  lemma FailingRemoveHides(full: set<string>, read: set<string>, es: seq<ServerEvent>)
    requires ServerRun(NewServer(full, read), es).Some?
    ensures var ops := LinearizedRun(NewServer(full, read), es, false);
            Explains(ops, NewAtomic(full, read), ServerRun(NewServer(full, read), es).value, false)
  {
    RunAgrees(NewServer(full, read), NewAtomic(full, read), es, false);
  }
}
