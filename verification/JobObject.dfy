/** `pkg/job` as an object whose methods update its fields. The fields of the readers
 * that a job has handed out, and of its timers, are kept in sequences. */
module JobObject {
  import opened JobModel
  import opened Sums
  import opened JobInvariants
  import opened JobTheorems

  /** How a call of `Cleanup` ends: RemoveAll worked; it failed or the job is a Zombie; or
   * the schedule ended while the call was still waiting for readers. */
  datatype CleanupResult = Removed | CleanupError | StillWaiting

  /** The job after those of the given background events that are possible when their turn
   * comes; steps of reader `mine` are left to its owner. */
  function Interleaved(j: JobState, es: seq<Event>, mine: Option<nat>): JobState
    decreases |es|
  {
    if es == [] then j
    else if !Foreign(es[0], mine) || Next(j, es[0]).None? then Interleaved(j, es[1..], mine)
    else Interleaved(Next(j, es[0]).value, es[1..], mine)
  }

  predicate Foreign(e: Event, mine: Option<nat>) {
    Ambient(e) && !(e.Step? && mine == Some(e.reader))
  }

  /** Interference is a run of background events. */
  lemma {:induction false} InterferenceIsRun(j: JobState, es: seq<Event>, mine: Option<nat>) returns (fs: seq<Event>)
    ensures Run(j, fs) == Some(Interleaved(j, es, mine))
    ensures forall i :: 0 <= i < |fs| ==> Foreign(fs[i], mine)
    decreases |es|
  {
    if es == [] {
      fs := [];
    } else if !Foreign(es[0], mine) || Next(j, es[0]).None? {
      fs := InterferenceIsRun(j, es[1..], mine);
    } else {
      var rest := InterferenceIsRun(Next(j, es[0]).value, es[1..], mine);
      fs := [es[0]] + rest;
      assert fs[1..] == rest;
    }
  }

  /** The job after an event, or the same job when the event is not possible. */
  function After(j: JobState, e: Event): JobState {
    match Next(j, e) case None => j case Some(k) => k
  }

  lemma AfterKeeps(j: JobState, e: Event)
    requires Inv(j)
    ensures Inv(After(j, e))
  {
    if Next(j, e).Some? {
      InvNext(j, e);
    }
  }

  lemma InterleavedOne(j: JobState, e: Event, mine: Option<nat>)
    ensures Interleaved(j, [e], mine) == if Foreign(e, mine) then After(j, e) else j
  {
    assert [e][1..] == [];
  }

  /** Interference happens one event after the other. */
  lemma InterleavedNext(j: JobState, es: seq<Event>, mine: Option<nat>)
    requires es != []
    ensures Interleaved(j, es, mine) == Interleaved(Interleaved(j, [es[0]], mine), es[1..], mine)
  {
    InterleavedOne(j, es[0], mine);
  }

  /** The job when a cleanup that has taken the lock sees the wait group at zero, or else when
   * the given events are over. */
  function Waited(j: JobState, es: seq<Event>): JobState
    decreases |es|
  {
    if es == [] || j.group <= 0 then j else Waited(Interleaved(j, [es[0]], None), es[1..])
  }

  /** The job after a call of `Cleanup`, with the given events around its wait. */
  function CleanedUp(j: JobState, es: seq<Event>, ok: bool): JobState {
    if j.handler == Zombie then j
    else
      var w := Waited(j.(lock := Cleaning(false)), es);
      if w.group > 0 then w
      else w.(lock := Free, purges := w.purges + 1, handler := if ok then Zombie else w.handler)
  }

  /** Waiting under the lock keeps it, and `done` as it is. */
  lemma {:induction false} WaitingKeepsLock(j: JobState, es: seq<Event>)
    requires j.lock.Cleaning?
    ensures Waited(j, es).lock == j.lock && Waited(j, es).doneCloses == j.doneCloses
    decreases |es|
  {
    if es == [] || j.group <= 0 {
    } else {
      CleaningUndisturbed(j, es[0], None);
      WaitingKeepsLock(Interleaved(j, [es[0]], None), es[1..]);
    }
  }

  /** A cleanup gives up waiting only when everything has happened that is going to; what has
   * happened before it goes on is the beginning of that. */
  lemma {:induction false} WaitsToTheEnd(j: JobState, es: seq<Event>) returns (n: nat)
    ensures n <= |es| && Waited(j, es) == Interleaved(j, es[..n], None)
    ensures Waited(j, es).group > 0 ==> n == |es|
    decreases |es|
  {
    if es == [] || j.group <= 0 {
      n := 0;
    } else {
      var m := WaitsToTheEnd(Interleaved(j, [es[0]], None), es[1..]);
      n := m + 1;
      InterleavedNext(j, es[..n], None);
      assert es[..n][1..] == es[1..][..m];
    }
  }

  /** Some run of the job machine leads from one state to the other. */
  ghost predicate Leads(j: JobState, k: JobState) {
    exists es :: Run(j, es) == Some(k)
  }

  lemma LeadsNowhere(j: JobState)
    ensures Leads(j, j)
  {
    assert Run(j, []) == Some(j);
  }

  lemma LeadsByEvent(j: JobState, e: Event)
    ensures Leads(j, After(j, e))
  {
    if Next(j, e).Some? {
      RunStep(j, [e]);
      assert [e][1..] == [];
      assert Run(j, [e]) == Some(After(j, e));
    } else {
      LeadsNowhere(j);
    }
  }

  lemma LeadsOn(i: JobState, j: JobState, k: JobState)
    requires Leads(i, j) && Leads(j, k)
    ensures Leads(i, k)
  {
    var es :| Run(i, es) == Some(j);
    var fs :| Run(j, fs) == Some(k);
    RunConcat(i, es, fs);
  }

  /** Some run of background events alone leads from one state to the other. */
  ghost predicate Drifts(j: JobState, k: JobState) {
    exists es :: AllAmbient(es) && Run(j, es) == Some(k)
  }

  lemma DriftsNowhere(j: JobState)
    ensures Drifts(j, j)
  {
    assert Run(j, []) == Some(j);
  }

  lemma DriftsByEvent(j: JobState, e: Event)
    requires Ambient(e)
    ensures Drifts(j, After(j, e))
  {
    if Next(j, e).Some? {
      RunStep(j, [e]);
      assert [e][1..] == [];
      assert AllAmbient([e]) && Run(j, [e]) == Some(After(j, e));
    } else {
      DriftsNowhere(j);
    }
  }

  lemma DriftsOn(i: JobState, j: JobState, k: JobState)
    requires Drifts(i, j) && Drifts(j, k)
    ensures Drifts(i, k)
  {
    var es :| AllAmbient(es) && Run(i, es) == Some(j);
    var fs :| AllAmbient(fs) && Run(j, fs) == Some(k);
    RunConcat(i, es, fs);
    assert AllAmbient(es + fs);
  }

  /** Background events leave a free lock free, and neither make a Zombie nor reopen `done`. */
  lemma DriftKeeps(j: JobState, k: JobState)
    requires Drifts(j, k)
    ensures Leads(j, k)
    ensures j.lock.Free? ==> k.lock.Free?
    ensures k.handler == Zombie <==> j.handler == Zombie
    ensures j.Done() ==> k.Done()
    ensures j.output <= k.output
  {
    var es :| AllAmbient(es) && Run(j, es) == Some(k);
    AmbientRunKeeps(j, es);
    HistoryOnlyGrows(j, es);
  }

  lemma {:induction false} AmbientRunKeeps(j: JobState, es: seq<Event>)
    requires AllAmbient(es) && Run(j, es).Some?
    ensures var k := Run(j, es).value;
            && (j.lock.Free? ==> k.lock.Free?)
            && (k.handler == Zombie <==> j.handler == Zombie)
            && (j.Done() ==> k.Done())
    decreases |es|
  {
    if es == [] {
    } else {
      assert Ambient(es[0]);
      AmbientKeeps(j, es[0]);
      AmbientRunKeeps(Next(j, es[0]).value, es[1..]);
    }
  }

  lemma AmbientKeeps(j: JobState, e: Event)
    requires Ambient(e) && Next(j, e).Some?
    ensures var k := Next(j, e).value;
            && (j.lock.Free? ==> k.lock.Free?)
            && (k.handler == Zombie <==> j.handler == Zombie)
            && (j.Done() ==> k.Done())
  {
  }

  /** `lock.Done()` never takes the wait group below zero. */
  lemma GroupIsPositive(j: JobState, i: nat)
    requires Inv(j) && i < |j.readers| && j.readers[i].pc.FileClosed?
    ensures j.group > 0
  {
    SumZero(j.readers, InGroup);
    assert InGroup(j.readers[i]) == 1;
  }

  /** What background events cannot touch while a cleanup holds the lock. */
  lemma CleaningUndisturbed(j: JobState, e: Event, mine: Option<nat>)
    requires j.lock.Cleaning?
    ensures var k := Interleaved(j, [e], mine);
            && k.lock == j.lock && k.handler == j.handler && k.doneCloses == j.doneCloses
            && k.exit == j.exit && k.purges == j.purges
            && (j.process.Reaped? ==> k.process == j.process)
  {
    InterleavedOne(j, e, mine);
  }

  /** With the wait group at zero, the rest of a cleanup is possible. */
  lemma RemovalIsRun(j: JobState, ok: bool)
    requires Inv(j) && j.lock == Cleaning(false) && j.group == 0
    ensures var k := j.(purges := j.purges + 1, lock := Free, handler := if ok then Zombie else j.handler);
            Inv(k) && AllClosed(k.readers) && Leads(j, k)
  {
    var m := j.(lock := Cleaning(true));
    InvNext(j, ReadersGone);
    RemovalEnds(m, ok);
    LeadsByEvent(j, ReadersGone);
    LeadsByEvent(m, EndCleanup(ok));
    LeadsOn(j, m, After(m, EndCleanup(ok)));
  }

  lemma RemovalEnds(j: JobState, ok: bool)
    requires Inv(j) && j.lock == Cleaning(true)
    ensures Inv(After(j, EndCleanup(ok))) && AllClosed(j.readers)
  {
    InvNext(j, EndCleanup(ok));
  }

  class Job {
    const id: string
    var handler: Handler
    var stateLock: Lock
    var done: bool
    var stopTimer: Option<nat>
    var timers: seq<Timer>
    var outLock: int
    var logReaders: int
    var readers: seq<Reader>
    var process: Process
    var output: seq<Byte>
    var exit: Exit
    ghost var attempts: seq<Attempt>
    ghost var purges: nat

    ghost function View(): JobState
      reads this
    {
      JobState(handler, stateLock, if done then 1 else 0, stopTimer, timers, outLock, logReaders, readers,
               process, exit, output, attempts, purges)
    }

    ghost predicate Valid()
      reads this
    {
      Inv(View())
    }

    constructor (id: string)
      ensures this.id == id && View() == NEW_JOB && Valid()
    {
      this.id := id;
      handler, stateLock, done, stopTimer, timers := Active, Free, false, None, [];
      outLock, logReaders, readers, process, output := 0, 0, [], Running, [];
      exit, attempts, purges := Unhandled, [], 0;
    }

    // ----- helpers that panic, or act on the operating system, in the program

    /** close(done): panics when `done` is closed already. */
    method CloseDone()
      requires !done
      modifies this`done
      ensures done
    {
      done := true;
    }

    method SendStopSignal(signal: Signal, ok: bool) returns (err: bool)
      modifies this`attempts
      ensures attempts == old(attempts) + [Attempt(signal, ok)] && err == !ok
    {
      attempts := attempts + [Attempt(signal, ok)];
      err := !ok;
    }

    method StopTheTimer()
      modifies this`timers
      ensures View() == CancelTimer(old(View()))
    {
      if stopTimer.Some? && stopTimer.value < |timers| && timers[stopTimer.value] == Pending {
        timers := timers[stopTimer.value := Over];
      }
    }

    // ----- the handlers' parts

    method HandlerGracefulStop(ok: bool) returns (err: bool)
      modifies this`timers, this`stopTimer, this`attempts
      ensures View() == Graceful(old(View()), ok).(handler := handler)
      ensures err <==> !(handler == Active && ok)
    {
      err := true;
      match handler
      case Active =>
        timers, stopTimer := timers + [Pending], Some(|timers|);
        err := SendStopSignal(Term, ok);
      case _ =>
    }

    method HandlerForceStop(ok: bool) returns (err: bool)
      modifies this`timers, this`attempts
      ensures View() == Forced(old(View()), ok).(handler := handler)
      ensures err <==> handler.Completed() || !ok
    {
      err := true;
      match handler
      case Active => err := SendStopSignal(Kill, ok);
      case Stopping =>
        StopTheTimer();
        err := SendStopSignal(Kill, ok);
      case _ =>
    }

    method HandlerExited() returns (h: Handler)
      requires Valid() && process.Reaped? && exit.Unhandled?
      modifies this`done, this`timers
      ensures AfterExit(old(View())) == View().(handler := h, exit := Handled(handler))
    {
      match handler
      case Active =>
        CloseDone();
        h := Ended;
      case Stopping =>
        StopTheTimer();
        CloseDone();
        h := Stopped;
      case Stopped =>
        CloseDone();
        h := Stopped;
      case Ended => h := Ended;
      case Zombie => h := Zombie;
    }

    // ----- the exported methods; `stateLock` is free when their section starts

    method Status() returns (status: Handler, code: int)
      requires Valid() && stateLock.Free?
      ensures status == handler
      ensures !handler.Completed() ==> code == 0
      ensures handler == Ended ==> process == Reaped(code)
      ensures handler.Completed() && process.Reaped? ==> process == Reaped(code)
      ensures handler.Completed() && process.Running? ==> code == -1
    {
      status := handler;
      if status == Active || status == Stopping {
        code := 0;
      } else {
        code := if process.Reaped? then process.code else -1;
      }
    }

    method Completed() returns (b: bool)
      requires Valid() && stateLock.Free?
      ensures b <==> handler.Rank() >= 2
      ensures done ==> b
    {
      b := handler != Active && handler != Stopping;
    }

    method InitStop(ok: bool) returns (err: bool)
      requires Valid() && stateLock.Free?
      modifies this
      ensures Valid() && Next(old(View()), Event.InitStop(ok)) == Some(View())
      ensures err <==> !(old(handler) == Active && handler == Stopping)
    {
      InvNext(View(), Event.InitStop(ok));
      err := HandlerGracefulStop(ok);
      if !err {
        handler := Stopping;
      }
    }

    method Stop(ok: bool) returns (err: bool)
      requires Valid() && stateLock.Free?
      modifies this
      ensures Valid() && Next(old(View()), ForceStop(ok)) == Some(View())
      ensures err <==> !(!old(handler).Completed() && handler == Stopped)
    {
      InvNext(View(), ForceStop(ok));
      err := HandlerForceStop(ok);
      if !err {
        handler := Stopped;
      }
    }

    /** A new reader is registered with the wait group, and then counted. */
    method Logs(follow: bool, ok: bool) returns (r: Option<nat>)
      requires Valid() && stateLock.Free?
      modifies this
      ensures Valid()
      ensures r.Some? <==> old(handler) != Zombie && ok
      ensures r.Some? ==> r.value == |old(readers)|
      ensures r.Some? ==> Run(old(View()), [OpenLogs(follow, ok), CountReader]) == Some(View())
      ensures r.None? ==> View() == old(View())
    {
      var i := |readers|;
      if handler == Zombie || !ok {
        return None;
      }
      ghost var before := View();
      InvNext(before, OpenLogs(follow, ok));
      ghost var opening := Next(before, OpenLogs(follow, ok)).value;
      InvNext(opening, CountReader);
      RunStep(before, [OpenLogs(follow, ok), CountReader]);
      RunStep(opening, [CountReader]);
      readers := readers + [NewReader(follow, |output|)];
      outLock := outLock + 1;
      readers := readers[i := readers[i].(pc := Polling)];
      logReaders := logReaders + 1;
      assert View().readers == Next(opening, CountReader).value.readers;
      r := Some(i);
    }

    /** The exit of the process, once it has been reaped. */
    method Exited()
      requires Valid() && stateLock.Free? && process.Reaped? && exit.Unhandled?
      modifies this
      ensures Valid() && Next(old(View()), HandleExit) == Some(View())
    {
      InvNext(View(), HandleExit);
      var h := HandlerExited();
      exit := Handled(handler);
      handler := h;
    }

    /** `outLock.Wait()` under the lock: the scheduled events happen around it until the wait
     * group is at zero or the schedule ends. */
    method WaitForReaders(schedule: seq<Event>)
      requires Valid() && stateLock == Cleaning(false)
      modifies this
      ensures Valid() && stateLock == Cleaning(false)
      ensures handler == old(handler) && done == old(done) && exit == old(exit) && purges == old(purges)
      ensures old(process).Reaped? ==> process == old(process)
      ensures outLock >= 0 && Leads(old(View()), View())
      ensures View() == Waited(old(View()), schedule)
    {
      var i := 0;
      LeadsNowhere(View());
      while i < |schedule| && outLock > 0
        invariant 0 <= i <= |schedule|
        invariant Leads(old(View()), View())
        invariant Waited(old(View()), schedule) == Waited(View(), schedule[i..])
        invariant Valid() && stateLock == Cleaning(false)
        invariant handler == old(handler) && done == old(done) && exit == old(exit) && purges == old(purges)
        invariant old(process).Reaped? ==> process == old(process)
      {
        ghost var before := View();
        CleaningUndisturbed(before, schedule[i], None);
        InterleavedOne(before, schedule[i], None);
        LeadsByEvent(before, schedule[i]);
        Environment(schedule[i], None);
        LeadsNowhere(before);
        LeadsOn(old(View()), before, View());
        assert schedule[i..][1..] == schedule[i + 1..];
        i := i + 1;
      }
    }

    /** The rest of `doCleanup`, and the change of handler. */
    method RemoveDirectory(ok: bool)
      requires Valid() && stateLock == Cleaning(false) && outLock == 0
      modifies this`stateLock, this`handler, this`purges
      ensures Valid() && AllClosed(readers) && stateLock.Free? && purges == old(purges) + 1
      ensures View() == old(View()).(lock := Free, purges := purges, handler := handler)
      ensures handler == if ok then Zombie else old(handler)
      ensures Leads(old(View()), View())
    {
      RemovalIsRun(View(), ok);
      purges := purges + 1;
      stateLock := Free;
      if ok {
        handler := Zombie;
      }
    }

    /** `Cleanup`: takes the lock, waits for the readers, and removes the directory. */
    method Cleanup(schedule: seq<Event>, ok: bool) returns (result: CleanupResult)
      requires Valid() && stateLock.Free?
      modifies this
      ensures Valid() && View() == CleanedUp(old(View()), schedule, ok)
      ensures result == if old(handler) == Zombie then CleanupError else if stateLock.Cleaning? then StillWaiting
                        else if ok then Removed else CleanupError
      ensures old(handler) == Zombie ==> result == CleanupError && View() == old(View())
      ensures result == Removed ==> old(handler) != Zombie && handler == Zombie && ok
      ensures result == CleanupError ==> handler == old(handler) && stateLock.Free?
      ensures result != StillWaiting && old(handler) != Zombie ==>
                (result == Removed <==> ok) && AllClosed(readers) && purges == old(purges) + 1
      ensures result == StillWaiting ==> handler == old(handler) && stateLock == Cleaning(false) && outLock > 0
      ensures result == StillWaiting ==> purges == old(purges)
      ensures done == old(done) && exit == old(exit)
      ensures old(process).Reaped? ==> process == old(process)
      ensures Leads(old(View()), View())
    {
      LeadsNowhere(View());
      if handler == Zombie {
        return CleanupError;
      }
      InvNext(View(), BeginCleanup);
      LeadsByEvent(View(), BeginCleanup);
      stateLock := Cleaning(false);
      ghost var begun := View();
      WaitForReaders(schedule);
      LeadsOn(old(View()), begun, View());
      if outLock > 0 {
        return StillWaiting;
      }
      ghost var waited := View();
      RemoveDirectory(ok);
      LeadsOn(old(View()), waited, View());
      result := if ok then Removed else CleanupError;
    }

    // ----- everything that happens to a job without a call

    /** `lock.Done()`: panics when the wait group would go below zero. */
    method LeaveWaitGroup()
      requires outLock > 0
      modifies this`outLock
      ensures outLock == old(outLock) - 1
    {
      outLock := outLock - 1;
    }

    /** One step of reader `i`, if it is possible. */
    method StepReader(i: nat, step: ReaderEvent)
      requires Valid()
      modifies this`readers, this`logReaders, this`outLock
      ensures Valid() && View() == After(old(View()), Step(i, step))
    {
      AfterKeeps(View(), Step(i, step));
      if i < |readers| {
        var r := ReaderNext(readers[i], output, done, step);
        if r.Some? {
          if step.LeaveGroup? {
            GroupIsPositive(View(), i);
          }
          TakeStep(i, step, r.value);
        }
      }
    }

    method TakeStep(i: nat, step: ReaderEvent, r: Reader)
      requires i < |readers| && ReaderNext(readers[i], output, done, step) == Some(r)
      requires step.LeaveGroup? ==> outLock > 0
      modifies this`readers, this`logReaders, this`outLock
      ensures Some(View()) == Next(old(View()), Step(i, step))
    {
      readers := readers[i := r];
      if step.DropCount? {
        logReaders := logReaders - 1;
      } else if step.LeaveGroup? {
        LeaveWaitGroup();
      }
    }

    method Expire(t: nat)
      requires Valid()
      modifies this`timers
      ensures Valid() && View() == After(old(View()), Event.Expire(t))
    {
      AfterKeeps(View(), Event.Expire(t));
      if t < |timers| && timers[t].Pending? {
        timers := timers[t := Queued];
      }
    }

    /** The function of an expired timer, once it gets the lock. */
    method TimerFunc(t: nat, ok: bool)
      requires Valid()
      modifies this
      ensures Valid() && View() == After(old(View()), TimerStop(t, ok))
    {
      ghost var before := View();
      AfterKeeps(before, TimerStop(t, ok));
      if stateLock.Free? && t < |timers| && timers[t].Queued? {
        timers := timers[t := Over];
        var err := HandlerForceStop(ok);
        if !err {
          handler := Stopped;
        }
      }
      assert View() == After(before, TimerStop(t, ok));
    }

    method FinishLogs()
      requires Valid()
      modifies this
      ensures Valid() && View() == After(old(View()), CountReader)
    {
      AfterKeeps(View(), CountReader);
      if stateLock.Opening? && stateLock.reader < |readers| && readers[stateLock.reader].pc.Creating? {
        readers := readers[stateLock.reader := readers[stateLock.reader].(pc := Polling)];
        logReaders := logReaders + 1;
        stateLock := Free;
      }
    }

    /** `cmd.Wait` returns. */
    method Reap(code: int)
      requires Valid()
      modifies this`process
      ensures Valid() && View() == After(old(View()), Event.Reap(code))
    {
      AfterKeeps(View(), Event.Reap(code));
      if process.Running? {
        process := Reaped(code);
      }
    }

    method WriteOutput(bytes: seq<Byte>)
      requires Valid()
      modifies this`output
      ensures Valid() && View() == After(old(View()), Write(bytes))
    {
      AfterKeeps(View(), Write(bytes));
      if process.Running? {
        output := output + bytes;
      }
    }

    /** The client of reader `i` goes away. */
    method CancelReader(i: nat)
      requires Valid()
      modifies this`readers
      ensures Valid() && View() == After(old(View()), Cancel(i))
    {
      AfterKeeps(View(), Cancel(i));
      if i < |readers| && readers[i].outcome.None? {
        readers := readers[i := readers[i].(cancelled := true)];
      }
    }

    /** One background event, if it is possible now and not a step of reader `mine`. While a
     * section holds the lock only the events that need no lock are possible. */
    method Environment(e: Event, mine: Option<nat>)
      requires Valid()
      modifies this
      ensures Valid() && View() == Interleaved(old(View()), [e], mine)
    {
      InterleavedOne(View(), e, mine);
      if Foreign(e, mine) {
        match e
        case Expire(t) => Expire(t);
        case TimerStop(t, ok) => TimerFunc(t, ok);
        case CountReader => FinishLogs();
        case Reap(code) => Reap(code);
        case HandleExit =>
          if stateLock.Free? && process.Reaped? && exit.Unhandled? {
            Exited();
          }
        case Write(bytes) => WriteOutput(bytes);
        case Cancel(i) => CancelReader(i);
        case Step(i, step) => StepReader(i, step);
      }
    }
  }
}
