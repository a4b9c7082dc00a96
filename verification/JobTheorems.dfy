/** Safety of whole runs of a job: handler order, signals, `done`, readers, final
 * status and escalation. */
module JobTheorems {
  import opened JobModel
  import opened Sums
  import opened JobInvariants

  /** How many events of a run change the handler. */
  function Changes(j: JobState, es: seq<Event>): nat
    requires Run(j, es).Some?
    decreases |es|
  {
    if es == [] then 0
    else
      var k := Next(j, es[0]).value;
      (if k.handler == j.handler then 0 else 1) + Changes(k, es[1..])
  }

  /** The handler order never goes down, and every change of handler goes strictly up. */
  lemma {:induction false} HandlerOnlyRises(j: JobState, es: seq<Event>)
    requires Run(j, es).Some?
    ensures j.handler.Rank() + Changes(j, es) <= Run(j, es).value.handler.Rank()
    ensures j.handler.Completed() ==> Run(j, es).value.handler.Completed()
    ensures j.handler == Zombie ==> Run(j, es).value.handler == Zombie
    decreases |es|
  {
    if es == [] {
    } else {
      HandlerOnlyRises(Next(j, es[0]).value, es[1..]);
    }
  }

  /** A job changes its handler at most three times in its life. */
  lemma AtMostThreeChanges(es: seq<Event>)
    requires Run(NEW_JOB, es).Some?
    ensures Changes(NEW_JOB, es) <= 3
  {
    HandlerOnlyRises(NEW_JOB, es);
  }

  /** What no run takes back: signals sent, output written, a reaped process, a handled
   * exit, a closed `done`; and a reaped process writes nothing more. */
  lemma {:induction false} HistoryOnlyGrows(j: JobState, es: seq<Event>)
    requires Run(j, es).Some?
    ensures var m := Run(j, es).value;
            && j.attempts <= m.attempts
            && j.output <= m.output
            && j.doneCloses <= m.doneCloses
            && j.purges <= m.purges
            && |j.readers| <= |m.readers|
            && |j.timers| <= |m.timers|
            && (j.process.Reaped? ==> m.process == j.process && m.output == j.output)
            && (j.exit.Handled? ==> m.exit == j.exit)
    decreases |es|
  {
    if es == [] {
    } else {
      HistoryGrowsByOne(j, es[0]);
      HistoryOnlyGrows(Next(j, es[0]).value, es[1..]);
    }
  }

  lemma HistoryGrowsByOne(j: JobState, e: Event)
    requires Next(j, e).Some?
    ensures var m := Next(j, e).value;
            && j.attempts <= m.attempts
            && j.output <= m.output
            && j.doneCloses <= m.doneCloses
            && j.purges <= m.purges
            && |j.readers| <= |m.readers|
            && |j.timers| <= |m.timers|
            && (j.process.Reaped? ==> m.process == j.process && m.output == j.output)
            && (j.exit.Handled? ==> m.exit == j.exit)
  {
    CallsGrowByOne(j, e);
    WorldGrowsByOne(j, e);
  }

  lemma CallsGrowByOne(j: JobState, e: Event)
    requires Next(j, e).Some?
    ensures var m := Next(j, e).value;
            && j.attempts <= m.attempts
            && j.doneCloses <= m.doneCloses
            && j.purges <= m.purges
            && (j.exit.Handled? ==> m.exit == j.exit)
  {
  }

  lemma WorldGrowsByOne(j: JobState, e: Event)
    requires Next(j, e).Some?
    ensures var m := Next(j, e).value;
            && j.output <= m.output
            && |j.readers| <= |m.readers|
            && |j.timers| <= |m.timers|
            && (j.process.Reaped? ==> m.process == j.process && m.output == j.output)
  {
  }

  /** However many timers and callers race: each signal is delivered at most once,
   * nothing is attempted after a delivered SIGKILL, and only SIGKILL is attempted
   * after a delivered SIGTERM. */
  lemma SignalDiscipline(es: seq<Event>, i: nat, k: nat)
    requires Run(NEW_JOB, es).Some?
    requires i < |Run(NEW_JOB, es).value.attempts| && k < |Run(NEW_JOB, es).value.attempts|
    requires Run(NEW_JOB, es).value.attempts[i].delivered
    ensures var a := Run(NEW_JOB, es).value.attempts;
            && (a[i] == a[k] ==> i == k)
            && (a[i].signal == Kill ==> k <= i)
            && (i < k ==> a[i].signal == Term && a[k].signal == Kill)
  {
    InvNew();
    InvRun(NEW_JOB, es);
  }

  /** Once a job is Stopped, Ended or Zombie no signal is even attempted again. */
  lemma {:induction false} NoSignalOnceCompleted(j: JobState, es: seq<Event>)
    requires j.handler.Completed() && Run(j, es).Some?
    ensures Run(j, es).value.attempts == j.attempts
    decreases |es|
  {
    if es == [] {
    } else {
      NoSignalOnceCompleted(Next(j, es[0]).value, es[1..]);
    }
  }

  /** `done` is closed at most once; when it is closed the process is gone, the job is
   * completed, and the exit tells for good whether a signal was delivered; the exit is
   * handled with `done` still open exactly when the job had already been cleaned up. */
  lemma DoneClosedOnce(es: seq<Event>)
    requires Run(NEW_JOB, es).Some?
    ensures var m := Run(NEW_JOB, es).value;
            && m.doneCloses <= 1
            && (m.Done() ==> m.process.Reaped? && m.exit.Handled? && m.handler.Completed())
            && (m.Done() ==> (m.exit.at == Active <==> !m.Delivered(Term) && !m.Delivered(Kill)))
            && (m.exit.Handled? && !m.Done() <==> m.exit == Handled(Zombie))
  {
    InvNew();
    InvRun(NEW_JOB, es);
  }

  /** Killed, and removed before its exit is noticed. */
  function EarlyCleanup(): seq<Event> {
    [ForceStop(true), BeginCleanup, ReadersGone, EndCleanup(true), Reap(-1), HandleExit]
  }

  /** The last case is real: a job that is killed, and cleaned up before its exit is noticed,
   * never closes `done`; whoever waits for it then waits for ever. */
  lemma EarlyCleanupLeavesDoneOpen(fs: seq<Event>)
    ensures Run(NEW_JOB, EarlyCleanup()).Some?
    ensures var m := Run(NEW_JOB, EarlyCleanup()).value;
            Run(m, fs).Some? ==> m.exit.Handled? && !Run(m, fs).value.Done()
  {
    var es := EarlyCleanup();
    var a := Next(NEW_JOB, es[0]).value;
    var b := Next(a, es[1]).value;
    var c := Next(b, es[2]).value;
    var d := Next(c, es[3]).value;
    var e := Next(d, es[4]).value;
    RunStep(NEW_JOB, es);
    RunStep(a, es[1..]);
    RunStep(b, es[2..]);
    RunStep(c, es[3..]);
    RunStep(d, es[4..]);
    RunStep(e, es[5..]);
    var m := Run(NEW_JOB, es).value;
    if Run(m, fs).Some? {
      InvNew();
      InvRun(NEW_JOB, es);
      InvRun(m, fs);
      HistoryOnlyGrows(m, fs);
    }
  }

  /** The final status says whether the job was stopped or ended on its own. */
  lemma FinalStatusRecordsHistory(es: seq<Event>)
    requires Run(NEW_JOB, es).Some?
    requires var m := Run(NEW_JOB, es).value; m.exit.Handled? && m.handler != Zombie
    ensures var m := Run(NEW_JOB, es).value;
            && (m.handler == Ended <==> !m.Delivered(Term) && !m.Delivered(Kill))
            && (m.handler == Stopped <==> m.Delivered(Term) || m.Delivered(Kill))
  {
    InvNew();
    InvRun(NEW_JOB, es);
  }

  lemma {:induction false} CountedInGroup(rs: seq<Reader>)
    ensures Sum(rs, Counted) <= Sum(rs, InGroup)
  {
    if rs == [] {
    } else {
      CountedInGroup(rs[1..]);
    }
  }

  /** The wait group counts the readers created and not yet through `Close`; the atomic
   * counter never exceeds it; RemoveAll is reached only when both are zero and every
   * reader has closed its file. */
  lemma ReadersAccounted(es: seq<Event>)
    requires Run(NEW_JOB, es).Some?
    ensures var m := Run(NEW_JOB, es).value;
            && m.group == Sum(m.readers, InGroup)
            && 0 <= m.logReaders <= m.group
            && (forall ok :: Next(m, EndCleanup(ok)).Some? ==> m.group == 0 && AllClosed(m.readers))
  {
    InvNew();
    InvRun(NEW_JOB, es);
    var m := Run(NEW_JOB, es).value;
    CountedInGroup(m.readers);
    SumZero(m.readers, InGroup);
  }

  /** A Zombie has no open reader, and never gets one. */
  lemma ZombieHasNoReader(es: seq<Event>, fs: seq<Event>)
    requires Run(NEW_JOB, es).Some? && Run(NEW_JOB, es).value.handler == Zombie
    requires Run(Run(NEW_JOB, es).value, fs).Some?
    ensures var m := Run(Run(NEW_JOB, es).value, fs).value;
            && AllClosed(m.readers)
            && m.readers == Run(NEW_JOB, es).value.readers
            && m.purges == Run(NEW_JOB, es).value.purges
  {
    InvNew();
    InvRun(NEW_JOB, es);
    ZombieKeepsReaders(Run(NEW_JOB, es).value, fs);
  }

  lemma {:induction false} ZombieKeepsReaders(j: JobState, es: seq<Event>)
    requires Inv(j) && j.handler == Zombie && Run(j, es).Some?
    ensures Run(j, es).value.readers == j.readers && AllClosed(j.readers)
    ensures Run(j, es).value.purges == j.purges
    decreases |es|
  {
    if es == [] {
    } else {
      InvNext(j, es[0]);
      ZombieKeepsReadersOnce(j, es[0]);
      ZombieKeepsReaders(Next(j, es[0]).value, es[1..]);
    }
  }

  lemma ZombieKeepsReadersOnce(j: JobState, e: Event)
    requires ReaderInv(j) && StreamInv(j) && j.handler == Zombie && Next(j, e).Some?
    ensures var k := Next(j, e).value;
            k.readers == j.readers && k.purges == j.purges && k.handler == Zombie
  {
    forall i | 0 <= i < |j.readers| ensures j.readers[i].pc.Closed? && j.readers[i].outcome.Some? {
      assert StreamOk(j.readers[i], j.output, j.Done());
    }
  }

  // ----- escalation

  ghost predicate Live(j: JobState, t: nat) {
    t < |j.timers| && !j.timers[t].Over?
  }

  /** Event `e` is the end of timer `t`: the timer's own `Stop` runs; or the timer is the one
   * a Stopping job remembers, has not expired, and is cancelled by a forced stop, by the
   * `Stop` of another timer, or by the exit. */
  ghost predicate Disarms(j: JobState, e: Event, t: nat) {
    || (e.TimerStop? && e.timer == t)
    || ((e.ForceStop? || e.TimerStop? || e.HandleExit?)
        && j.handler == Stopping && j.stopTimer == Some(t) && t < |j.timers| && j.timers[t].Pending?)
  }

  ghost predicate Disarmed(j: JobState, es: seq<Event>, t: nat)
    requires Run(j, es).Some?
    decreases |es|
  {
    es != [] && (Disarms(j, es[0], t) || Disarmed(Next(j, es[0]).value, es[1..], t))
  }

  /** The exact rule for every timer in every run: a timer is live until an event that is its
   * end. In particular an expired timer, and one that a failed graceful stop has left
   * behind, survive every forced stop. */
  lemma {:induction false} TimerLivesUntilDisarmed(j: JobState, es: seq<Event>, t: nat)
    requires t < |j.timers| && Run(j, es).Some?
    ensures t < |Run(j, es).value.timers|
    ensures Live(Run(j, es).value, t) <==> Live(j, t) && !Disarmed(j, es, t)
    decreases |es|
  {
    if es == [] {
    } else {
      TimerLivesOnce(j, es[0], t);
      TimerLivesUntilDisarmed(Next(j, es[0]).value, es[1..], t);
    }
  }

  lemma TimerLivesOnce(j: JobState, e: Event, t: nat)
    requires t < |j.timers| && Next(j, e).Some?
    ensures t < |Next(j, e).value.timers|
    ensures Live(Next(j, e).value, t) <==> Live(j, t) && !Disarms(j, e, t)
  {
    match e
    case ForceStop(ok) => ForcedTimer(j, ok, t);
    case TimerStop(u, ok) => ForcedTimer(j.(timers := j.timers[u := Over]), ok, t);
    case _ =>
  }

  /** A forced stop, successful or not, cancels the remembered timer of a Stopping job if it
   * has not expired, and no other. */
  lemma ForcedTimer(j: JobState, ok: bool, t: nat)
    requires t < |j.timers|
    ensures |Forced(j, ok).timers| == |j.timers|
    ensures Live(Forced(j, ok), t) <==>
            Live(j, t) && !(j.handler == Stopping && j.stopTimer == Some(t) && j.timers[t].Pending?)
  {
  }

  /** A SIGKILL that could not be sent has used up timer `t`: the timer's own attempt failed,
   * or another attempt failed while the timer had not expired. */
  ghost predicate KillFails(j: JobState, e: Event, t: nat) {
    || e == TimerStop(t, false)
    || ((e == ForceStop(false) || (e.TimerStop? && !e.ok)) && t < |j.timers| && j.timers[t].Pending?)
  }

  ghost predicate SomeKillFails(j: JobState, es: seq<Event>, t: nat)
    requires Run(j, es).Some?
    decreases |es|
  {
    es != [] && (KillFails(j, es[0], t) || SomeKillFails(Next(j, es[0]).value, es[1..], t))
  }

  /** After `InitStop` has sent SIGTERM from state `j`, as long as the job is Stopping, the
   * timer that this call armed is live exactly unless a failed SIGKILL has used it up; a
   * live timer can expire, and its `Stop` will attempt SIGKILL. */
  lemma EscalationStaysArmed(j: JobState, es: seq<Event>)
    requires j.handler == Active && j.lock.Free?
    requires Run(Graceful(j, true), es).Some? && Run(Graceful(j, true), es).value.handler == Stopping
    ensures var m := Run(Graceful(j, true), es).value; var t := |j.timers|;
            && m.stopTimer == Some(t) && t < |m.timers|
            && (Live(m, t) <==> !SomeKillFails(Graceful(j, true), es, t))
            && (m.timers[t].Pending? ==> Next(m, Expire(t)).Some?)
            && (m.timers[t].Queued? && m.lock.Free? ==> forall ok ::
                  Next(m, TimerStop(t, ok)).Some? &&
                  Next(m, TimerStop(t, ok)).value.attempts == m.attempts + [Attempt(Kill, ok)])
  {
    ArmedUnlessKillFails(Graceful(j, true), es, |j.timers|);
  }

  lemma {:induction false} ArmedUnlessKillFails(j: JobState, es: seq<Event>, t: nat)
    requires j.handler == Stopping && j.stopTimer == Some(t) && t < |j.timers|
    requires Run(j, es).Some? && Run(j, es).value.handler == Stopping
    ensures Run(j, es).value.stopTimer == Some(t) && t < |Run(j, es).value.timers|
    ensures Live(Run(j, es).value, t) <==> Live(j, t) && !SomeKillFails(j, es, t)
    decreases |es|
  {
    if es == [] {
    } else {
      HandlerOnlyRises(Next(j, es[0]).value, es[1..]);
      ArmedOnce(j, es[0], t);
      ArmedUnlessKillFails(Next(j, es[0]).value, es[1..], t);
    }
  }

  lemma ArmedOnce(j: JobState, e: Event, t: nat)
    requires j.handler == Stopping && j.stopTimer == Some(t) && t < |j.timers|
    requires Next(j, e).Some? && Next(j, e).value.handler.Rank() <= 1
    ensures var k := Next(j, e).value;
            && k.handler == Stopping && k.stopTimer == Some(t) && t < |k.timers|
            && (Live(k, t) <==> Live(j, t) && !KillFails(j, e, t))
  {
    TimerLivesOnce(j, e, t);
  }

  ghost predicate AllAmbient(es: seq<Event>) {
    forall i :: 0 <= i < |es| ==> Ambient(es[i])
  }

  /** Left to itself, a Stopping job can still be sent SIGKILL exactly when some timer is
   * live, whichever graceful stop has armed it. */
  lemma EscalationAheadIffTimerLive(j: JobState)
    requires Inv(j) && j.handler == Stopping && !j.lock.Cleaning?
    ensures (exists t :: Live(j, t)) <==>
            exists es :: AllAmbient(es) && Run(j, es).Some? && Run(j, es).value.attempts != j.attempts
  {
    if t :| Live(j, t) {
      var es := TimerCanKill(j, t);
    } else {
      forall es | AllAmbient(es) && Run(j, es).Some? ensures Run(j, es).value.attempts == j.attempts {
        NoTimerNoSignal(j, es);
      }
    }
  }

  /** The way of a live timer to its SIGKILL. */
  lemma {:induction false} TimerCanKill(j: JobState, t: nat) returns (es: seq<Event>)
    requires Inv(j) && j.handler == Stopping && !j.lock.Cleaning? && Live(j, t)
    ensures AllAmbient(es) && Run(j, es).Some?
    ensures Run(j, es).value.attempts == j.attempts + [Attempt(Kill, true)]
    decreases if j.lock.Opening? then 1 else 0, if j.timers[t].Pending? then 1 else 0
  {
    var e := if j.lock.Opening? then CountReader else if j.timers[t].Pending? then Expire(t) else TimerStop(t, true);
    InvNext(j, e);
    var k := Next(j, e).value;
    if e.TimerStop? {
      es := [e];
      assert Run(k, []) == Some(k);
    } else {
      var rest := TimerCanKill(k, t);
      es := [e] + rest;
      assert es[1..] == rest;
    }
  }

  lemma {:induction false} NoTimerNoSignal(j: JobState, es: seq<Event>)
    requires (forall t: nat :: !Live(j, t)) && AllAmbient(es) && Run(j, es).Some?
    ensures Run(j, es).value.attempts == j.attempts
    decreases |es|
  {
    if es == [] {
    } else {
      var k := Next(j, es[0]).value;
      assert Ambient(es[0]) && |k.timers| == |j.timers|;
      assert es[0].TimerStop? ==> Live(j, es[0].timer);
      forall t: nat | t < |j.timers| ensures !Live(k, t) {
        TimerLivesOnce(j, es[0], t);
      }
      NoTimerNoSignal(k, es[1..]);
    }
  }

  /** Whenever that timer's `Stop` runs, it attempts SIGKILL unless the job is past
   * Stopping. */
  lemma EscalationKillsOrIsLate(j: JobState, es: seq<Event>, ok: bool)
    requires j.handler == Active && Run(Graceful(j, true), es).Some?
    requires Next(Run(Graceful(j, true), es).value, TimerStop(|j.timers|, ok)).Some?
    ensures var m := Run(Graceful(j, true), es).value;
            var n := Next(m, TimerStop(|j.timers|, ok)).value;
            if m.handler == Stopping then n.attempts == m.attempts + [Attempt(Kill, ok)]
            else m.handler.Completed() && n.attempts == m.attempts
  {
    HandlerOnlyRises(Graceful(j, true), es);
  }

  /** A forced stop whose SIGKILL fails has already disarmed the timer: the job stays
   * Stopping and nothing will escalate. */
  lemma FailedForceStopDisarms()
    ensures var es := [InitStop(true), ForceStop(false)];
            && Run(NEW_JOB, es).Some?
            && Run(NEW_JOB, es).value.handler == Stopping
            && forall t :: !Live(Run(NEW_JOB, es).value, t)
  {
    var a := Next(NEW_JOB, InitStop(true)).value;
    var es := [InitStop(true), ForceStop(false)];
    RunStep(NEW_JOB, es);
    RunStep(a, es[1..]);
  }

  /** It disarms neither a timer that has expired nor one that a failed graceful stop has
   * left behind; and the timer's own attempt may fail without any forced stop. */
  lemma FailedForceStopMayLeaveTimers()
    ensures var m := Run(NEW_JOB, [InitStop(true), Expire(0), ForceStop(false)]);
            m.Some? && m.value.handler == Stopping && Live(m.value, 0)
    ensures var m := Run(NEW_JOB, [InitStop(false), InitStop(true), ForceStop(false)]);
            m.Some? && m.value.handler == Stopping && Live(m.value, 0) && !Live(m.value, 1)
    ensures var m := Run(NEW_JOB, [InitStop(true), Expire(0), TimerStop(0, false)]);
            m.Some? && m.value.handler == Stopping && forall t :: !Live(m.value, t)
  {
    RunThree(NEW_JOB, InitStop(true), Expire(0), ForceStop(false));
    RunThree(NEW_JOB, InitStop(false), InitStop(true), ForceStop(false));
    RunThree(NEW_JOB, InitStop(true), Expire(0), TimerStop(0, false));
  }

  lemma RunThree(j: JobState, a: Event, b: Event, c: Event)
    requires Next(j, a).Some? && Next(Next(j, a).value, b).Some?
    ensures Run(j, [a, b, c]) == Next(Next(Next(j, a).value, b).value, c)
  {
    var k := Next(j, a).value;
    var m := Next(k, b).value;
    RunStep(j, [a, b, c]);
    RunStep(k, [a, b, c][1..]);
    assert [a, b, c][1..][1..] == [c];
    assert [c][1..] == [];
  }

  // ----- failed graceful stops

  /** Signals fail exactly on reaped processes. */
  predicate ExactSignal(j: JobState, e: Event) {
    match e
    case InitStop(ok) => ok == j.process.Running?
    case ForceStop(ok) => ok == j.process.Running?
    case TimerStop(_, ok) => ok == j.process.Running?
    case _ => true
  }

  ghost predicate ExactRun(j: JobState, es: seq<Event>)
    requires Run(j, es).Some?
    decreases |es|
  {
    es != [] ==> ExactSignal(j, es[0]) && ExactRun(Next(j, es[0]).value, es[1..])
  }

  /** An `InitStop` that could not signal leaves a timer behind, but never turns the final
   * status of the job from Ended into Stopped. */
  lemma FailedStopKeepsEnded(j: JobState, es: seq<Event>)
    requires Inv(j) && j.lock.Free? && j.handler == Active && ExactSignal(j, InitStop(false))
    requires Run(Graceful(j, false), es).Some? && ExactRun(Graceful(j, false), es)
    ensures var m := Run(Graceful(j, false), es).value;
            && !m.handler.Stopping? && !m.handler.Stopped?
            && (m.exit.Handled? && m.handler != Zombie ==> m.handler == Ended)
  {
    InvNext(j, InitStop(false));
    InvRun(Graceful(j, false), es);
    ReapedNeverStops(Graceful(j, false), es);
  }

  lemma {:induction false} ReapedNeverStops(j: JobState, es: seq<Event>)
    requires j.process.Reaped? && !j.handler.Stopping? && !j.handler.Stopped?
    requires Run(j, es).Some? && ExactRun(j, es)
    ensures !Run(j, es).value.handler.Stopping? && !Run(j, es).value.handler.Stopped?
    decreases |es|
  {
    if es == [] {
    } else {
      HistoryGrowsByOne(j, es[0]);
      ReapedNeverStops(Next(j, es[0]).value, es[1..]);
    }
  }

  /** The exact condition: where signals fail only on reaped processes from then on, a
   * graceful stop that reported an error can still make the job Stopped, by its timer,
   * exactly when the process was running at the failed signal. */
  lemma FailedStopMattersIffRunning(j: JobState)
    requires Inv(j) && j.lock.Free? && j.handler == Active
    ensures j.process.Running? <==>
            exists es :: AllAmbient(es) && Run(Graceful(j, false), es).Some? && ExactRun(Graceful(j, false), es)
                         && Run(Graceful(j, false), es).value.exit.Handled?
                         && Run(Graceful(j, false), es).value.handler == Stopped
  {
    if j.process.Running? {
      FailedStopCanKill(j);
    } else {
      forall es | Run(Graceful(j, false), es).Some? && ExactRun(Graceful(j, false), es)
        ensures Run(Graceful(j, false), es).value.handler != Stopped
      {
        FailedStopKeepsEnded(j, es);
      }
    }
  }

  lemma FailedStopCanKill(j: JobState)
    requires Inv(j) && j.lock.Free? && j.handler == Active && j.process.Running?
    ensures var t := |j.timers|; var es := [Expire(t), TimerStop(t, true), Reap(-1), HandleExit];
            && AllAmbient(es) && Run(Graceful(j, false), es).Some? && ExactRun(Graceful(j, false), es)
            && Run(Graceful(j, false), es).value.exit.Handled?
            && Run(Graceful(j, false), es).value.handler == Stopped
  {
    var t := |j.timers|;
    var es := [Expire(t), TimerStop(t, true), Reap(-1), HandleExit];
    var a := Graceful(j, false);
    var b := Next(a, Expire(t)).value;
    var c := Next(b, TimerStop(t, true)).value;
    var d := Next(c, Reap(-1)).value;
    RunStep(a, es);
    RunStep(b, es[1..]);
    RunStep(c, es[2..]);
    RunStep(d, es[3..]);
    assert ExactRun(d, es[3..]);
    assert ExactRun(c, es[2..]);
    assert ExactRun(b, es[1..]);
  }

  /** When signals may fail for other reasons, the timer of a failed `InitStop` can still
   * kill the job: the call reported an error and the job ends up Stopped. */
  lemma FailedStopMayStillKill()
    ensures var es := [InitStop(false), Expire(0), TimerStop(0, true), Reap(137), HandleExit];
            Run(NEW_JOB, es).Some? && Run(NEW_JOB, es).value.handler == Stopped
  {
    var a := Next(NEW_JOB, InitStop(false)).value;
    var b := Next(a, Expire(0)).value;
    var c := Next(b, TimerStop(0, true)).value;
    var d := Next(c, Reap(137)).value;
    var es := [InitStop(false), Expire(0), TimerStop(0, true), Reap(137), HandleExit];
    RunStep(NEW_JOB, es);
    RunStep(a, es[1..]);
    RunStep(b, es[2..]);
    RunStep(c, es[3..]);
    RunStep(d, es[4..]);
  }

  // ----- exits

  /** The next exit event of a job that is not done. */
  function ExitMove(j: JobState): Event {
    if j.lock.Opening? then CountReader
    else if j.process.Running? then Reap(0)
    else HandleExit
  }

  /** A job that no cleanup holds and that is no Zombie can always get to close `done`. */
  lemma {:induction false} JobGetsDone(j: JobState) returns (es: seq<Event>)
    requires Inv(j) && !j.lock.Cleaning? && (j.handler == Zombie ==> j.Done())
    ensures Run(j, es).Some? && Run(j, es).value.Done()
    ensures forall i :: 0 <= i < |es| ==> es[i].Reap? || es[i].HandleExit? || es[i].CountReader?
    decreases (if j.lock.Opening? then 1 else 0) + (if j.process.Running? then 1 else 0)
              + (if j.exit.Unhandled? then 1 else 0)
  {
    if j.Done() {
      es := [];
    } else {
      var e := ExitMove(j);
      InvNext(j, e);
      var k := Next(j, e).value;
      var rest := JobGetsDone(k);
      es := [e] + rest;
      assert es[1..] == rest;
    }
  }

  /** Unfolds one event of a run whose events are written out. */
  lemma RunStep(j: JobState, es: seq<Event>)
    requires es != [] && Next(j, es[0]).Some?
    ensures Run(j, es) == Run(Next(j, es[0]).value, es[1..])
  {
  }
}
