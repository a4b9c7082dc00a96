/** What every interleaving of a job's steps keeps. */
module JobInvariants {
  import opened JobModel
  import opened Sums

  /** 1 for a reader the wait group counts: from `outLock.Add(1)` to `lock.Done()`. */
  function InGroup(r: Reader): nat {
    if r.pc.Closed? then 0 else 1
  }

  /** 1 for a reader the atomic counter counts. */
  function Counted(r: Reader): nat {
    if r.pc.InLoop() || r.pc.Returned? then 1 else 0
  }

  ghost predicate AllClosed(rs: seq<Reader>) {
    forall i :: 0 <= i < |rs| ==> rs[i].pc.Closed?
  }

  /** `done` is closed exactly once when the exit is handled before the job is
   * cleaned up, and never otherwise. */
  ghost predicate ExitInv(j: JobState) {
    && j.doneCloses == (if j.exit.Handled? && j.exit.at != Zombie then 1 else 0)
    && (j.exit.Handled? ==> j.process.Reaped? && j.exit.at != Ended && j.handler.Completed())
    && (j.handler == Ended ==> j.exit == Handled(Active))
    && (j.handler == Stopped && j.exit.Handled? ==> j.exit.at == Stopping || j.exit.at == Stopped)
    && (j.exit == Handled(Zombie) ==> j.handler == Zombie)
  }

  /** A delivered SIGKILL is the last attempt; a delivered SIGTERM is followed only by
   * SIGKILLs. */
  ghost predicate Disciplined(attempts: seq<Attempt>) {
    forall i, k :: 0 <= i < k < |attempts| && attempts[i].delivered ==>
      attempts[i].signal == Term && attempts[k].signal == Kill
  }

  ghost predicate NoneDelivered(j: JobState) {
    !j.Delivered(Term) && !j.Delivered(Kill)
  }

  ghost predicate SignalInv(j: JobState) {
    && Disciplined(j.attempts)
    && (j.handler == Active || j.handler == Ended ==> NoneDelivered(j))
    && (j.handler == Stopping ==> j.Delivered(Term) && !j.Delivered(Kill))
    && (j.handler == Stopped ==> !NoneDelivered(j))
    && (j.handler == Stopped && j.exit.Unhandled? ==> j.Delivered(Kill))
    && (j.exit.Handled? && j.exit.at != Zombie ==> (j.exit.at == Active <==> NoneDelivered(j)))
  }

  ghost predicate TimerInv(j: JobState) {
    && (j.stopTimer.Some? ==> j.stopTimer.value < |j.timers|)
    && (j.handler == Stopping ==> j.stopTimer.Some?)
  }

  ghost predicate ReaderInv(j: JobState) {
    && j.group == Sum(j.readers, InGroup)
    && j.logReaders == Sum(j.readers, Counted)
    && (j.lock.Opening? ==> j.lock.reader < |j.readers|)
    && (forall i :: 0 <= i < |j.readers| ==> (j.readers[i].pc.Creating? <==> j.lock == Opening(i)))
    && (j.lock == Cleaning(true) || j.handler == Zombie ==> AllClosed(j.readers))
    && (j.handler == Zombie ==> j.lock.Free?)
  }

  /** The bytes sent, with the chunk in hand, are the output up to the file offset; only a
   * chunk that could not be sent is missing. */
  ghost predicate ReaderStream(r: Reader, output: seq<Byte>) {
    && r.offset <= |output|
    && r.sent + (if r.pc.Sending? then r.pc.chunk else []) <= output[..r.offset]
    && (r.outcome != Some(SendFailed) ==> r.sent + (if r.pc.Sending? then r.pc.chunk else []) == output[..r.offset])
    && (r.outcome.Some? <==> !r.pc.InLoop() && !r.pc.Creating?)
    && r.start <= r.seen <= |output|
    && (r.pc.Looking? ==> r.offset == r.seen)
    && (r.outcome == Some(Canceled) ==> r.cancelled)
    && (r.readFailed ==> r.outcome == Some(if r.follow then ReadFailed else Finished))
    && (r.outcome == Some(Finished) && !r.readFailed ==> r.sent == output[..r.seen])
  }

  /** What a reader that saw `done` closed, or left because of it, may conclude. */
  ghost predicate StreamOk(r: Reader, output: seq<Byte>, done: bool) {
    && ReaderStream(r, output)
    && (r.doneSeen ==> done && r.seen == |output|)
    && (r.follow && r.outcome == Some(Finished) ==> done)
  }

  ghost predicate StreamInv(j: JobState) {
    forall i :: 0 <= i < |j.readers| ==> StreamOk(j.readers[i], j.output, j.Done())
  }

  ghost predicate Inv(j: JobState) {
    ExitInv(j) && SignalInv(j) && TimerInv(j) && ReaderInv(j) && StreamInv(j)
  }

  lemma InvNew()
    ensures Inv(NEW_JOB)
  {
  }

  lemma ExitInvNext(j: JobState, e: Event)
    requires ExitInv(j) && Next(j, e).Some?
    ensures ExitInv(Next(j, e).value)
  {
  }

  lemma DisciplinedAppend(attempts: seq<Attempt>, a: Attempt)
    requires Disciplined(attempts)
    requires Attempt(Kill, true) !in attempts
    requires Attempt(Term, true) in attempts ==> a.signal == Kill
    ensures Disciplined(attempts + [a])
    ensures forall s :: Attempt(s, true) in attempts + [a] <==> Attempt(s, true) in attempts || a == Attempt(s, true)
  {
    forall i | 0 <= i < |attempts| && attempts[i].delivered
      ensures attempts[i].signal == Term && a.signal == Kill
    {
      assert attempts[i] in attempts && attempts[i] == Attempt(attempts[i].signal, true);
    }
  }

  lemma SignalForced(j: JobState, ok: bool)
    requires ExitInv(j) && SignalInv(j)
    ensures SignalInv(Forced(j, ok))
  {
    if !j.handler.Completed() {
      DisciplinedAppend(j.attempts, Attempt(Kill, ok));
      assert Forced(j, ok).attempts == j.attempts + [Attempt(Kill, ok)];
    }
  }

  lemma SignalGraceful(j: JobState, ok: bool)
    requires ExitInv(j) && SignalInv(j)
    ensures SignalInv(Graceful(j, ok))
  {
    if j.handler.Active? {
      DisciplinedAppend(j.attempts, Attempt(Term, ok));
      assert Graceful(j, ok).attempts == j.attempts + [Attempt(Term, ok)];
    }
  }

  lemma SignalInvNext(j: JobState, e: Event)
    requires ExitInv(j) && SignalInv(j) && Next(j, e).Some?
    ensures SignalInv(Next(j, e).value)
  {
    match e
    case InitStop(ok) => SignalGraceful(j, ok);
    case ForceStop(ok) => SignalForced(j, ok);
    case TimerStop(t, ok) =>
      var k := j.(timers := j.timers[t := Over]);
      assert ExitInv(k) && SignalInv(k) by {
        assert k.attempts == j.attempts && k.handler == j.handler && k.exit == j.exit;
      }
      SignalForced(k, ok);
    case _ =>
      var k := Next(j, e).value;
      assert k.attempts == j.attempts;
  }

  lemma TimerInvNext(j: JobState, e: Event)
    requires TimerInv(j) && Next(j, e).Some?
    ensures TimerInv(Next(j, e).value)
  {
  }

  /** Reader `i` moves on, and the counters follow it. */
  lemma ReaderMoves(j: JobState, i: nat, r: Reader, k: JobState)
    requires ReaderInv(j) && i < |j.readers| && k.readers == j.readers[i := r]
    requires r.pc.Creating? <==> k.lock == Opening(i)
    requires k.lock == j.lock || (j.lock == Opening(i) && k.lock == Free)
    requires j.readers[i].pc.Closed? ==> r.pc.Closed?
    requires k.handler == j.handler
    requires k.group == j.group - InGroup(j.readers[i]) + InGroup(r)
    requires k.logReaders == j.logReaders - Counted(j.readers[i]) + Counted(r)
    ensures ReaderInv(k)
  {
    Recount(j.readers, i, r);
  }

  lemma ReaderOpens(j: JobState, follow: bool)
    requires ReaderInv(j) && Next(j, OpenLogs(follow, true)).Some?
    ensures ReaderInv(Next(j, OpenLogs(follow, true)).value)
  {
    SumAppend(j.readers, NewReader(follow, |j.output|), InGroup);
    SumAppend(j.readers, NewReader(follow, |j.output|), Counted);
  }

  lemma ReaderSteps(j: JobState, i: nat, step: ReaderEvent)
    requires ReaderInv(j) && Next(j, Step(i, step)).Some?
    ensures ReaderInv(Next(j, Step(i, step)).value)
  {
    var k := Next(j, Step(i, step)).value;
    assert !j.readers[i].pc.Creating? && !k.readers[i].pc.Creating? && !j.readers[i].pc.Closed?;
    ReaderMoves(j, i, k.readers[i], k);
  }

  /** The steps that leave the readers alone. */
  lemma ReaderInvKept(j: JobState, e: Event)
    requires ReaderInv(j) && Next(j, e).Some?
    requires !e.OpenLogs? && !e.CountReader? && !e.Cancel? && !e.Step? && !e.ReadersGone?
    ensures ReaderInv(Next(j, e).value)
  {
    var k := Next(j, e).value;
    assert k.readers == j.readers && k.group == j.group && k.logReaders == j.logReaders;
  }

  lemma ReaderInvNext(j: JobState, e: Event)
    requires ReaderInv(j) && Next(j, e).Some?
    ensures ReaderInv(Next(j, e).value)
  {
    var k := Next(j, e).value;
    match e
    case OpenLogs(follow, ok) => if ok { ReaderOpens(j, follow); }
    case CountReader => ReaderMoves(j, j.lock.reader, k.readers[j.lock.reader], k);
    case Cancel(i) => ReaderMoves(j, i, k.readers[i], k);
    case Step(i, step) => ReaderSteps(j, i, step);
    case ReadersGone => SumZero(j.readers, InGroup);
    case _ => ReaderInvKept(j, e);
  }

  lemma Recount(rs: seq<Reader>, i: nat, r: Reader)
    requires i < |rs|
    ensures Sum(rs[i := r], InGroup) == Sum(rs, InGroup) - InGroup(rs[i]) + InGroup(r)
    ensures Sum(rs[i := r], Counted) == Sum(rs, Counted) - Counted(rs[i]) + Counted(r)
  {
    SumUpdate(rs, i, r, InGroup);
    SumUpdate(rs, i, r, Counted);
  }

  /** Appending to the file disturbs no reader's stream. */
  lemma StreamGrows(r: Reader, output: seq<Byte>, more: seq<Byte>)
    requires StreamOk(r, output, false)
    ensures StreamOk(r, output + more, false)
  {
    assert (output + more)[..r.offset] == output[..r.offset];
    assert (output + more)[..r.seen] == output[..r.seen];
  }

  lemma StreamSteps(r: Reader, output: seq<Byte>, done: bool, e: ReaderEvent)
    requires StreamOk(r, output, done) && ReaderNext(r, output, done, e).Some?
    ensures StreamOk(ReaderNext(r, output, done, e).value, output, done)
  {
    match e
    case FileRead(n) => StreamReads(r, output, done, n);
    case FileEof => StreamMeetsEnd(r, output, done);
    case FileFail => assert r.sent + [] == r.sent;
    case Look => StreamLooks(r, output, done);
    case Send(ok) => StreamSends(r, output, done, ok);
    case _ => StreamWaitsOrCloses(r, output, done, e);
  }

  lemma StreamReads(r: Reader, output: seq<Byte>, done: bool, n: nat)
    requires StreamOk(r, output, done) && ReaderNext(r, output, done, FileRead(n)).Some?
    ensures StreamOk(ReaderNext(r, output, done, FileRead(n)).value, output, done)
  {
    assert output[..r.offset + n] == output[..r.offset] + output[r.offset..r.offset + n];
    assert r.sent + [] == r.sent;
  }

  lemma StreamMeetsEnd(r: Reader, output: seq<Byte>, done: bool)
    requires StreamOk(r, output, done) && ReaderNext(r, output, done, FileEof).Some?
    ensures StreamOk(ReaderNext(r, output, done, FileEof).value, output, done)
  {
  }

  lemma StreamLooks(r: Reader, output: seq<Byte>, done: bool)
    requires StreamOk(r, output, done) && ReaderNext(r, output, done, Look).Some?
    ensures StreamOk(ReaderNext(r, output, done, Look).value, output, done)
  {
    assert r.sent + [] == r.sent;
  }

  lemma StreamSends(r: Reader, output: seq<Byte>, done: bool, ok: bool)
    requires StreamOk(r, output, done) && ReaderNext(r, output, done, Send(ok)).Some?
    ensures StreamOk(ReaderNext(r, output, done, Send(ok)).value, output, done)
  {
    assert r.sent + r.pc.chunk + [] == r.sent + r.pc.chunk;
  }

  lemma StreamWaitsOrCloses(r: Reader, output: seq<Byte>, done: bool, e: ReaderEvent)
    requires StreamOk(r, output, done) && ReaderNext(r, output, done, e).Some?
    requires e.Poll? || e.DropCount? || e.CloseFile? || e.LeaveGroup?
    ensures StreamOk(ReaderNext(r, output, done, e).value, output, done)
  {
  }

  lemma StreamInvNext(j: JobState, e: Event)
    requires ExitInv(j) && StreamInv(j) && Next(j, e).Some?
    ensures StreamInv(Next(j, e).value)
  {
    var k := Next(j, e).value;
    if e.Write? {
      forall i | 0 <= i < |j.readers| ensures StreamOk(k.readers[i], k.output, k.Done()) {
        StreamGrows(j.readers[i], j.output, e.bytes);
      }
    } else if e.Step? {
      StreamSteps(j.readers[e.reader], j.output, j.Done(), e.step);
    } else {
      StreamInvKept(j, e);
    }
  }

  lemma StreamInvKept(j: JobState, e: Event)
    requires ExitInv(j) && StreamInv(j) && Next(j, e).Some? && !e.Write? && !e.Step?
    ensures StreamInv(Next(j, e).value)
  {
    var k := Next(j, e).value;
    assert k.output == j.output && (j.Done() ==> k.Done());
    if e.OpenLogs? {
      var r := NewReader(e.follow, |j.output|);
      assert j.output[..0] == [];
      assert StreamOk(r, j.output, j.Done());
    }
    forall i | 0 <= i < |k.readers| ensures StreamOk(k.readers[i], k.output, k.Done()) {
      if i < |j.readers| {
        assert StreamOk(j.readers[i], j.output, j.Done());
      }
    }
  }

  lemma InvNext(j: JobState, e: Event)
    requires Inv(j) && Next(j, e).Some?
    ensures Inv(Next(j, e).value)
  {
    ExitInvNext(j, e);
    SignalInvNext(j, e);
    TimerInvNext(j, e);
    ReaderInvNext(j, e);
    StreamInvNext(j, e);
  }

  /** The invariant holds in every state of every run of a new job. */
  lemma {:induction false} InvRun(j: JobState, es: seq<Event>)
    requires Inv(j) && Run(j, es).Some?
    ensures Inv(Run(j, es).value)
    decreases |es|
  {
    if es == [] {
    } else {
      InvNext(j, es[0]);
      InvRun(Next(j, es[0]).value, es[1..]);
    }
  }
}
