/** When a cleanup that waits for log readers finishes, and when it never does. */
module Progress {
  import opened JobModel
  import opened Sums
  import opened JobInvariants
  import opened JobTheorems
  import opened StreamTheorems

  /** The steps a waiting cleanup depends on: fault-free reader steps and its own. */
  predicate FaultFree(e: Event) {
    match e
    case Step(_, step) => !step.FileFail? && step != Send(false)
    case ReadersGone => true
    case EndCleanup(_) => true
    case _ => false
  }

  /** A reader that is bound to leave its loop: it has left, or it does not follow, or its
   * client has gone, or `done` is closed. */
  predicate Bound(r: Reader, done: bool) {
    !r.pc.InLoop() || !r.follow || r.cancelled || done
  }

  ghost predicate Drains(j: JobState) {
    forall i :: 0 <= i < |j.readers| ==> Bound(j.readers[i], j.Done())
  }

  /** How many steps a bound reader can still take: unread bytes count three times, a
   * cancelled reader only finishes the round it is in. */
  function Cost(r: Reader, length: nat): nat {
    var unread := if r.offset <= length then length - r.offset else 0;
    match r.pc
    case Creating => 0
    case Polling => if r.cancelled then 4 else 10 + 3 * unread
    case Reading => if r.cancelled then 7 else 9 + 3 * unread
    case Looking => if r.cancelled then 6 else 8
    case Sending(_) => if r.cancelled then 5 else 11 + 3 * unread
    case Returned => 3
    case Dropped => 2
    case FileClosed => 1
    case Closed => 0
  }

  function CostAt(length: nat): Reader -> nat {
    r => Cost(r, length)
  }

  function LockCost(l: Lock): nat {
    match l
    case Cleaning(waited) => if waited then 1 else 2
    case _ => 0
  }

  function Measure(j: JobState): nat {
    Sum(j.readers, CostAt(|j.output|)) + LockCost(j.lock)
  }

  /** Every step of a bound reader makes its cost smaller, faults included. */
  lemma CostFalls(r: Reader, output: seq<Byte>, done: bool, e: ReaderEvent)
    requires StreamOk(r, output, done) && Bound(r, done) && ReaderNext(r, output, done, e).Some?
    ensures Cost(ReaderNext(r, output, done, e).value, |output|) < Cost(r, |output|)
    ensures Bound(ReaderNext(r, output, done, e).value, done)
  {
  }

  // ----- one stream, whatever else happens

  /** The steps of reader `i` in a schedule. */
  function StepsOf(es: seq<Event>, i: nat): nat {
    if es == [] then 0
    else (if es[0].Step? && es[0].reader == i then 1 else 0) + StepsOf(es[1..], i)
  }

  /** A reader that is bound to leave takes boundedly many steps in every run, whatever calls,
   * timers, exits, writes and other readers do meanwhile: three more for every byte that
   * is still written, and once the writer is quiet no more than its cost. */
  lemma {:induction false} StreamStepsAreBounded(j: JobState, es: seq<Event>, i: nat)
    requires Inv(j) && i < |j.readers| && !j.readers[i].pc.Creating? && Bound(j.readers[i], j.Done())
    requires Run(j, es).Some?
    ensures StreamPaid(StepsOf(es, i), j, Run(j, es).value, i)
    decreases |es|
  {
    if es == [] {
    } else {
      StreamStepOnce(j, es[0], i);
      InvNext(j, es[0]);
      StreamStepsAreBounded(Next(j, es[0]).value, es[1..], i);
    }
  }

  lemma StreamStepOnce(j: JobState, e: Event, i: nat)
    requires StreamInv(j) && i < |j.readers| && !j.readers[i].pc.Creating? && Bound(j.readers[i], j.Done())
    requires Next(j, e).Some?
    ensures StreamPaid(if e.Step? && e.reader == i then 1 else 0, j, Next(j, e).value, i)
  {
    assert StreamOk(j.readers[i], j.output, j.Done());
    if e.Step? && e.reader == i {
      OwnStepPaid(j, i, e.step);
    } else {
      OthersKeepReader(j, e, i);
      OthersKeepCost(j.readers[i], Next(j, e).value.readers[i], |j.output|, |Next(j, e).value.output|);
    }
  }

  /** The account of one reader for a stretch of a run in which it takes `steps` steps. */
  ghost predicate StreamPaid(steps: nat, j: JobState, k: JobState, i: nat)
    requires i < |j.readers|
  {
    && |j.output| <= |k.output| && i < |k.readers| && !k.readers[i].pc.Creating?
    && Bound(k.readers[i], k.Done())
    && steps + Cost(k.readers[i], |k.output|) <= Cost(j.readers[i], |j.output|) + 3 * (|k.output| - |j.output|)
  }

  lemma OwnStepPaid(j: JobState, i: nat, step: ReaderEvent)
    requires i < |j.readers| && StreamOk(j.readers[i], j.output, j.Done()) && Bound(j.readers[i], j.Done())
    requires Next(j, Step(i, step)).Some?
    ensures StreamPaid(1, j, Next(j, Step(i, step)).value, i)
  {
    CostFalls(j.readers[i], j.output, j.Done(), step);
  }

  lemma OthersKeepCost(r: Reader, s: Reader, m: nat, n: nat)
    requires s.(cancelled := r.cancelled) == r && (s.cancelled == r.cancelled || (s.cancelled && r.outcome.None?))
    requires r.outcome.None? ==> r.pc.InLoop()
    requires r.offset <= m <= n
    ensures Cost(s, n) <= Cost(r, m) + 3 * (n - m)
    ensures forall done :: Bound(r, done) ==> Bound(s, done)
  {
  }

  /** Until it is closed, a reader can always take its next step. */
  lemma ReaderCanMove(j: JobState, i: nat)
    requires Inv(j) && i < |j.readers| && !j.readers[i].pc.Creating? && !j.readers[i].pc.Closed?
    ensures Next(j, Step(i, ReaderMove(j.readers[i], |j.output|))).Some?
  {
    assert StreamOk(j.readers[i], j.output, j.Done());
  }

  /** The bound is exact: a reader that is not bound to leave can go on for any number of
   * steps of its own, without faults. */
  lemma {:induction false} UnboundStreamGoesOn(j: JobState, i: nat, n: nat) returns (es: seq<Event>)
    requires Inv(j) && i < |j.readers| && !Bound(j.readers[i], j.Done())
    ensures |es| == n && StepsOf(es, i) == n && AllFaultFree(es) && Run(j, es).Some?
    ensures i < |Run(j, es).value.readers|
    ensures !Bound(Run(j, es).value.readers[i], Run(j, es).value.Done())
    decreases n
  {
    if n == 0 {
      es := [];
    } else {
      var e := UnboundReaderMoves(j, i);
      var rest := UnboundStreamGoesOn(Next(j, e).value, i, n - 1);
      es := [e] + rest;
      assert es[1..] == rest;
    }
  }

  lemma UnboundReaderMoves(j: JobState, i: nat) returns (e: Event)
    requires Inv(j) && i < |j.readers| && !Bound(j.readers[i], j.Done())
    ensures FaultFree(e) && e.Step? && e.reader == i && Next(j, e).Some?
    ensures var k := Next(j, e).value; Inv(k) && i < |k.readers| && !Bound(k.readers[i], k.Done())
  {
    ReaderCanMove(j, i);
    e := Step(i, ReaderMove(j.readers[i], |j.output|));
    InvNext(j, e);
  }

  ghost predicate AllFaultFree(es: seq<Event>) {
    forall e <- es :: FaultFree(e)
  }

  // ----- a cleanup and all its readers

  /** The steps a cleanup waits for, and its own, whether they fail or not. */
  predicate CleanupTick(e: Event) {
    e.Step? || e.ReadersGone? || e.EndCleanup?
  }

  /** Each of them makes the measure of a draining job smaller. */
  lemma MeasureFalls(j: JobState, e: Event)
    requires Inv(j) && Drains(j) && CleanupTick(e) && Next(j, e).Some?
    ensures Drains(Next(j, e).value)
    ensures Measure(Next(j, e).value) < Measure(j)
  {
    var k := Next(j, e).value;
    if e.Step? {
      CostFalls(j.readers[e.reader], j.output, j.Done(), e.step);
      SumUpdate(j.readers, e.reader, k.readers[e.reader], CostAt(|j.output|));
    } else {
      assert k.readers == j.readers;
    }
  }

  /** The account of a stretch of a cleanup in which `ticks` such steps happen: what they take
   * is paid by the measure, which only what is written in the meantime can raise. */
  ghost predicate Accounted(ticks: nat, before: JobState, after: JobState) {
    && Drains(after)
    && |after.readers| == |before.readers|
    && |before.output| <= |after.output|
    && (before.process.Reaped? ==> after.process.Reaped? && |after.output| == |before.output|)
    && ticks + Measure(after) <= Measure(before) + 3 * |before.readers| * (|after.output| - |before.output|)
  }

  lemma AccountsAdd(m: nat, n: nat, i: JobState, j: JobState, k: JobState)
    requires Accounted(m, i, j) && Accounted(n, j, k)
    ensures Accounted(m + n, i, k)
  {
    var r, a, b := |i.readers|, |j.output| - |i.output|, |k.output| - |j.output|;
    assert 3 * r * (a + b) == 3 * r * a + 3 * r * b;
  }

  lemma {:induction false} CostOfWriting(rs: seq<Reader>, length: nat, n: nat)
    ensures Sum(rs, CostAt(length + n)) <= Sum(rs, CostAt(length)) + 3 * |rs| * n
  {
    if rs == [] {
    } else {
      CostOfWriting(rs[1..], length, n);
      assert Cost(rs[0], length + n) <= Cost(rs[0], length) + 3 * n;
      assert 3 * |rs| * n == 3 * |rs[1..]| * n + 3 * n;
    }
  }

  function Tick(e: Event): nat {
    if CleanupTick(e) then 1 else 0
  }

  /** While a cleanup of a draining job holds the lock, every event is accounted for. */
  lemma MeasureAccounts(j: JobState, e: Event)
    requires Inv(j) && Drains(j) && j.lock.Cleaning? && Next(j, e).Some?
    ensures Accounted(Tick(e), j, Next(j, e).value)
    ensures Next(j, e).value.lock.Cleaning? || e.EndCleanup?
  {
    if CleanupTick(e) {
      MeasureFalls(j, e);
      NothingWritten(Tick(e), j, Next(j, e).value);
    } else if e.Write? {
      WriteAccounts(j, e.bytes);
    } else if e.Cancel? {
      CancelAccounts(j, e.reader);
    } else {
      OthersAccount(j, e);
    }
  }

  /** The account where nothing is written. */
  lemma NothingWritten(ticks: nat, j: JobState, k: JobState)
    requires Drains(k) && |k.readers| == |j.readers| && k.output == j.output && k.process == j.process
    requires ticks + Measure(k) <= Measure(j)
    ensures Accounted(ticks, j, k)
  {
  }

  lemma WriteAccounts(j: JobState, bytes: seq<Byte>)
    requires Drains(j) && Next(j, Write(bytes)).Some?
    ensures Accounted(0, j, Next(j, Write(bytes)).value)
  {
    CostOfWriting(j.readers, |j.output|, |bytes|);
  }

  /** Events that concern neither readers nor output. */
  lemma OthersAccount(j: JobState, e: Event)
    requires Drains(j) && j.lock.Cleaning? && Next(j, e).Some?
    requires !CleanupTick(e) && !e.Write? && !e.Cancel?
    ensures Accounted(0, j, Next(j, e).value) && Next(j, e).value.lock.Cleaning?
  {
    var k := Next(j, e).value;
    assert k.readers == j.readers && k.output == j.output && (j.process.Reaped? ==> k.process == j.process);
    assert k.lock == j.lock && (j.Done() ==> k.Done());
    NothingWritten(0, j, k.(process := j.process));
  }

  /** A client that goes away only makes the stream shorter. */
  lemma CancelAccounts(j: JobState, i: nat)
    requires Drains(j) && Next(j, Cancel(i)).Some?
    ensures Accounted(0, j, Next(j, Cancel(i)).value)
  {
    SumUpdate(j.readers, i, j.readers[i].(cancelled := true), CostAt(|j.output|));
    NothingWritten(0, j, Next(j, Cancel(i)).value);
  }

  /** The steps of a cleanup under way, and of its readers, up to its end. */
  function CleanupTicks(j: JobState, es: seq<Event>): nat
    requires Run(j, es).Some?
    decreases |es|
  {
    if es == [] || !j.lock.Cleaning? then 0
    else Tick(es[0]) + CleanupTicks(Next(j, es[0]).value, es[1..])
  }

  /** The job when the cleanup under way is over, or else at the end of the run. */
  function CleanupEnd(j: JobState, es: seq<Event>): JobState
    requires Run(j, es).Some?
    decreases |es|
  {
    if es == [] || !j.lock.Cleaning? then j else CleanupEnd(Next(j, es[0]).value, es[1..])
  }

  /** In every run, faults, cancellations, timers, signals and writes included, a cleanup of
   * a draining job and its readers are accounted for up to its end; where the run ends
   * before that, the lock is still held. */
  lemma {:induction false} CleanupTicksAreBounded(j: JobState, es: seq<Event>)
    requires Inv(j) && Drains(j) && j.lock.Cleaning? && Run(j, es).Some?
    ensures Accounted(CleanupTicks(j, es), j, CleanupEnd(j, es))
    ensures CleanupEnd(j, es).lock.Cleaning? ==> CleanupEnd(j, es) == Run(j, es).value
    decreases |es|
  {
    if es == [] {
    } else {
      var k := Next(j, es[0]).value;
      MeasureAccounts(j, es[0]);
      InvNext(j, es[0]);
      if k.lock.Cleaning? {
        CleanupTicksAreBounded(k, es[1..]);
        AccountsAdd(Tick(es[0]), CleanupTicks(k, es[1..]), j, k, CleanupEnd(k, es[1..]));
      }
    }
  }

  /** The step a reader takes next, if no fault happens. */
  function ReaderMove(r: Reader, length: nat): ReaderEvent
    requires !r.pc.Creating? && !r.pc.Closed?
  {
    match r.pc
    case Polling => Poll
    case Reading => if r.offset < length then FileRead(1) else FileEof
    case Looking => Look
    case Sending(_) => Send(true)
    case Returned => DropCount
    case Dropped => CloseFile
    case FileClosed => LeaveGroup
  }

  /** While a cleanup holds the lock some fault-free step is always possible. */
  lemma CleanupNeverBlocksAll(j: JobState) returns (e: Event)
    requires Inv(j) && j.lock.Cleaning?
    ensures FaultFree(e) && Next(j, e).Some?
    ensures e != EndCleanup(false) && (Next(j, e).value.lock.Cleaning? || e == EndCleanup(true))
  {
    if j.lock == Cleaning(true) {
      e := EndCleanup(true);
    } else if j.group == 0 {
      e := ReadersGone;
    } else {
      SumZero(j.readers, InGroup);
      var i :| 0 <= i < |j.readers| && InGroup(j.readers[i]) != 0;
      assert !j.readers[i].pc.Creating? && !j.readers[i].pc.Closed?;
      ReaderCanMove(j, i);
      e := Step(i, ReaderMove(j.readers[i], |j.output|));
    }
  }

  /** A cleanup of a draining job finishes. */
  lemma {:induction false} CleanupFinishes(j: JobState) returns (es: seq<Event>)
    requires Inv(j) && j.lock.Cleaning? && Drains(j)
    ensures AllFaultFree(es) && Run(j, es).Some? && Run(j, es).value.handler == Zombie
    decreases Measure(j)
  {
    var e := CleanupNeverBlocksAll(j);
    var k := Next(j, e).value;
    MeasureFalls(j, e);
    InvNext(j, e);
    if e == EndCleanup(true) {
      es := [e];
      assert Run(k, []) == Some(k);
    } else {
      var rest := CleanupFinishes(k);
      es := [e] + rest;
      assert es[1..] == rest;
    }
  }

  /** A following reader that nobody releases: its client stays, no read or send fails. */
  predicate Releases(e: Event, i: nat) {
    e == Cancel(i) || e == Step(i, FileFail) || e == Step(i, Send(false))
  }

  ghost predicate Undisturbed(es: seq<Event>, i: nat) {
    forall k :: 0 <= k < |es| ==> !Releases(es[k], i)
  }

  /** The deadlock: the cleanup waits for the reader, the reader for `done`, and the exit
   * that would close `done` for the lock that the cleanup holds. */
  ghost predicate Stuck(j: JobState, i: nat) {
    && j.lock == Cleaning(false)
    && !j.Done()
    && i < |j.readers|
    && j.readers[i].pc.InLoop()
    && j.readers[i].follow
    && !j.readers[i].cancelled
  }

  lemma StuckOnce(j: JobState, i: nat, e: Event)
    requires Inv(j) && Stuck(j, i) && Next(j, e).Some? && !Releases(e, i)
    ensures Stuck(Next(j, e).value, i)
  {
    if e.Step? && e.reader == i {
      assert Next(j, e).value.readers[i].cancelled == j.readers[i].cancelled;
    } else if e.ReadersGone? {
      SumZero(j.readers, InGroup);
      assert false;
    } else {
      OthersKeepReader(j, e, i);
      LockIsKept(j, e);
    }
  }

  lemma LockIsKept(j: JobState, e: Event)
    requires j.lock == Cleaning(false) && Next(j, e).Some? && !e.ReadersGone?
    ensures Next(j, e).value.lock == j.lock && Next(j, e).value.doneCloses == j.doneCloses
  {
  }

  /** Nothing that may happen, the exit of the process included, undoes it. */
  lemma {:induction false} StuckForever(j: JobState, i: nat, es: seq<Event>)
    requires Inv(j) && Stuck(j, i) && Undisturbed(es, i) && Run(j, es).Some?
    ensures Stuck(Run(j, es).value, i)
    decreases |es|
  {
    if es == [] {
    } else {
      StuckOnce(j, i, es[0]);
      InvNext(j, es[0]);
      StuckForever(Next(j, es[0]).value, i, es[1..]);
    }
  }

  /** A cleanup in progress can finish on its own exactly when every reader is bound to
   * leave its loop. */
  lemma CleanupCompletesIffDrains(j: JobState)
    requires Inv(j) && j.lock.Cleaning?
    ensures Drains(j) <==>
            exists es :: AllFaultFree(es) && Run(j, es).Some? && !Run(j, es).value.lock.Cleaning?
  {
    if Drains(j) {
      var es := CleanupFinishes(j);
      InvRun(j, es);
    } else {
      var i :| 0 <= i < |j.readers| && !Bound(j.readers[i], j.Done());
      assert !j.readers[i].pc.Closed?;
      assert Stuck(j, i);
      forall es | AllFaultFree(es) && Run(j, es).Some?
        ensures Run(j, es).value.lock.Cleaning?
      {
        assert forall k :: 0 <= k < |es| ==> FaultFree(es[k]) by {
          assert forall k :: 0 <= k < |es| ==> es[k] in es;
        }
        StuckForever(j, i, es);
      }
    }
  }
}
