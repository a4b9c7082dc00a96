/** What a client of the log stream may conclude, against any writer. */
module StreamTheorems {
  import opened JobModel
  import opened JobInvariants
  import opened JobTheorems

  /** At every moment of every run the bytes sent are a prefix of the output. */
  lemma SentIsPrefix(es: seq<Event>, i: nat)
    requires Run(NEW_JOB, es).Some? && i < |Run(NEW_JOB, es).value.readers|
    ensures Run(NEW_JOB, es).value.readers[i].sent <= Run(NEW_JOB, es).value.output
  {
    InvNew();
    InvRun(NEW_JOB, es);
    var m := Run(NEW_JOB, es).value;
    assert StreamOk(m.readers[i], m.output, m.Done());
  }

  ghost predicate OthersOnly(es: seq<Event>, i: nat) {
    forall e <- es :: e.Step? ==> e.reader != i
  }

  /** What is not a step of reader `i` leaves it where it is; its client may go away. */
  lemma OthersKeepReader(j: JobState, e: Event, i: nat)
    requires i < |j.readers| && !j.readers[i].pc.Creating? && Next(j, e).Some?
    requires !(e.Step? && e.reader == i)
    ensures var k := Next(j, e).value;
            && i < |k.readers|
            && k.readers[i] == j.readers[i].(cancelled := j.readers[i].cancelled || e == Cancel(i))
            && (e == Cancel(i) ==> j.readers[i].outcome.None?)
            && |j.output| <= |k.output| && (j.Done() ==> k.Done())
  {
  }

  lemma {:induction false} OthersLeaveReader(j: JobState, es: seq<Event>, i: nat)
    requires i < |j.readers| && !j.readers[i].pc.Creating?
    requires Run(j, es).Some? && OthersOnly(es, i)
    ensures var m := Run(j, es).value;
            i < |m.readers| && m.readers[i].(cancelled := j.readers[i].cancelled) == j.readers[i]
    decreases |es|
  {
    if es == [] {
    } else {
      assert es[0] in es;
      OthersKeepReader(j, es[0], i);
      OthersLeaveReader(Next(j, es[0]).value, es[1..], i);
    }
  }

  /** A reader meets the end of the file in state `j`; other things happen; then it looks
   * at `done`. It leaves the loop exactly when it does not follow or `done` is closed
   * by then, what it has sent is the file as it stood at that read, and this misses
   * exactly what was written in between. */
  lemma SentIsFileAtLastRead(j: JobState, i: nat, fs: seq<Event>)
    requires Inv(j) && Next(j, Step(i, FileEof)).Some?
    requires Run(Next(j, Step(i, FileEof)).value, fs).Some? && OthersOnly(fs, i)
    ensures var m := Run(Next(j, Step(i, FileEof)).value, fs).value;
            && Next(m, Step(i, Look)).Some?
            && var n := Next(m, Step(i, Look)).value;
            && n.readers[i].sent == j.output
            && (n.readers[i].outcome == Some(Finished) <==> !j.readers[i].follow || m.Done())
            && (n.readers[i].sent == n.output <==> m.output == j.output)
  {
    var k := Next(j, Step(i, FileEof)).value;
    assert StreamOk(j.readers[i], j.output, j.Done());
    assert j.output[..j.readers[i].offset] == j.output;
    assert j.readers[i].sent + [] == j.readers[i].sent;
    OthersLeaveReader(k, fs, i);
  }

  ghost predicate CompleteAfter(j: JobState, i: nat, fs: seq<Event>)
    requires Next(j, Step(i, FileEof)).Some?
  {
    var m := Run(Next(j, Step(i, FileEof)).value, fs);
    OthersOnly(fs, i) && m.Some? && Next(m.value, Step(i, Look)).Some? ==>
      var n := Next(m.value, Step(i, Look)).value;
      i < |n.readers| && (n.readers[i].outcome == Some(Finished) ==> n.readers[i].sent == n.output)
  }

  /** When a reader meets the end of the file, whatever success it may still report will be
   * complete exactly if the process is gone already; or if the reader follows while a
   * cleanup holds the lock over an open `done`, which then cannot be closed any more. */
  lemma LastReadIsCompleteIff(j: JobState, i: nat)
    requires Inv(j) && Next(j, Step(i, FileEof)).Some?
    ensures (forall fs :: CompleteAfter(j, i, fs)) <==>
            j.process.Reaped? || (j.readers[i].follow && j.lock.Cleaning?)
  {
    if j.process.Reaped? || (j.readers[i].follow && j.lock.Cleaning?) {
      forall fs | OthersOnly(fs, i) && Run(Next(j, Step(i, FileEof)).value, fs).Some?
        ensures CompleteAfter(j, i, fs)
      {
        NothingIsMissed(j, i, fs);
      }
    } else {
      var fs := TailIsMissed(j, i);
    }
  }

  lemma NothingIsMissed(j: JobState, i: nat, fs: seq<Event>)
    requires Inv(j) && Next(j, Step(i, FileEof)).Some?
    requires OthersOnly(fs, i) && Run(Next(j, Step(i, FileEof)).value, fs).Some?
    requires j.process.Reaped? || (j.readers[i].follow && j.lock.Cleaning?)
    ensures CompleteAfter(j, i, fs)
  {
    var k := Next(j, Step(i, FileEof)).value;
    SentIsFileAtLastRead(j, i, fs);
    if j.process.Reaped? {
      HistoryOnlyGrows(k, fs);
    } else {
      InvNext(j, Step(i, FileEof));
      LockIsHeld(k, i, fs);
    }
  }

  /** A cleanup that waits for a reader keeps the exit of the process from closing `done`. */
  lemma {:induction false} LockIsHeld(j: JobState, i: nat, fs: seq<Event>)
    requires Inv(j) && j.lock.Cleaning? && !j.Done() && i < |j.readers| && j.readers[i].pc.Looking?
    requires OthersOnly(fs, i) && Run(j, fs).Some?
    ensures !Run(j, fs).value.Done()
    decreases |fs|
  {
    if fs == [] {
    } else {
      assert fs[0] in fs;
      InvNext(j, fs[0]);
      LockIsHeldOnce(j, i, fs[0]);
      LockIsHeld(Next(j, fs[0]).value, i, fs[1..]);
    }
  }

  lemma LockIsHeldOnce(j: JobState, i: nat, e: Event)
    requires ReaderInv(j) && j.lock.Cleaning? && !j.Done() && i < |j.readers| && j.readers[i].pc.Looking?
    requires Next(j, e).Some? && !(e.Step? && e.reader == i)
    ensures var k := Next(j, e).value;
            k.lock.Cleaning? && !k.Done() && i < |k.readers| && k.readers[i].pc.Looking?
  {
  }

  /** A byte is written and the job ends before the reader looks. */
  lemma TailIsMissed(j: JobState, i: nat) returns (fs: seq<Event>)
    requires Inv(j) && Next(j, Step(i, FileEof)).Some?
    requires j.process.Running? && !(j.readers[i].follow && j.lock.Cleaning?)
    ensures OthersOnly(fs, i) && Run(Next(j, Step(i, FileEof)).value, fs).Some? && !CompleteAfter(j, i, fs)
  {
    var k := Next(j, Step(i, FileEof)).value;
    var w := Next(k, Write([0])).value;
    InvNext(j, Step(i, FileEof));
    InvNext(k, Write([0]));
    var rest: seq<Event> := [];
    if j.readers[i].follow {
      assert w.handler != Zombie by { assert !w.readers[i].pc.Closed?; }
      rest := JobGetsDone(w);
    }
    fs := [Write([0])] + rest;
    assert fs[1..] == rest;
    RunStep(k, fs);
    SentIsFileAtLastRead(j, i, fs);
    HistoryOnlyGrows(w, rest);
    assert |w.output| == |j.output| + 1;
  }

  /** When a following stream returns nil the process is gone for good, the bytes sent are
   * the first `seen` bytes of the final output, and they are all of it if `done` was
   * closed at the last file read. */
  lemma FollowedToTheEnd(es: seq<Event>, fs: seq<Event>, i: nat)
    requires Run(NEW_JOB, es).Some? && i < |Run(NEW_JOB, es).value.readers|
    requires Run(Run(NEW_JOB, es).value, fs).Some?
    requires var r := Run(NEW_JOB, es).value.readers[i]; r.follow && r.outcome == Some(Finished)
    ensures var m := Run(NEW_JOB, es).value; var r := m.readers[i];
            var last := Run(m, fs).value.output;
            && r.seen <= |last| && r.sent == last[..r.seen]
            && (r.sent == last <==> r.seen == |last|)
            && (r.doneSeen ==> r.sent == last)
  {
    InvNew();
    InvRun(NEW_JOB, es);
    var m := Run(NEW_JOB, es).value;
    assert StreamOk(m.readers[i], m.output, m.Done());
    HistoryOnlyGrows(m, fs);
  }

  /** A reader whose next look at `done` comes after a fresh file read. */
  predicate WillReadAgain(r: Reader) {
    r.pc.Creating? || r.pc.Polling? || r.pc.Reading? || r.pc.Sending?
  }

  /** If `done` is already closed while the stream still has a file read ahead of it, the
   * stream that returns nil without a read error has sent the complete output. */
  lemma DoneBeforeReadIsComplete(j: JobState, es: seq<Event>, i: nat)
    requires Inv(j) && j.Done() && i < |j.readers| && WillReadAgain(j.readers[i])
    requires Run(j, es).Some?
    requires i < |Run(j, es).value.readers|
    requires var r := Run(j, es).value.readers[i]; r.outcome == Some(Finished) && !r.readFailed
    ensures Run(j, es).value.readers[i].sent == Run(j, es).value.output == j.output
  {
    InvRun(j, es);
    HistoryOnlyGrows(j, es);
    assert StreamOk(j.readers[i], j.output, j.Done());
    SeesDone(j, es, i);
    var m := Run(j, es).value;
    assert StreamOk(m.readers[i], m.output, m.Done());
    assert m.output[..|m.output|] == m.output;
  }

  /** A reader that has not left with success, or has seen `done` at its last read, or is
   * going to read again. */
  predicate WillHaveSeenDone(r: Reader) {
    || (r.outcome.None? && WillReadAgain(r))
    || r.doneSeen
    || r.readFailed
    || (r.outcome.Some? && r.outcome != Some(Finished) && !r.pc.InLoop() && !r.pc.Creating?)
  }

  lemma SeesDoneOnce(j: JobState, e: Event, i: nat)
    requires j.Done() && i < |j.readers| && StreamOk(j.readers[i], j.output, j.Done())
    requires WillHaveSeenDone(j.readers[i]) && Next(j, e).Some?
    ensures i < |Next(j, e).value.readers| && WillHaveSeenDone(Next(j, e).value.readers[i])
  {
    var k := Next(j, e).value;
    if e.Step? && e.reader == i {
      SeesDoneAtStep(j.readers[i], j.output, e.step);
    } else {
      assert k.readers[i].(cancelled := j.readers[i].cancelled, pc := j.readers[i].pc) == j.readers[i];
    }
  }

  lemma SeesDoneAtStep(r: Reader, output: seq<Byte>, e: ReaderEvent)
    requires StreamOk(r, output, true) && WillHaveSeenDone(r) && ReaderNext(r, output, true, e).Some?
    ensures WillHaveSeenDone(ReaderNext(r, output, true, e).value)
  {
  }

  lemma {:induction false} SeesDone(j: JobState, es: seq<Event>, i: nat)
    requires Inv(j) && j.Done() && i < |j.readers| && Run(j, es).Some?
    requires WillHaveSeenDone(j.readers[i])
    ensures i < |Run(j, es).value.readers| && WillHaveSeenDone(Run(j, es).value.readers[i])
    decreases |es|
  {
    if es == [] {
    } else {
      HistoryGrowsByOne(j, es[0]);
      InvNext(j, es[0]);
      SeesDoneOnce(j, es[0], i);
      SeesDone(Next(j, es[0]).value, es[1..], i);
    }
  }

  /** The race the previous lemma excludes: the last byte is written, and the job ends,
   * between the reader's end of file and its look at `done`. */
  lemma FollowMayMissTheTail(b: Byte)
    ensures var es := [OpenLogs(true, true), CountReader, Step(0, Poll), Step(0, FileEof),
                       Write([b]), Reap(0), HandleExit, Step(0, Look)];
            && Run(NEW_JOB, es).Some?
            && var m := Run(NEW_JOB, es).value;
            && |m.readers| == 1
            && m.readers[0].outcome == Some(Finished) && m.readers[0].follow
            && m.readers[0].sent == [] && m.output == [b]
  {
    var es := [OpenLogs(true, true), CountReader, Step(0, Poll), Step(0, FileEof),
               Write([b]), Reap(0), HandleExit, Step(0, Look)];
    var a := Next(NEW_JOB, es[0]).value;
    var c := Next(a, es[1]).value;
    var d := Next(c, es[2]).value;
    var f := Next(d, es[3]).value;
    var g := Next(f, es[4]).value;
    var h := Next(g, es[5]).value;
    var i := Next(h, es[6]).value;
    RunStep(NEW_JOB, es);
    RunStep(a, es[1..]);
    RunStep(c, es[2..]);
    RunStep(d, es[3..]);
    RunStep(f, es[4..]);
    RunStep(g, es[5..]);
    RunStep(h, es[6..]);
    RunStep(i, es[7..]);
  }

  /** A stream opened in state `j` that returns nil, in either mode and for any chunking, has
   * sent at most the output at its return; and it has sent at least the output at the
   * call exactly if no read failed, or none did before the offset was past that output. */
  lemma StreamSandwich(j: JobState, follow: bool, es: seq<Event>)
    requires Inv(j) && j.lock.Free? && j.handler != Zombie
    requires Run(Next(j, OpenLogs(follow, true)).value, es).Some?
    requires |j.readers| < |Run(Next(j, OpenLogs(follow, true)).value, es).value.readers|
    requires var r := Run(Next(j, OpenLogs(follow, true)).value, es).value.readers[|j.readers|];
             r.outcome == Some(Finished)
    ensures var m := Run(Next(j, OpenLogs(follow, true)).value, es).value; var r := m.readers[|j.readers|];
            && r.sent <= m.output
            && (j.output <= r.sent <==> !r.readFailed || |j.output| <= r.offset)
  {
    var k := Next(j, OpenLogs(follow, true)).value;
    InvNext(j, OpenLogs(follow, true));
    InvRun(k, es);
    var m := Run(k, es).value;
    var r := m.readers[|j.readers|];
    HistoryOnlyGrows(k, es);
    StartIsKept(k, es, |j.readers|);
    assert StreamOk(r, m.output, m.Done());
    assert r.sent + [] == r.sent == m.output[..r.offset];
    assert j.output == m.output[..r.start];
    assert r.start <= r.offset ==> m.output[..r.offset][..r.start] == m.output[..r.start];
  }

  lemma {:induction false} StartIsKept(j: JobState, es: seq<Event>, i: nat)
    requires i < |j.readers| && Run(j, es).Some?
    ensures i < |Run(j, es).value.readers|
    ensures Run(j, es).value.readers[i].start == j.readers[i].start
    ensures Run(j, es).value.readers[i].follow == j.readers[i].follow
    decreases |es|
  {
    if es == [] {
    } else {
      StartIsKeptOnce(j, es[0], i);
      StartIsKept(Next(j, es[0]).value, es[1..], i);
    }
  }

  lemma StartIsKeptOnce(j: JobState, e: Event, i: nat)
    requires i < |j.readers| && Next(j, e).Some?
    ensures var k := Next(j, e).value;
            i < |k.readers| && k.readers[i].start == j.readers[i].start && k.readers[i].follow == j.readers[i].follow
  {
    if e.Step? {
      StepKeepsStart(j.readers[e.reader], j.output, j.Done(), e.step);
    }
  }

  lemma StepKeepsStart(r: Reader, output: seq<Byte>, done: bool, e: ReaderEvent)
    ensures match ReaderNext(r, output, done, e)
            case None => true
            case Some(after) => after.start == r.start && after.follow == r.follow
  {
  }

  /** A client that goes away while its stream is between two rounds gets nothing more, in any
   * continuation: the stream stays where it is or has left with `Canceled`. */
  lemma CancelEndsStream(j: JobState, i: nat, es: seq<Event>)
    requires i < |j.readers| && j.readers[i].pc.Polling? && j.readers[i].outcome.None?
    requires Next(j, Cancel(i)).Some? && Run(Next(j, Cancel(i)).value, es).Some?
    ensures var m := Run(Next(j, Cancel(i)).value, es).value;
            i < |m.readers| && CancelSeen(m.readers[i], j.readers[i].sent)
  {
    CancelStaysSeen(Next(j, Cancel(i)).value, i, j.readers[i].sent, es);
  }

  /** A cancelled reader that waits for its next round, or has left because of it. */
  predicate CancelSeen(r: Reader, sent: seq<Byte>) {
    && r.cancelled && r.sent == sent
    && (if r.pc.Polling? then r.outcome.None?
        else !r.pc.InLoop() && !r.pc.Creating? && r.outcome == Some(Canceled))
  }

  lemma {:induction false} CancelStaysSeen(j: JobState, i: nat, sent: seq<Byte>, es: seq<Event>)
    requires i < |j.readers| && CancelSeen(j.readers[i], sent) && Run(j, es).Some?
    ensures i < |Run(j, es).value.readers| && CancelSeen(Run(j, es).value.readers[i], sent)
    decreases |es|
  {
    if es == [] {
    } else {
      CancelStaysSeenOnce(j, i, sent, es[0]);
      CancelStaysSeen(Next(j, es[0]).value, i, sent, es[1..]);
    }
  }

  lemma CancelStaysSeenOnce(j: JobState, i: nat, sent: seq<Byte>, e: Event)
    requires i < |j.readers| && CancelSeen(j.readers[i], sent) && Next(j, e).Some?
    ensures i < |Next(j, e).value.readers| && CancelSeen(Next(j, e).value.readers[i], sent)
  {
    if e.Step? && e.reader == i {
      assert CancelSeen(ReaderNext(j.readers[i], j.output, j.Done(), e.step).value, sent);
    } else {
      OthersKeepReader(j, e, i);
    }
  }

  /** And only such a stream returns `Canceled`. */
  lemma CanceledMeansCancelled(es: seq<Event>, i: nat)
    requires Run(NEW_JOB, es).Some? && i < |Run(NEW_JOB, es).value.readers|
    ensures var r := Run(NEW_JOB, es).value.readers[i]; r.outcome == Some(Canceled) ==> r.cancelled
  {
    InvNew();
    InvRun(NEW_JOB, es);
    var m := Run(NEW_JOB, es).value;
    assert StreamOk(m.readers[i], m.output, m.Done());
  }

  /** Without following, a file-read error ends the stream as a success: the client gets
   * nil although output that existed at the call was never sent. */
  lemma ReadErrorLooksLikeTheEnd(b: Byte)
    ensures var es := [Write([b]), OpenLogs(false, true), CountReader, Step(0, Poll), Step(0, FileFail)];
            && Run(NEW_JOB, es).Some?
            && var m := Run(NEW_JOB, es).value;
            && |m.readers| == 1
            && m.readers[0].outcome == Some(Finished) && !m.readers[0].follow
            && m.readers[0].sent == [] && m.output == [b] && m.readers[0].start == 1
  {
    var es := [Write([b]), OpenLogs(false, true), CountReader, Step(0, Poll), Step(0, FileFail)];
    var a := Next(NEW_JOB, es[0]).value;
    var c := Next(a, es[1]).value;
    var d := Next(c, es[2]).value;
    var f := Next(d, es[3]).value;
    RunStep(NEW_JOB, es);
    RunStep(a, es[1..]);
    RunStep(c, es[2..]);
    RunStep(d, es[3..]);
    RunStep(f, es[4..]);
  }
}
