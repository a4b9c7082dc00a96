/** `outputReader` and the streaming loop of `server.Logs`, against a file that grows and a
 * job that ends while they run. */
module LogServer {
  import opened JobModel
  import opened JobInvariants
  import opened JobTheorems
  import opened StreamTheorems
  import opened JobObject

  /** Size of the chunk buffer in the streaming loop. */
  const BUFFER_SIZE: nat := 1024

  /** The error of a Read: nil, io.EOF, ErrEOFJobDone, or anything else. */
  datatype ReadError = NoError | EndOfFile | EndOfJob | Broken

  /** What the world does during one round of the loop: background events before the round
   * and between the file read and the look at `done`, how much a file read returns,
   * whether it fails, and whether the chunk can be sent. */
  datatype Round = Round(before: seq<Event>, size: nat, fails: bool, between: seq<Event>, sendOk: bool)

  ghost predicate NoReadFails(rounds: seq<Round>) {
    forall k :: 0 <= k < |rounds| ==> !rounds[k].fails
  }

  /** Nothing goes wrong with the stream of reader `i`: no read or send fails, and its client
   * stays. */
  ghost predicate Quiet(rounds: seq<Round>, i: nat) {
    forall k :: 0 <= k < |rounds| ==> Served(rounds[k], i) && Event.Cancel(i) !in rounds[k].between
  }

  /** A round that, as far as the world is concerned, can be completed. */
  predicate Served(round: Round, i: nat) {
    !round.fails && round.sendOk && Event.Cancel(i) !in round.before
  }

  ghost predicate AllServed(rounds: seq<Round>, i: nat, n: nat)
    requires n <= |rounds|
  {
    forall k :: 0 <= k < n ==> Served(rounds[k], i)
  }

  function Flatten(chunks: seq<seq<Byte>>): seq<Byte> {
    if chunks == [] then [] else Flatten(chunks[..|chunks| - 1]) + chunks[|chunks| - 1]
  }

  lemma FlattenAppend(chunks: seq<seq<Byte>>, chunk: seq<Byte>)
    ensures Flatten(chunks + [chunk]) == Flatten(chunks) + chunk
  {
    assert (chunks + [chunk])[..|chunks|] == chunks;
  }

  /** The chunks are of the size of the buffer at most; an empty one is sent only where that is
   * allowed, and when all of `output` has been sent before. */
  ghost predicate ChunksOk(chunks: seq<seq<Byte>>, mayIdle: bool, output: seq<Byte>) {
    forall k :: 0 <= k < |chunks| ==>
      |chunks[k]| <= BUFFER_SIZE && (chunks[k] == [] ==> mayIdle && output <= Flatten(chunks[..k]))
  }

  lemma ChunksAppend(chunks: seq<seq<Byte>>, chunk: seq<Byte>, mayIdle: bool, output: seq<Byte>)
    requires ChunksOk(chunks, mayIdle, output) && |chunk| <= BUFFER_SIZE
    requires chunk == [] ==> mayIdle && output <= Flatten(chunks)
    ensures ChunksOk(chunks + [chunk], mayIdle, output)
  {
    var all := chunks + [chunk];
    forall k | 0 <= k < |all|
      ensures |all[k]| <= BUFFER_SIZE && (all[k] == [] ==> mayIdle && output <= Flatten(all[..k]))
    {
      assert all[..k] == chunks[..k];
      assert chunks[..|chunks|] == chunks;
    }
  }

  /** Where no empty message is allowed there are no more messages than bytes. */
  lemma {:induction false} ChunksAreFew(chunks: seq<seq<Byte>>, output: seq<Byte>)
    requires ChunksOk(chunks, false, output)
    ensures |chunks| <= |Flatten(chunks)|
    decreases |chunks|
  {
    if chunks == [] {
    } else {
      var most := chunks[..|chunks| - 1];
      forall k | 0 <= k < |most| ensures |most[k]| <= BUFFER_SIZE && most[k] != [] {
        assert most[k] == chunks[k];
      }
      ChunksAreFew(most, output);
      assert chunks[|chunks| - 1] != [];
    }
  }

  /** Background events leave a reader where it is; only its client may go away. */
  lemma {:induction false} InterferenceOnReader(j: JobState, es: seq<Event>, i: nat)
    requires i < |j.readers| && !j.readers[i].pc.Creating?
    ensures var k := Interleaved(j, es, Some(i)); var r := j.readers[i];
            && Drifts(j, k)
            && i < |k.readers|
            && k.readers[i] == r.(cancelled := r.cancelled || (r.outcome.None? && Event.Cancel(i) in es))
    decreases |es|
  {
    if es == [] {
      DriftsNowhere(j);
    } else {
      var k := Interleaved(j, [es[0]], Some(i));
      OneOnReader(j, es[0], i);
      InterleavedNext(j, es, Some(i));
      InterferenceOnReader(k, es[1..], i);
      DriftsOn(j, k, Interleaved(k, es[1..], Some(i)));
    }
  }

  lemma OneOnReader(j: JobState, e: Event, i: nat)
    requires i < |j.readers| && !j.readers[i].pc.Creating?
    ensures var k := Interleaved(j, [e], Some(i)); var r := j.readers[i];
            && Drifts(j, k)
            && i < |k.readers|
            && k.readers[i] == r.(cancelled := r.cancelled || (r.outcome.None? && e == Event.Cancel(i)))
  {
    InterleavedOne(j, e, Some(i));
    DriftsNowhere(j);
    if Foreign(e, Some(i)) && Next(j, e).Some? {
      DriftsByEvent(j, e);
      OthersKeepReader(j, e, i);
    }
  }

  method FillBuffer(b: array<Byte>, data: seq<Byte>)
    requires |data| <= b.Length
    modifies b
    ensures b[..|data|] == data
  {
    forall k | 0 <= k < |data| {
      b[k] := data[k];
    }
  }

  /** As much of the rest of a file as is there, fits, and the file system gives. */
  method CopyChunk(b: array<Byte>, size: nat, rest: seq<Byte>) returns (n: nat)
    requires rest != [] && b.Length > 0
    modifies b
    ensures 0 < n <= b.Length && n <= |rest| && b[..n] == rest[..n]
  {
    var room := if |rest| < b.Length then |rest| else b.Length;
    n := if size == 0 then 1 else if size < room then size else room;
    FillBuffer(b, rest[..n]);
  }

  /** The three steps of `Close` take one from each of the two counters. */
  lemma CloseCounts(j: JobState, i: nat)
    requires i < |j.readers| && j.readers[i].pc.Returned?
    ensures var a := After(j, Event.Step(i, DropCount));
            var b := After(a, Event.Step(i, CloseFile));
            var c := After(b, Event.Step(i, LeaveGroup));
            && i < |c.readers| && c.readers[i] == j.readers[i].(pc := Closed)
            && c.logReaders == j.logReaders - 1 && c.group == j.group - 1
  {
  }

  lemma CloseDrifts(j: JobState, i: nat)
    ensures var a := After(j, Event.Step(i, DropCount));
            var b := After(a, Event.Step(i, CloseFile));
            Drifts(j, After(b, Event.Step(i, LeaveGroup)))
  {
    var a := After(j, Event.Step(i, DropCount));
    var b := After(a, Event.Step(i, CloseFile));
    DriftsByEvent(j, Event.Step(i, DropCount));
    DriftsByEvent(a, Event.Step(i, CloseFile));
    DriftsByEvent(b, Event.Step(i, LeaveGroup));
    DriftsOn(j, a, b);
    DriftsOn(j, b, After(b, Event.Step(i, LeaveGroup)));
  }

  class OutputReader {
    const job: Job
    const index: nat

    constructor (job: Job, index: nat)
      ensures this.job == job && this.index == index
    {
      this.job := job;
      this.index := index;
    }

    ghost predicate Valid()
      reads job
    {
      job.Valid() && index < |job.readers|
    }

    /** The state of this reader. */
    ghost function State(): Reader
      requires Valid()
      reads job
    {
      job.readers[index]
    }

    /** Background events happen; none of them is a step of this reader. */
    method Meanwhile(es: seq<Event>)
      requires Valid() && !State().pc.Creating?
      modifies job
      ensures Valid() && job.View() == Interleaved(old(job.View()), es, Some(index))
      ensures State() == old(State()).(cancelled := old(State()).cancelled
                                         || (old(State()).outcome.None? && Event.Cancel(index) in es))
      ensures Drifts(old(job.View()), job.View())
    {
      var i := 0;
      while i < |es|
        invariant 0 <= i <= |es| && job.Valid()
        invariant Interleaved(old(job.View()), es, Some(index)) == Interleaved(job.View(), es[i..], Some(index))
      {
        InterleavedNext(job.View(), es[i..], Some(index));
        assert es[i..][1..] == es[i + 1..];
        job.Environment(es[i], Some(index));
        i := i + 1;
      }
      InterferenceOnReader(old(job.View()), es, index);
    }

    /** One step of this reader, which must be possible. */
    method Step(step: ReaderEvent)
      requires Valid() && ReaderNext(State(), job.output, job.done, step).Some?
      modifies job`readers, job`logReaders, job`outLock
      ensures Valid() && Some(State()) == ReaderNext(old(State()), old(job.output), old(job.done), step)
      ensures job.View() == After(old(job.View()), Event.Step(index, step))
      ensures Drifts(old(job.View()), job.View())
    {
      DriftsByEvent(job.View(), Event.Step(index, step));
      job.StepReader(index, step);
    }

    /** The file read, before the end of the file. */
    method ReadFile(b: array<Byte>, size: nat) returns (n: nat)
      requires Valid() && State().pc.Reading? && b.Length > 0
      requires State().offset < |job.output|
      modifies job`readers, job`logReaders, job`outLock, b
      ensures Valid() && Drifts(old(job.View()), job.View())
      ensures 0 < n <= b.Length
      ensures State() == old(State()).(pc := Sending(b[..n]), offset := old(State()).offset + n,
                           seen := |job.output|, doneSeen := job.done)
      ensures job.output[old(State()).offset..][..n] == b[..n]
    {
      var offset := job.readers[index].offset;
      n := CopyChunk(b, size, job.output[offset..]);
      assert job.output[offset..][..n] == job.output[offset..offset + n];
      Step(FileRead(n));
    }

    /** The file read at the end of the file, and the look at `done` some time later. */
    method ReadEnd(between: seq<Event>) returns (err: ReadError)
      requires Valid() && State().pc.Reading? && State().offset >= |job.output|
      modifies job
      ensures Valid() && Drifts(old(job.View()), job.View())
      ensures State().follow == old(State()).follow && State().sent == old(State()).sent
      ensures State().readFailed == old(State()).readFailed
      ensures State().cancelled ==> old(State()).cancelled || Event.Cancel(index) in between
      ensures err == EndOfJob <==> job.done
      ensures err == EndOfJob || err == EndOfFile
      ensures if State().follow && err == EndOfFile then State().pc == Sending([])
              else State().pc.Returned? && State().outcome == Some(Finished)
    {
      Step(FileEof);
      ghost var read := job.View();
      Meanwhile(between);
      ghost var looking := job.View();
      DriftsOn(old(job.View()), read, looking);
      err := LookAtDone();
      DriftsOn(old(job.View()), looking, job.View());
    }

    /** The look at `done` after the end of the file. */
    method LookAtDone() returns (err: ReadError)
      requires Valid() && State().pc.Looking?
      modifies job`readers, job`logReaders, job`outLock
      ensures Valid() && Drifts(old(job.View()), job.View())
      ensures State().follow == old(State()).follow && State().sent == old(State()).sent
      ensures State().readFailed == old(State()).readFailed && State().cancelled == old(State()).cancelled
      ensures err == if job.done then EndOfJob else EndOfFile
      ensures if State().follow && err == EndOfFile then State().pc == Sending([])
              else State().pc.Returned? && State().outcome == Some(Finished)
    {
      err := if job.done then EndOfJob else EndOfFile;
      Step(Look);
    }

    /** `Read`: one read of the file into the buffer and, at its end, a look at `done`. With an
     * empty buffer there is nothing to read, and no look. */
    method Read(b: array<Byte>, size: nat, fails: bool, between: seq<Event>) returns (n: nat, err: ReadError)
      requires Valid() && State().pc.Reading?
      modifies job, b
      ensures Valid() && Drifts(old(job.View()), job.View())
      ensures State().follow == old(State()).follow && State().sent == old(State()).sent
      ensures State().cancelled ==> old(State()).cancelled || Event.Cancel(index) in between
      ensures err == EndOfFile ==> !job.done
      ensures n <= b.Length && (b.Length > 0 ==> (n == 0 <==> err != NoError))
      ensures b.Length == 0 && !fails ==> err == NoError && State() == old(State())
      ensures n > 0 ==> State().pc == Sending(b[..n]) && b[..n] <= old(job.output)[old(State()).offset..]
      ensures err == Broken <==> fails
      ensures err == Broken ==> State().outcome == Some(if State().follow then ReadFailed else Finished)
      ensures err != Broken ==> !State().readFailed
      ensures err == EndOfFile || err == EndOfJob ==> State().sent == old(job.output)
      ensures err == EndOfFile && State().follow ==> State().pc == Sending([])
      ensures err == EndOfFile && !State().follow ==> State().outcome == Some(Finished)
      ensures err == EndOfJob ==> State().outcome == Some(Finished) && job.done
      ensures b.Length > 0 || fails ==> State().pc.Sending? || State().pc.Returned?
    {
      StreamKnown();
      if fails {
        Step(FileFail);
        return 0, Broken;
      }
      if b.Length == 0 {
        DriftsNowhere(job.View());
        return 0, NoError;
      }
      if job.readers[index].offset < |job.output| {
        n := ReadFile(b, size);
        err := NoError;
      } else {
        assert State().sent + [] == State().sent;
        err := ReadEnd(between);
        n := 0;
      }
    }

    /** What the invariant says about this reader's stream. */
    lemma StreamKnown()
      requires Valid()
      ensures StreamOk(State(), job.output, job.done)
    {
      assert StreamOk(job.View().readers[index], job.View().output, job.View().Done());
    }

    /** `Close`: the counter, the file, the wait group. */
    method Close()
      requires Valid() && State().pc.Returned?
      modifies job`readers, job`logReaders, job`outLock
      ensures Valid() && State() == old(State()).(pc := Closed)
      ensures job.logReaders == old(job.logReaders) - 1 && job.outLock == old(job.outLock) - 1
      ensures Drifts(old(job.View()), job.View())
    {
      ghost var j := job.View();
      CloseCounts(j, index);
      CloseDrifts(j, index);
      job.StepReader(index, DropCount);
      ghost var a := job.View();
      assert a == After(j, Event.Step(index, DropCount));
      job.StepReader(index, CloseFile);
      ghost var b := job.View();
      assert b == After(a, Event.Step(index, CloseFile));
      job.StepReader(index, LeaveGroup);
      assert job.View() == After(b, Event.Step(index, LeaveGroup));
    }
  }

  /** What the loop of `server.Logs` has done with reader `i`, which has just been opened in
   * state `before`. It goes through all rounds or returns; it idles only where the stream
   * follows a job that was not done, and only when everything that was there has been
   * sent; and it returns with an error only if the world gave it one. */
  ghost predicate LoopDone(before: JobState, after: JobState, i: nat, rounds: seq<Round>, chunks: seq<seq<Byte>>,
      outcome: Option<Outcome>)
    requires i < |before.readers|
  {
    && i < |after.readers| && Drifts(before, after)
    && var follow, r := before.readers[i].follow, after.readers[i];
    && r.sent == Flatten(chunks) && r.follow == follow
    && (if outcome.Some? then r.pc.Closed? && r.outcome == outcome else r.pc.Polling?)
    && (NoReadFails(rounds) ==> !r.readFailed)
    && ChunksOk(chunks, follow && !before.Done(), before.output)
    && |chunks| <= |rounds|
    && (outcome.None? ==> |chunks| == |rounds| && AllServed(rounds, i, |rounds|))
    && (outcome == Some(Canceled) ==> !Quiet(rounds, i))
    && (Quiet(rounds, i) ==> outcome == None || outcome == Some(Finished))
  }

  /** The loop, for as many rounds as the world is scheduled for; None when it is still
   * streaming then. `chunks` are the messages sent. */
  method StreamLoop(r: OutputReader, follow: bool, rounds: seq<Round>)
    returns (chunks: seq<seq<Byte>>, outcome: Option<Outcome>)
    requires r.Valid() && r.State().pc.Polling? && r.State().follow == follow && r.State().sent == []
    requires !r.State().cancelled
    modifies r.job
    ensures r.Valid() && LoopDone(old(r.job.View()), r.job.View(), r.index, rounds, chunks, outcome)
  {
    chunks, outcome := [], None;
    DriftsNowhere(r.job.View());
    var data := new Byte[BUFFER_SIZE];
    var i := 0;
    r.StreamKnown();
    while i < |rounds|
      invariant 0 <= i == |chunks| <= |rounds| && outcome == None
      invariant r.Valid() && Looping(old(r.job.View()), r.job.View(), r.index, rounds, chunks)
    {
      ghost var start := r.job.View();
      var chunk: seq<Byte>;
      chunk, outcome := OneRound(r, follow, rounds[i], data);
      if outcome.Some? {
        LoopReturns(old(r.job.View()), start, r.job.View(), r.index, rounds, chunks, chunk, outcome);
        return;
      }
      LoopGoesOn(old(r.job.View()), start, r.job.View(), r.index, rounds, chunks, chunk);
      chunks := chunks + [chunk];
      i := i + 1;
    }
  }

  /** The state of the loop between two rounds, one message for each round so far. */
  ghost predicate Looping(before: JobState, now: JobState, i: nat, rounds: seq<Round>, chunks: seq<seq<Byte>>)
    requires |chunks| <= |rounds|
  {
    && i < |before.readers| && i < |now.readers| && Drifts(before, now)
    && var r := now.readers[i];
    && r.sent == Flatten(chunks) && r.follow == before.readers[i].follow && r.pc.Polling? && !r.readFailed
    && ChunksOk(chunks, r.follow && !before.Done(), before.output)
    && AllServed(rounds, i, |chunks|)
    && (r.cancelled ==> |chunks| > 0 && Event.Cancel(i) in rounds[|chunks| - 1].between)
  }

  lemma LoopGoesOn(before: JobState, start: JobState, now: JobState, i: nat, rounds: seq<Round>,
      chunks: seq<seq<Byte>>, chunk: seq<Byte>)
    requires |chunks| < |rounds| && Looping(before, start, i, rounds, chunks)
    requires RoundDone(start, now, i, rounds[|chunks|], chunk, None)
    ensures Looping(before, now, i, rounds, chunks + [chunk])
  {
    DriftKeeps(before, start);
    DriftsOn(before, start, now);
    FlattenAppend(chunks, chunk);
    ChunksAppend(chunks, chunk, before.readers[i].follow && !before.Done(), before.output);
  }

  lemma LoopReturns(before: JobState, start: JobState, now: JobState, i: nat, rounds: seq<Round>,
      chunks: seq<seq<Byte>>, chunk: seq<Byte>, outcome: Option<Outcome>)
    requires |chunks| < |rounds| && Looping(before, start, i, rounds, chunks) && outcome.Some?
    requires RoundDone(start, now, i, rounds[|chunks|], chunk, outcome)
    ensures LoopDone(before, now, i, rounds, chunks, outcome)
  {
    DriftsOn(before, start, now);
    if Quiet(rounds, i) {
      assert Served(rounds[|chunks|], i);
      assert |chunks| > 0 ==> Served(rounds[|chunks| - 1], i) && Event.Cancel(i) !in rounds[|chunks| - 1].between;
      assert outcome != Some(Canceled) && outcome != Some(ReadFailed) && outcome != Some(SendFailed);
      match outcome.value {
        case Finished =>
        case _ =>
      }
    }
  }

  /** What a round leaves behind: the loop goes on, one message later, or it has returned
   * with the reader closed. It returns `Canceled` exactly if the client has gone away before
   * its poll, and other errors only if the world gave them; it sends an empty message only
   * where it follows, the job was not done, and everything that was there has been sent. */
  ghost predicate RoundDone(before: JobState, after: JobState, i: nat, round: Round, chunk: seq<Byte>,
      outcome: Option<Outcome>)
    requires i < |before.readers|
  {
    && i < |after.readers| && Drifts(before, after)
    && var r, s := before.readers[i], after.readers[i];
    && s.follow == r.follow
    && (outcome == Some(Canceled) <==> r.cancelled || Event.Cancel(i) in round.before)
    && RoundEnds(r, s, i, round, chunk, outcome, r.follow && !before.Done(), before.output)
  }

  ghost predicate RoundEnds(r: Reader, s: Reader, i: nat, round: Round, chunk: seq<Byte>, outcome: Option<Outcome>,
      mayIdle: bool, output: seq<Byte>)
  {
    && (s.readFailed ==> round.fails)
    && (if outcome.Some?
        then
          && s.pc.Closed? && s.outcome == outcome && s.sent == r.sent
          && (outcome == Some(ReadFailed) ==> round.fails)
          && (outcome == Some(SendFailed) ==> !round.sendOk)
        else
          && s.pc.Polling? && s.sent == r.sent + chunk && |chunk| <= BUFFER_SIZE
          && !round.fails && round.sendOk && (s.cancelled ==> Event.Cancel(i) in round.between)
          && (chunk == [] ==> mayIdle && output <= s.sent))
  }

  /** The body of the loop: the message sent, or what the method returns. */
  method OneRound(r: OutputReader, follow: bool, round: Round, data: array<Byte>)
    returns (chunk: seq<Byte>, outcome: Option<Outcome>)
    requires r.Valid() && r.State().pc.Polling? && r.State().follow == follow && !r.State().readFailed
    requires data.Length == BUFFER_SIZE
    modifies r.job, data
    ensures r.Valid() && RoundDone(old(r.job.View()), r.job.View(), r.index, round, chunk, outcome)
  {
    ghost var before := r.job.View();
    var cancelled := PollClient(r, round);
    ghost var polled := r.job.View();
    if cancelled {
      chunk, outcome := [], Some(Canceled);
      r.Close();
    } else {
      chunk, outcome := ReadAndSend(r, follow, round, data);
      DriftKeeps(before, polled);
    }
    DriftsOn(before, polled, r.job.View());
  }

  /** Things happen before the round; then the loop looks whether the client is still there. */
  method PollClient(r: OutputReader, round: Round) returns (cancelled: bool)
    requires r.Valid() && r.State().pc.Polling?
    modifies r.job
    ensures r.Valid() && Drifts(old(r.job.View()), r.job.View())
    ensures cancelled <==> old(r.State()).cancelled || Event.Cancel(r.index) in round.before
    ensures var s := old(r.State()).(cancelled := cancelled);
            r.State() == if cancelled then s.(pc := Returned, outcome := Some(Canceled)) else s.(pc := Reading)
  {
    ghost var before := r.job.View();
    r.StreamKnown();
    r.Meanwhile(round.before);
    ghost var ready := r.job.View();
    cancelled := r.job.readers[r.index].cancelled;
    r.Step(Poll);
    DriftsOn(before, ready, r.job.View());
  }

  method ReadAndSend(r: OutputReader, follow: bool, round: Round, data: array<Byte>)
    returns (chunk: seq<Byte>, outcome: Option<Outcome>)
    requires r.Valid() && r.State().pc.Reading? && r.State().follow == follow && !r.State().readFailed
    requires data.Length == BUFFER_SIZE && !r.State().cancelled
    modifies r.job, data
    ensures r.Valid() && Drifts(old(r.job.View()), r.job.View()) && r.State().follow == follow
    ensures RoundEnds(old(r.State()), r.State(), r.index, round, chunk, outcome, follow && !old(r.job.done),
                      old(r.job.output))
    ensures outcome != Some(Canceled)
  {
    chunk, outcome := [], None;
    ghost var before := r.job.View();
    var n, err := r.Read(data, round.size, round.fails, round.between);
    ghost var read := r.job.View();
    DriftKeeps(before, read);
    if n == 0 && (!follow || err != EndOfFile) {
      if !follow {
        outcome := Some(Finished);
      } else if err != EndOfJob {
        outcome := Some(ReadFailed);
      } else {
        outcome := Some(Finished);
      }
      r.Close();
    } else {
      chunk, outcome := SendChunk(r, data, n, round.sendOk);
    }
    DriftsOn(before, read, r.job.View());
  }

  method SendChunk(r: OutputReader, data: array<Byte>, n: nat, ok: bool)
    returns (chunk: seq<Byte>, outcome: Option<Outcome>)
    requires r.Valid() && n <= data.Length == BUFFER_SIZE && r.State().pc == Sending(data[..n])
    modifies r.job`readers, r.job`logReaders, r.job`outLock
    ensures r.Valid() && Drifts(old(r.job.View()), r.job.View())
    ensures chunk == data[..n] && (outcome.None? <==> ok)
    ensures r.State().follow == old(r.State()).follow && r.State().readFailed == old(r.State()).readFailed
    ensures r.State().cancelled == old(r.State()).cancelled
    ensures if ok then r.State().pc.Polling? && r.State().sent == old(r.State()).sent + chunk
            else outcome == Some(SendFailed) && r.State().outcome == outcome
                 && r.State().pc.Closed? && r.State().sent == old(r.State()).sent
  {
    chunk, outcome := data[..n], None;
    r.Step(Send(ok));
    if !ok {
      ghost var refused := r.job.View();
      r.Close();
      DriftsOn(old(r.job.View()), refused, r.job.View());
      outcome := Some(SendFailed);
    }
  }

  /** What a stream opened in state `before` has sent and returned. It sends nothing that is
   * not in the output, and no empty message but while it follows an open job and has sent
   * all that was there at the call; it goes through all rounds or returns. When it returns
   * nil and no read failed, the client has the output at the call; when it follows, the
   * process is gone; when `done` was closed at the call, the client has the complete output.
   * Where nothing goes wrong it returns nil, after no more rounds than there are bytes and
   * one, if it does not follow or `done` was closed at the call. */
  ghost predicate StreamDone(before: JobState, after: JobState, follow: bool, rounds: seq<Round>,
      chunks: seq<seq<Byte>>, outcome: Option<Outcome>)
  {
    && Drifts(Opened(before, follow), after)
    && Flatten(chunks) <= after.output
    && (outcome == Some(Finished) && NoReadFails(rounds) ==> before.output <= Flatten(chunks))
    && (outcome == Some(Finished) && follow ==> after.Done() && after.process.Reaped?)
    && (outcome == Some(Finished) && NoReadFails(rounds) && before.Done() ==>
          Flatten(chunks) == after.output == before.output)
    && ChunksOk(chunks, follow && !before.Done(), before.output)
    && |chunks| <= |rounds|
    && (outcome.None? ==> |chunks| == |rounds| && AllServed(rounds, |before.readers|, |rounds|))
    && (Quiet(rounds, |before.readers|) ==> outcome == None || outcome == Some(Finished))
    && (Quiet(rounds, |before.readers|) && (!follow || before.Done()) && |rounds| > |after.output| ==>
          outcome == Some(Finished))
  }

  /** `server.Logs` once the job is found: opens a reader and streams. */
  method Logs(job: Job, follow: bool, ok: bool, rounds: seq<Round>)
    returns (chunks: seq<seq<Byte>>, outcome: Option<Outcome>, accepted: bool)
    requires job.Valid() && job.stateLock.Free?
    modifies job
    ensures job.Valid() && Leads(old(job.View()), job.View())
    ensures accepted <==> ok && old(job.handler) != Zombie
    ensures accepted ==> StreamDone(old(job.View()), job.View(), follow, rounds, chunks, outcome)
    ensures !accepted ==> job.View() == old(job.View()) && chunks == [] && outcome == None
  {
    ghost var before := job.View();
    LeadsNowhere(before);
    chunks, outcome, accepted := [], None, false;
    var i := job.Logs(follow, ok);
    if i.Some? {
      OpenedReader(before, follow);
      assert job.View() == Opened(before, follow);
      chunks, outcome := StreamFrom(job, i.value, follow, rounds, before);
      accepted := true;
    }
  }

  /** The stream of a reader that has just been opened in state `before`. */
  method StreamFrom(job: Job, i: nat, follow: bool, rounds: seq<Round>, ghost before: JobState)
    returns (chunks: seq<seq<Byte>>, outcome: Option<Outcome>)
    requires job.Valid() && Inv(before) && before.lock.Free? && before.handler != Zombie
    requires job.View() == Opened(before, follow) && i == |before.readers|
    modifies job
    ensures job.Valid() && Leads(before, job.View())
    ensures StreamDone(before, job.View(), follow, rounds, chunks, outcome)
  {
    ghost var started := job.View();
    var r := new OutputReader(job, i);
    chunks, outcome := StreamLoop(r, follow, rounds);
    StreamResult(before, follow, job.View());
    if outcome.None? && (!follow || before.Done()) {
      ChunksAreFew(chunks, before.output);
    }
  }

  /** A job right after it has opened a reader. */
  ghost function Opened(j: JobState, follow: bool): JobState {
    j.(readers := j.readers + [NewReader(follow, |j.output|).(pc := Polling)],
       group := j.group + 1, logReaders := j.logReaders + 1)
  }

  lemma OpenedReader(j: JobState, follow: bool)
    requires j.lock.Free? && j.handler != Zombie
    ensures var k := Next(j, OpenLogs(follow, true));
            k.Some? && Next(k.value, CountReader) == Some(Opened(j, follow))
    ensures Run(j, [OpenLogs(follow, true), CountReader]) == Some(Opened(j, follow))
  {
    var k := Next(j, OpenLogs(follow, true)).value;
    CountedReader(j, follow);
    RunStep(j, [OpenLogs(follow, true), CountReader]);
    RunStep(k, [CountReader]);
    assert [OpenLogs(follow, true), CountReader][1..] == [CountReader] && [CountReader][1..] == [];
  }

  lemma CountedReader(j: JobState, follow: bool)
    requires j.lock.Free? && j.handler != Zombie
    ensures var k := Next(j, OpenLogs(follow, true));
            k.Some? && Next(k.value, CountReader) == Some(Opened(j, follow))
  {
    var k := Next(j, OpenLogs(follow, true)).value;
    assert Next(k, CountReader).value.readers == Opened(j, follow).readers;
  }

  /** The events of a call, counted from its opening section. */
  lemma StreamEvents(j: JobState, follow: bool, m: JobState) returns (fs: seq<Event>)
    requires j.lock.Free? && j.handler != Zombie && Drifts(Opened(j, follow), m)
    ensures Run(Next(j, OpenLogs(follow, true)).value, fs) == Some(m) && Leads(j, m)
  {
    OpenedReader(j, follow);
    var k := Next(j, OpenLogs(follow, true)).value;
    var es :| Run(Opened(j, follow), es) == Some(m);
    fs := [CountReader] + es;
    assert fs[1..] == es;
    RunStep(k, fs);
    var all := [OpenLogs(follow, true)] + fs;
    assert all[1..] == fs;
    RunStep(j, all);
  }

  lemma StreamEnds(m: JobState, i: nat)
    requires ExitInv(m) && StreamInv(m) && i < |m.readers|
    ensures var r := m.readers[i];
            && r.sent <= m.output
            && (r.outcome == Some(Finished) && r.follow ==> m.Done() && m.process.Reaped?)
  {
    assert StreamOk(m.readers[i], m.output, m.Done());
  }

  lemma StreamComplete(j: JobState, follow: bool, fs: seq<Event>)
    requires Inv(j) && j.lock.Free? && j.handler != Zombie && j.Done()
    requires Run(Next(j, OpenLogs(follow, true)).value, fs).Some?
    requires |j.readers| < |Run(Next(j, OpenLogs(follow, true)).value, fs).value.readers|
    requires var r := Run(Next(j, OpenLogs(follow, true)).value, fs).value.readers[|j.readers|];
             r.outcome == Some(Finished) && !r.readFailed
    ensures var m := Run(Next(j, OpenLogs(follow, true)).value, fs).value;
            m.readers[|j.readers|].sent == m.output == j.output
  {
    InvNext(j, OpenLogs(follow, true));
    DoneBeforeReadIsComplete(Next(j, OpenLogs(follow, true)).value, fs, |j.readers|);
  }

  /** The theorems about streams, for the run of one call. */
  lemma StreamResult(j: JobState, follow: bool, m: JobState)
    requires Inv(j) && j.lock.Free? && j.handler != Zombie && Inv(m)
    requires Drifts(Opened(j, follow), m) && |j.readers| < |m.readers|
    ensures var r := m.readers[|j.readers|];
            && Leads(j, m)
            && r.sent <= m.output
            && (r.outcome == Some(Finished) && !r.readFailed ==> j.output <= r.sent)
            && (r.outcome == Some(Finished) && r.follow ==> m.Done() && m.process.Reaped?)
            && (r.outcome == Some(Finished) && !r.readFailed && j.Done() ==> r.sent == m.output == j.output)
  {
    var fs := StreamEvents(j, follow, m);
    StreamEnds(m, |j.readers|);
    var r := m.readers[|j.readers|];
    if r.outcome == Some(Finished) && !r.readFailed {
      StreamSandwich(j, follow, fs);
      if j.Done() {
        StreamComplete(j, follow, fs);
      }
    }
  }
}
