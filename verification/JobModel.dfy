/** One job as a value, and the atomic steps that can change it.
 *
 * Every section that `pkg/job` runs under `stateLock` is one event, except where
 * the lock is held across something slow or observable: `Logs` is two events
 * (register with the wait group, then count the reader) and `Cleanup` is three
 * (take the lock, see the wait group at zero, remove the directory). Closing a
 * reader takes no lock and is three events. What the program does not decide
 * (signal results, file-system failures, chunk sizes, timer expiry, the process
 * itself) is a parameter of the event or an event of its own. */
module JobModel {

  newtype Byte = x: int | 0 <= x < 256

  datatype Option<+T> = None | Some(value: T)

  /** The five state handlers. */
  datatype Handler = Active | Stopping | Stopped | Ended | Zombie
  {
    function Rank(): nat {
      match this
      case Active => 0
      case Stopping => 1
      case Stopped => 2
      case Ended => 2
      case Zombie => 3
    }

    predicate Completed() {
      this != Active && this != Stopping
    }
  }

  datatype Signal = Term | Kill

  /** A call of `sendStopSignal`, and whether the system call succeeded. */
  datatype Attempt = Attempt(signal: Signal, delivered: bool)

  /** A `time.AfterFunc` timer: armed, or expired with its `Stop` call waiting for
   * `stateLock`, or over (cancelled, or its `Stop` has run). */
  datatype Timer = Pending | Queued | Over

  /** The process: running, or reaped by `cmd.Wait` with an exit code. */
  datatype Process = Running | Reaped(code: int)

  /** Whether `exited` has run, and the handler it found. */
  datatype Exit = Unhandled | Handled(at: Handler)

  /** Who is inside `stateLock` between two events. */
  datatype Lock = Free | Opening(reader: nat) | Cleaning(waited: bool)

  /** What `server.Logs` returned: nil, or one of its three error statuses. */
  datatype Outcome = Finished | Canceled | ReadFailed | SendFailed

  /** Where a log reader is: being created, in the four places of the streaming
   * loop, returned from the loop, and the three stages of `Close`. */
  datatype Pc =
    | Creating
    | Polling
    | Reading
    | Looking
    | Sending(chunk: seq<Byte>)
    | Returned
    | Dropped
    | FileClosed
    | Closed
  {
    predicate InLoop() {
      Polling? || Reading? || Looking? || Sending?
    }
  }

  /** A log reader with the streaming loop that owns it. `start` and `seen` are the
   * lengths of the output when the reader was created and at its last file read;
   * `doneSeen` tells whether `done` was closed at that read. */
  datatype Reader = Reader(
    follow: bool,
    cancelled: bool,
    pc: Pc,
    offset: nat,
    sent: seq<Byte>,
    outcome: Option<Outcome>,
    start: nat,
    seen: nat,
    doneSeen: bool,
    readFailed: bool)

  datatype ReaderEvent =
    | Poll
    | FileRead(n: nat)
    | FileEof
    | FileFail
    | Look
    | Send(ok: bool)
    | DropCount
    | CloseFile
    | LeaveGroup

  /** A job. `doneCloses` counts the calls of close(done); `attempts` and `purges`
   * record every signal sent and every call of RemoveAll. */
  datatype JobState = JobState(
    handler: Handler,
    lock: Lock,
    doneCloses: nat,
    stopTimer: Option<nat>,
    timers: seq<Timer>,
    group: int,
    logReaders: int,
    readers: seq<Reader>,
    process: Process,
    exit: Exit,
    output: seq<Byte>,
    attempts: seq<Attempt>,
    purges: nat)
  {
    predicate Done() {
      doneCloses > 0
    }

    ghost predicate Delivered(s: Signal) {
      Attempt(s, true) in attempts
    }
  }

  datatype Event =
    | InitStop(ok: bool)
    | ForceStop(ok: bool)
    | Expire(timer: nat)
    | TimerStop(timer: nat, ok: bool)
    | OpenLogs(follow: bool, ok: bool)
    | CountReader
    | BeginCleanup
    | ReadersGone
    | EndCleanup(ok: bool)
    | Reap(code: int)
    | HandleExit
    | Write(bytes: seq<Byte>)
    | Cancel(reader: nat)
    | Step(reader: nat, step: ReaderEvent)

  /** What happens to a job without an API call: timers, the process, log readers. */
  predicate Ambient(e: Event) {
    match e
    case Expire(_) => true
    case TimerStop(_, _) => true
    case CountReader => true
    case Reap(_) => true
    case HandleExit => true
    case Write(_) => true
    case Cancel(_) => true
    case Step(_, _) => true
    case _ => false
  }

  /** A job as `New` returns it. */
  const NEW_JOB: JobState :=
    JobState(Active, Free, 0, None, [], 0, 0, [], Running, Unhandled, [], [], 0)

  /** A reader as `logsReader` creates it. */
  function NewReader(follow: bool, length: nat): Reader {
    Reader(follow, false, Creating, 0, [], None, length, length, false, false)
  }

  function Leave(r: Reader, outcome: Outcome): Reader {
    r.(pc := Returned, outcome := Some(outcome))
  }

  /** One step of a reader, given the file content and whether `done` is closed.
   * None when the step is not possible where the reader is. */
  function ReaderNext(r: Reader, output: seq<Byte>, done: bool, e: ReaderEvent): Option<Reader> {
    match e
    case Poll =>
      if !r.pc.Polling? then None
      else if r.cancelled then Some(Leave(r, Canceled))
      else Some(r.(pc := Reading))
    case FileRead(n) =>
      if !r.pc.Reading? || n == 0 || r.offset + n > |output| then None
      else Some(r.(pc := Sending(output[r.offset..r.offset + n]), offset := r.offset + n,
                   seen := |output|, doneSeen := done))
    case FileEof =>
      if !r.pc.Reading? || r.offset < |output| then None
      else Some(r.(pc := Looking, seen := |output|, doneSeen := done))
    case FileFail =>
      if !r.pc.Reading? then None
      else Some(Leave(r, if r.follow then ReadFailed else Finished).(readFailed := true))
    case Look =>
      if !r.pc.Looking? then None
      else if !r.follow || done then Some(Leave(r, Finished))
      else Some(r.(pc := Sending([])))
    case Send(ok) =>
      if !r.pc.Sending? then None
      else if ok then Some(r.(pc := Polling, sent := r.sent + r.pc.chunk))
      else Some(Leave(r, SendFailed))
    case DropCount => if r.pc.Returned? then Some(r.(pc := Dropped)) else None
    case CloseFile => if r.pc.Dropped? then Some(r.(pc := FileClosed)) else None
    case LeaveGroup => if r.pc.FileClosed? then Some(r.(pc := Closed)) else None
  }

  /** `stopTimer.Stop()`: disarms the timer the job remembers, if it has not expired. */
  function CancelTimer(j: JobState): JobState {
    if j.stopTimer.Some? && j.stopTimer.value < |j.timers| && j.timers[j.stopTimer.value] == Pending
    then j.(timers := j.timers[j.stopTimer.value := Over])
    else j
  }

  function SendSignal(j: JobState, s: Signal, ok: bool): JobState {
    j.(attempts := j.attempts + [Attempt(s, ok)])
  }

  /** `Stop`, under the lock. */
  function Forced(j: JobState, ok: bool): JobState {
    match j.handler
    case Active =>
      SendSignal(j, Kill, ok).(handler := if ok then Stopped else Active)
    case Stopping =>
      SendSignal(CancelTimer(j), Kill, ok).(handler := if ok then Stopped else Stopping)
    case _ => j
  }

  /** `InitStop`, under the lock. The timer is armed before the signal is sent and
   * stays armed when sending fails. */
  function Graceful(j: JobState, ok: bool): JobState {
    if j.handler.Active? then
      SendSignal(j.(timers := j.timers + [Pending], stopTimer := Some(|j.timers|)), Term, ok)
        .(handler := if ok then Stopping else Active)
    else j
  }

  /** `exited`, under the lock. */
  function AfterExit(j: JobState): JobState {
    var k := j.(exit := Handled(j.handler));
    match j.handler
    case Active => k.(doneCloses := k.doneCloses + 1, handler := Ended)
    case Stopping => CancelTimer(k).(doneCloses := k.doneCloses + 1, handler := Stopped)
    case Stopped => k.(doneCloses := k.doneCloses + 1)
    case Ended => k
    case Zombie => k
  }

  /** A step of reader `i`; the three closing steps also touch the shared counters. */
  function ReaderStep(j: JobState, i: nat, e: ReaderEvent): Option<JobState> {
    if i >= |j.readers| then None
    else
      match ReaderNext(j.readers[i], j.output, j.Done(), e)
      case None => None
      case Some(r) =>
        var k := j.(readers := j.readers[i := r]);
        if e.DropCount? then Some(k.(logReaders := k.logReaders - 1))
        else if e.LeaveGroup? then Some(k.(group := k.group - 1))
        else Some(k)
  }

  /** The job after an event, or None when the event cannot happen. */
  function Next(j: JobState, e: Event): Option<JobState> {
    match e
    case InitStop(ok) => if j.lock.Free? then Some(Graceful(j, ok)) else None
    case ForceStop(ok) => if j.lock.Free? then Some(Forced(j, ok)) else None
    case Expire(t) =>
      if t < |j.timers| && j.timers[t].Pending? then Some(j.(timers := j.timers[t := Queued])) else None
    case TimerStop(t, ok) =>
      if j.lock.Free? && t < |j.timers| && j.timers[t].Queued?
      then Some(Forced(j.(timers := j.timers[t := Over]), ok)) else None
    case OpenLogs(follow, ok) =>
      if !j.lock.Free? then None
      else if j.handler.Zombie? || !ok then Some(j)
      else Some(j.(readers := j.readers + [NewReader(follow, |j.output|)],
                   group := j.group + 1, lock := Opening(|j.readers|)))
    case CountReader =>
      if j.lock.Opening? && j.lock.reader < |j.readers| && j.readers[j.lock.reader].pc.Creating?
      then Some(j.(readers := j.readers[j.lock.reader := j.readers[j.lock.reader].(pc := Polling)],
                   logReaders := j.logReaders + 1, lock := Free))
      else None
    case BeginCleanup =>
      if !j.lock.Free? then None
      else if j.handler.Zombie? then Some(j)
      else Some(j.(lock := Cleaning(false)))
    case ReadersGone =>
      if j.lock == Cleaning(false) && j.group == 0 then Some(j.(lock := Cleaning(true))) else None
    case EndCleanup(ok) =>
      if j.lock == Cleaning(true)
      then Some(j.(purges := j.purges + 1, lock := Free, handler := if ok then Zombie else j.handler))
      else None
    case Reap(code) => if j.process.Running? then Some(j.(process := Reaped(code))) else None
    case HandleExit =>
      if j.lock.Free? && j.process.Reaped? && j.exit.Unhandled? then Some(AfterExit(j)) else None
    case Write(bytes) => if j.process.Running? then Some(j.(output := j.output + bytes)) else None
    case Cancel(i) =>
      if i < |j.readers| && j.readers[i].outcome.None?
      then Some(j.(readers := j.readers[i := j.readers[i].(cancelled := true)])) else None
    case Step(i, step) => ReaderStep(j, i, step)
  }

  /** The job after a sequence of events, or None when one of them cannot happen. */
  function Run(j: JobState, es: seq<Event>): Option<JobState>
    decreases |es|
  {
    if es == [] then Some(j)
    else
      match Next(j, es[0])
      case None => None
      case Some(k) => Run(k, es[1..])
  }

  lemma {:induction false} RunConcat(j: JobState, es: seq<Event>, fs: seq<Event>)
    ensures Run(j, es + fs) ==
            match Run(j, es) { case None => None case Some(k) => Run(k, fs) }
    decreases |es|
  {
    if es == [] {
      assert es + fs == fs;
    } else {
      assert (es + fs)[0] == es[0] && (es + fs)[1..] == es[1..] + fs;
      match Next(j, es[0])
      case None =>
      case Some(k) => RunConcat(k, es[1..], fs);
    }
  }
}
