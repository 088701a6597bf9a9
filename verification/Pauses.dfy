/**
 The condition on PAUSE in the content theorems is needed: a disciplined run with
 realistic answers in which one PAUSE finds one byte counted, which brings a body
 thread to its start with that byte, and a file it then spoils.
 */
module Pauses {
  import opened Wrappers
  import opened Fsm
  import opened Downloaders
  import opened FreshStart
  import opened Transfer
  import opened Threads
  import opened Resuming
  import opened Servers
  import opened Paths
  import opened Reachability

  /** Disciplined, and the server plays fair. */
  predicate OtherwiseFair(w: World, ls: seq<Label>, remote: seq<byte>)
    decreases ls
  {
    ls == [] || (Allowed(w.d, ls[0]) && Realistic(w.d, ls[0], remote)
                 && OtherwiseFair(Step(false, w, ls[0]), ls[1..], remote))
  }

  lemma {:induction false} RealIsFair(w: World, ls: seq<Label>, remote: seq<byte>)
    requires RealisticRun(w, ls, remote)
    ensures OtherwiseFair(w, ls, remote)
    decreases ls
  {
    if ls != [] {
      RealIsFair(Step(false, w, ls[0]), ls[1..], remote);
    }
  }

  lemma {:induction false} OtherwiseFairConcat(w: World, a: seq<Label>, b: seq<Label>, remote: seq<byte>)
    requires OtherwiseFair(w, a, remote) && OtherwiseFair(Run(false, w, a), b, remote)
    ensures OtherwiseFair(w, a + b, remote) && Run(false, w, a + b) == Run(false, Run(false, w, a), b)
    decreases a
  {
    RunConcat(false, w, a, b);
    if a == [] {
      assert a + b == b;
    } else {
      assert (a + b)[1..] == a[1..] + b;
      OtherwiseFairConcat(Step(false, w, a[0]), a[1..], b, remote);
    }
  }

  lemma {:induction false} FairIsDisciplined(w: World, ls: seq<Label>, remote: seq<byte>)
    requires OtherwiseFair(w, ls, remote)
    ensures Disciplined(w, ls)
    decreases ls
  {
    if ls != [] {
      FairIsDisciplined(Step(false, w, ls[0]), ls[1..], remote);
    }
  }

  /** An event of the user and the turn that takes it. */
  lemma InjectionIsFair(w: World, e: Event, remote: seq<byte>)
    requires IsDriver(e) ==> Drivers(w.d) == 0
    ensures OtherwiseFair(w, [Inject(e), Turn], remote)
    ensures Run(false, w, [Inject(e), Turn]) == Step(false, Step(false, w, Inject(e)), Turn)
  {
    var w1 := Step(false, w, Inject(e));
    assert [Inject(e), Turn][1..] == [Turn] && [Turn][1..] == [];
    RunOne(false, w, Inject(e), [Turn]);
    RunOne(false, w1, Turn, []);
    assert OtherwiseFair(w1, [Turn], remote);
  }

  // ---------- the stretches ----------

  /** A range of at least two bytes of the remote file. */
  predicate Splittable(fd: Fd, disk: Disk, remote: seq<byte>) {
    && fd.Clean() && |fd.serverName| > 0 && fd.bytes == 0 && fd.IsPartial() && !fd.WholeFile()
    && disk.Some? && 0 <= fd.low < fd.high < |remote|
  }

  lemma StartIsFair(w: World, remote: seq<byte>)
    requires Initial(w.d)
    ensures OtherwiseFair(w, START, remote)
  {
    InjectionIsFair(w, Start, remote);
  }

  function UpToBody(remote: seq<byte>): seq<Label> {
    START + (AskLabels(remote) + (CONNECT + REPORT))
  }

  lemma ReachesBody(w: World, remote: seq<byte>)
    requires Initial(w.d) && Splittable(w.d.fd, w.disk, remote)
    ensures OtherwiseFair(w, UpToBody(remote), remote)
    ensures var w' := Run(false, w, UpToBody(remote));
            w'.disk == w.disk
            && At(w'.d, FdInProgress, w.d.fd.(fileSize := |remote|, sock := 3, downloader := Some(BodySend)), [])
  {
    var fd := w.d.fd;
    Starts(w);
    StartIsFair(w, remote);
    var w1 := Run(false, w, START);
    LearnsSize(w1, fd, remote);
    RealIsFair(w1, AskLabels(remote), remote);
    var w2 := Run(false, w1, AskLabels(remote));
    ConnectsAndReports(w2, FdConnectInProgress, fd.(fileSize := |remote|));
    ConnectIsReal(w2, remote);
    RealIsFair(w2, CONNECT + REPORT, remote);
    OtherwiseFairConcat(w1, AskLabels(remote), CONNECT + REPORT, remote);
    OtherwiseFairConcat(w, START, AskLabels(remote) + (CONNECT + REPORT), remote);
  }

  lemma OpensRange(w: World, x: int, remote: seq<byte>) returns (ls: seq<Label>)
    requires w.d.fault == NoFault && w.d.fd.downloader == Some(BodySend) && w.d.fd.bytes == 0
    requires w.d.fd.IsPartial() && w.disk.Some? && 0 <= w.d.fd.low && x == w.d.fd.GetFileSize()
    ensures RealisticRun(w, ls, remote)
    ensures Run(false, w, ls) == Standing(w, BodyFirst(x, true, w.d.fd.low))
  {
    Sends(w, true);
    var w1 := Standing(w, BodyOpen(x, true));
    Opens(w1, x, true);
    RunOne(false, w, DownloaderStep(WriteOk), [DownloaderStep(OpenOk)]);
    RunOne(false, w1, DownloaderStep(OpenOk), []);
    assert [DownloaderStep(WriteOk)] + [DownloaderStep(OpenOk)]
           == [DownloaderStep(WriteOk), DownloaderStep(OpenOk)];
    ls := [DownloaderStep(WriteOk), DownloaderStep(OpenOk)];
    SilentIsReal(w, ls, remote);
  }

  lemma TakesByte(w: World, x: int, b: byte, remote: seq<byte>) returns (ls: seq<Label>)
    requires w.d.fault == NoFault && w.d.fd.bytes == 0 && 0 <= w.d.fd.low && !w.d.fd.WholeFile()
    requires w.d.fd.downloader == Some(BodyFirst(x, w.d.fd.IsPartial(), w.d.fd.low))
    requires Sent(remote, w.d.fd.low, w.d.fd.high - w.d.fd.low + 1, 0, [b])
    ensures RealisticRun(w, ls, remote) && Run(false, w, ls) == FirstTaken(w, x, w.d.fd.low, [b])
  {
    ls := [DownloaderStep(FirstOutcome(Accepted(w.d.fd, [b]))), DownloaderStep(Proceed), DownloaderStep(Proceed)];
    FirstIsReal(w, x, w.d.fd.low, [b], [], remote);
    FirstAccepted(w, x, w.d.fd.low, Accepted(w.d.fd, [b]));
    RunsThree(w, ls[0], ls[1], ls[2]);
    assert ls + [] == ls;
  }

  lemma RealThen(w: World, a: seq<Label>, b: seq<Label>, w1: World, w2: World, remote: seq<byte>)
    requires RealisticRun(w, a, remote) && Run(false, w, a) == w1
    requires RealisticRun(w1, b, remote) && Run(false, w1, b) == w2
    ensures RealisticRun(w, a + b, remote) && Run(false, w, a + b) == w2
  {
    RunConcat(false, w, a, b);
    RealConcat(w, a, b, remote);
  }

  lemma OneByteSent(remote: seq<byte>, low: nat, size: int)
    requires low < |remote| && size >= 1
    ensures Sent(remote, low, size, 0, [remote[low]])
  {
  }

  lemma StandsFirst(w: World, x: int)
    requires w.d.fault == NoFault && w.d.fd.bytes == 0 && w.d.fd.IsPartial() && 0 <= w.d.fd.low
    ensures var d := Standing(w, BodyFirst(x, true, w.d.fd.low)).d;
            && d.fault == NoFault && d.fd.bytes == 0 && d.fd.IsPartial() && d.fd.WholeFile() == w.d.fd.WholeFile()
            && d.fd.low == w.d.fd.low && d.fd.high == w.d.fd.high
            && d.fd.downloader == Some(BodyFirst(x, d.fd.IsPartial(), d.fd.low))
  {
  }

  /** A body thread takes one byte of its range. */
  lemma FirstByteRuns(w: World, remote: seq<byte>) returns (ls: seq<Label>)
    requires w.d.fault == NoFault && w.d.fd.downloader == Some(BodySend) && w.d.fd.bytes == 0
    requires w.d.fd.IsPartial() && !w.d.fd.WholeFile() && w.disk.Some?
    requires 0 <= w.d.fd.low < w.d.fd.high < |remote|
    ensures RealisticRun(w, ls, remote)
    ensures var fd := w.d.fd;
            var x := fd.high - fd.low + 1;
            Run(false, w, ls) == FirstTaken(Standing(w, BodyFirst(x, true, fd.low)), x, fd.low, [remote[fd.low]])
  {
    var x := w.d.fd.high - w.d.fd.low + 1;
    var w1 := Standing(w, BodyFirst(x, true, w.d.fd.low));
    var open := OpensRange(w, x, remote);
    OneByteSent(remote, w.d.fd.low, x);
    StandsFirst(w, x);
    var take := TakesByte(w1, x, remote[w.d.fd.low], remote);
    RealThen(w, open, take, w1, FirstTaken(w1, x, w.d.fd.low, [remote[w.d.fd.low]]), remote);
    ls := open + take;
  }

  lemma TakenAt(w: World, fd: Fd, x: int, b: byte)
    requires 0 <= fd.low && At(w.d, FdInProgress, fd.(downloader := Some(BodySend)), [])
    ensures var w' := FirstTaken(Standing(w, BodyFirst(x, true, fd.low)), x, fd.low, [b]);
            w'.disk == Put(w.disk, fd.low, [b])
            && At(w'.d, FdInProgress, fd.(bytes := 1, downloader := Some(BodyRead(x, fd.low + 1, 1))), [])
  {
  }

  lemma CountsOne(w: World, fd: Fd, remote: seq<byte>) returns (ls: seq<Label>)
    requires fd.sock == 3 && fd.bytes == 0 && fd.IsPartial() && !fd.WholeFile() && w.disk.Some?
    requires 0 <= fd.low < fd.high < |remote|
    requires At(w.d, FdInProgress, fd.(downloader := Some(BodySend)), [])
    ensures OtherwiseFair(w, ls, remote)
    ensures var w' := Run(false, w, ls);
            var x := fd.high - fd.low + 1;
            w'.disk == Put(w.disk, fd.low, [remote[fd.low]])
            && At(w'.d, FdInProgress, fd.(bytes := 1, downloader := Some(BodyRead(x, fd.low + 1, 1))), [])
  {
    ls := FirstByteRuns(w, remote);
    RealIsFair(w, ls, remote);
    TakenAt(w, fd, fd.high - fd.low + 1, remote[fd.low]);
  }

  lemma PausesNow(w: World, fd: Fd, t: Worker, remote: seq<byte>)
    requires fd.sock == 3 && fd.connector.None? && At(w.d, FdInProgress, fd.(downloader := Some(t)), [])
    ensures OtherwiseFair(w, [Inject(Pause), Turn], remote)
    ensures var w' := Run(false, w, [Inject(Pause), Turn]);
            w'.disk == w.disk && At(w'.d, FdSuspended, fd.(sock := -1, downloader := None), [])
  {
    assert w.d.queue + [Pause] == [Pause];
    InjectionIsFair(w, Pause, remote);
  }

  lemma ResumesNow(w: World, fd: Fd, remote: seq<byte>)
    requires fd.Clean() && |fd.serverName| > 0 && At(w.d, FdSuspended, fd, [])
    ensures OtherwiseFair(w, [Inject(Resume), Turn], remote)
    ensures var w' := Run(false, w, [Inject(Resume), Turn]);
            w'.disk == w.disk && At(w'.d, FdConnectInProgress, fd.(connector := Some(CallSocket)), [])
  {
    assert w.d.queue + [Resume] == [Resume];
    InjectionIsFair(w, Resume, remote);
  }

  const PAUSE: seq<Label> := [Inject(Pause), Turn]
  const RESUME: seq<Label> := [Inject(Resume), Turn]

  /** From a body thread to the next one. */
  lemma PausesAndResumes(w: World, fd: Fd, t: Worker, remote: seq<byte>)
    requires fd.sock == 3 && fd.connector.None? && fd.downloader.None? && |fd.serverName| > 0
    requires At(w.d, FdInProgress, fd.(downloader := Some(t)), [])
    ensures OtherwiseFair(w, PAUSE + (RESUME + (CONNECT + REPORT)), remote)
    ensures var w' := Run(false, w, PAUSE + (RESUME + (CONNECT + REPORT)));
            w'.disk == w.disk && At(w'.d, FdInProgress, fd.(downloader := Some(BodySend)), [])
  {
    var idle := fd.(sock := -1);
    PausesNow(w, fd, t, remote);
    var w1 := Run(false, w, PAUSE);
    ResumesNow(w1, idle, remote);
    var w2 := Run(false, w1, RESUME);
    ConnectsAndReports(w2, FdConnectInProgress, idle);
    ConnectIsReal(w2, remote);
    RealIsFair(w2, CONNECT + REPORT, remote);
    OtherwiseFairConcat(w1, RESUME, CONNECT + REPORT, remote);
    OtherwiseFairConcat(w, PAUSE, RESUME + (CONNECT + REPORT), remote);
  }

  // ---------- the run ----------

  /** From every fresh object with a range of at least two bytes: one byte arrives, the
      user pauses and resumes, and a body thread stands at its start with a byte
      counted, neither none nor all of them. */
  lemma ResumedThreadIsReached(w: World, remote: seq<byte>) returns (ls: seq<Label>)
    requires Initial(w.d) && Splittable(w.d.fd, w.disk, remote)
    ensures OtherwiseFair(w, ls, remote) && Disciplined(w, ls) && !GentleRun(w, ls)
    ensures var w' := Run(false, w, ls);
            && w'.disk == Put(w.disk, w.d.fd.low, [remote[w.d.fd.low]])
            && At(w'.d, FdInProgress,
                  w.d.fd.(fileSize := |remote|, sock := 3, bytes := 1, downloader := Some(BodySend)), [])
            && 0 < w'.d.fd.bytes < w'.d.fd.GetFileSize()
  {
    var fd := w.d.fd.(fileSize := |remote|, sock := 3);
    var rest := PAUSE + (RESUME + (CONNECT + REPORT));
    ReachesBody(w, remote);
    var w1 := Run(false, w, UpToBody(remote));
    var first := CountsOne(w1, fd, remote);
    var w2 := Run(false, w1, first);
    PausesAndResumes(w2, fd.(bytes := 1), BodyRead(fd.high - fd.low + 1, fd.low + 1, 1), remote);
    OtherwiseFairConcat(w1, first, rest, remote);
    OtherwiseFairConcat(w, UpToBody(remote), first + rest, remote);
    ls := UpToBody(remote) + (first + rest);
    FairIsDisciplined(w, ls, remote);
    CountedIsRough(w, ls);
  }

  /** A body thread at its start with a byte counted has a rough PAUSE behind it. */
  lemma CountedIsRough(w: World, ls: seq<Label>)
    requires Initial(w.d) && Disciplined(w, ls)
    requires var d := Run(false, w, ls).d;
             d.state == FdInProgress && d.fd.downloader == Some(BodySend) && d.fd.bytes > 0
    ensures !GentleRun(w, ls)
  {
    WorkersStartFresh(w, ls);
  }

  /** A thread that resumes on a file of zeros, for a remote file of zeros: a complete
      honest answer leaves its range wrong. */
  lemma ResumedThreadSpoils(w: World) returns (first: First, rs: seq<Read>)
    requires w.d.fault == NoFault && w.d.fd.downloader == Some(BodySend)
    requires Within(w.d.fd) && 0 < w.d.fd.bytes < w.d.fd.GetFileSize()
    requires w.disk == Some(Zeros(w.d.fd.high + 1))
    ensures HonestAnswer(w.d.fd, Zeros(w.d.fd.high + 1), HEADER, first, rs, true)
    ensures var w' := Run(false, w, BodyScript(w.d.fd, w.disk, true, true, first, rs));
            && w'.d.fd.downloader.Some? && w'.d.fd.downloader.value.Firing?
            && !OwnRangeRight(w.d.fd, Zeros(w.d.fd.high + 1),
                              Received(w'.d.fd.bytes, w'.disk, w'.d.fd.downloader.value.event))
  {
    first, rs := AnswerOnZeros(w.d.fd, true);
    ResumeGoesWrong(w.d.fd, first, rs);
    StepsRunBodyThread(w, true, true, first, rs);
  }

  /** The two together: a fresh object, a remote file of zeros that is already on disk,
      and a run that is fair but for its PAUSE, up to a thread that spoils the file. */
  lemma PauseSpoilsTheFile(w: World) returns (ls: seq<Label>, first: First, rs: seq<Read>)
    requires Initial(w.d) && w.d.fd.high >= 0 && w.disk == Some(Zeros(w.d.fd.high + 1))
    requires Splittable(w.d.fd, w.disk, Zeros(w.d.fd.high + 1))
    ensures OtherwiseFair(w, ls, Zeros(w.d.fd.high + 1)) && Disciplined(w, ls)
    ensures var remote := Zeros(w.d.fd.high + 1);
            var w1 := Run(false, w, ls);
            var w2 := Run(false, w1, BodyScript(w1.d.fd, w1.disk, true, true, first, rs));
            && 0 <= w1.d.fd.low <= w1.d.fd.high < |remote| && w1.disk == w.disk
            && HonestAnswer(w1.d.fd, remote, HEADER, first, rs, true)
            && w2.d.fd.downloader.Some? && w2.d.fd.downloader.value.Firing?
            && !OwnRangeRight(w1.d.fd, remote,
                              Received(w2.d.fd.bytes, w2.disk, w2.d.fd.downloader.value.event))
  {
    ls := ResumedThreadIsReached(w, Zeros(w.d.fd.high + 1));
    ZeroOnZeros(w.d.fd.high + 1, w.d.fd.low);
    var w1 := Run(false, w, ls);
    assert w1.disk == w.disk && Within(w1.d.fd);
    first, rs := ResumedThreadSpoils(w1);
  }

  lemma ZeroOnZeros(n: nat, pos: nat)
    requires pos < n
    ensures Overwrite(Zeros(n), pos, [Zeros(n)[pos]]) == Zeros(n)
  {
  }
}
