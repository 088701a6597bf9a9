/**
 A download without a range: one downloader asks for the size with HEAD, carries it
 over to the body phase, and rewrites the file from the start. In FD_FINISHED the
 file is the remote one; after an error nothing is left behind.
 */
module WholeFile {
  import opened Wrappers
  import opened Fsm
  import opened Downloaders
  import opened Invariant
  import opened FreshStart
  import opened Servers

  predicate HeadReported(d: Downloader) {
    || (d.fd.downloader.Some? && d.fd.downloader.value == Firing(HeadRole, Finished))
    || DriversIn(d.queue) == [Finished]
  }

  predicate SizeKnown(d: Downloader) {
    match d.state
    case HeadGetResponseAwait => HeadReported(d)
    case FdConnectInProgress => true
    case FdConnected => true
    case FdConnectionFailed => true
    case FdInProgress => true
    case FdSuspended => true
    case FdFinished => true
    case _ => false
  }

  /** The file is the first n remote bytes. */
  predicate Has(disk: Disk, remote: seq<byte>, n: nat) {
    n <= |remote| && disk == Some(remote[..n])
  }

  predicate WholeThread(fd: Fd, t: Worker, disk: Disk, remote: seq<byte>, reported: bool) {
    match t
    case BodyFirst(_, _, fpos) => fpos == 0 && Has(disk, remote, 0)
    case BodyRead(_, fpos, got) => fpos == fd.bytes && got == fd.bytes && Has(disk, remote, got)
    case BodyPut(_, fpos, got, data, _) =>
      fpos == fd.bytes && got == fd.bytes + |data|
      && Has(disk, remote, fd.bytes) && Sent(remote, 0, |remote|, fd.bytes, data)
    case BodyCount(_, fpos, got, k, _) => fpos == fd.bytes + k && got == fpos && Has(disk, remote, got)
    case Firing(_, e) => e == Finished ==> Has(disk, remote, fd.bytes)
    case Done => reported ==> Has(disk, remote, fd.bytes)
    case _ => true
  }

  predicate WholeContent(w: World, remote: seq<byte>) {
    var d := w.d;
    && d.fd.WholeFile() && !d.fd.IsPartial()
    && (SizeKnown(d) ==> d.fd.fileSize == |remote|)
    && (d.state == FdInProgress && d.fd.downloader.Some?
        ==> WholeThread(d.fd, d.fd.downloader.value, w.disk, remote, DriversIn(d.queue) == [Finished]))
    && (d.state == FdFinished ==> w.disk == Some(remote))
    && (d.state == ErrorState ==> w.disk == None)
  }

  // ---------- steps ----------

  lemma Append(remote: seq<byte>, n: nat, data: seq<byte>)
    requires Sent(remote, 0, |remote|, n, data)
    ensures remote[..n] + data == remote[..n + |data|]
    ensures Overwrite(remote[..n], n, data) == remote[..n + |data|]
  {
  }

  lemma WriteKeepsWhole(w: World, t: Worker, remote: seq<byte>)
    requires w.d.state == FdInProgress && w.d.fd.downloader == Some(t) && t.BodyPut?
    requires WholeContent(w, remote)
    ensures var (w', t') := RunWorker(w, t, Proceed); WholeThread(w'.d.fd, t', w'.disk, remote, false)
  {
    Append(remote, w.d.fd.bytes, t.data);
  }

  lemma OpenKeepsWhole(w: World, t: Worker, o: Outcome, remote: seq<byte>)
    requires w.d.state == FdInProgress && w.d.fd.downloader == Some(t) && (t.BodySend? || t.BodyOpen?)
    requires BodyWorker(w.d.fd, t) && w.d.fd.bytes == 0 && WholeContent(w, remote)
    ensures var (w', t') := RunWorker(w, t, o); WholeThread(w'.d.fd, t', w'.disk, remote, false)
  {
  }

  lemma ReadKeepsWhole(w: World, t: Worker, o: Outcome, remote: seq<byte>)
    requires w.d.state == FdInProgress && w.d.fd.downloader == Some(t) && (t.BodyFirst? || t.BodyRead?)
    requires BodyWorker(w.d.fd, t) && (BeforeCount(t) ==> w.d.fd.bytes == 0)
    requires WholeContent(w, remote) && WholeHonest(w.d, DownloaderStep(o), remote)
    ensures var (w', t') := RunWorker(w, t, o); WholeThread(w'.d.fd, t', w'.disk, remote, false)
  {
  }

  lemma CountKeepsWhole(w: World, t: Worker, o: Outcome, remote: seq<byte>)
    requires w.d.state == FdInProgress && w.d.fd.downloader == Some(t) && t.BodyCount?
    requires WholeContent(w, remote)
    ensures var (w', t') := RunWorker(w, t, o); WholeThread(w'.d.fd, t', w'.disk, remote, false)
  {
  }

  lemma BodyStepKeepsWhole(w: World, t: Worker, o: Outcome, remote: seq<byte>)
    requires w.d.state == FdInProgress && w.d.fd.downloader == Some(t) && !t.Firing? && !t.Done?
    requires BodyWorker(w.d.fd, t) && (BeforeCount(t) ==> w.d.fd.bytes == 0)
    requires WholeContent(w, remote) && WholeHonest(w.d, DownloaderStep(o), remote)
    ensures var (w', t') := RunWorker(w, t, o); WholeThread(w'.d.fd, t', w'.disk, remote, false)
  {
    match t {
      case BodySend => OpenKeepsWhole(w, t, o, remote);
      case BodyOpen(_, _) => OpenKeepsWhole(w, t, o, remote);
      case BodyFirst(_, _, _) => ReadKeepsWhole(w, t, o, remote);
      case BodyRead(_, _, _) => ReadKeepsWhole(w, t, o, remote);
      case BodyPut(_, _, _, _, _) => if o == Proceed { WriteKeepsWhole(w, t, remote); }
      case BodyCount(_, _, _, _, _) => CountKeepsWhole(w, t, o, remote);
    }
  }

  /** A body thread that has moved. */
  lemma BodyMovedKeepsWhole(w: World, r: (World, Worker), remote: seq<byte>)
    requires WholeContent(w, remote) && w.d.state == FdInProgress && !r.1.Done?
    requires r.0.d.state == w.d.state
    requires r.0.d.fd.low == w.d.fd.low && r.0.d.fd.high == w.d.fd.high && r.0.d.fd.flags == w.d.fd.flags
    requires r.0.d.fd.fileSize == w.d.fd.fileSize
    requires WholeThread(r.0.d.fd, r.1, r.0.disk, remote, false)
    ensures WholeContent(DownloaderAt(r), remote)
  {
  }

  /** A HEAD thread that has moved: when it is about to report, the size is known. */
  lemma HeadMovedKeepsWhole(w: World, r: (World, Worker), remote: seq<byte>)
    requires WholeContent(w, remote) && (w.d.state == HeadGetResponseAwait || w.d.state == FdCancelled)
    requires DriversIn(w.d.queue) != [Finished]
    requires r.0.d.state == w.d.state && r.0.d.queue == w.d.queue
    requires r.0.d.fd.low == w.d.fd.low && r.0.d.fd.high == w.d.fd.high && r.0.d.fd.flags == w.d.fd.flags
    requires w.d.state == HeadGetResponseAwait && r.1 == Firing(HeadRole, Finished) ==> r.0.d.fd.fileSize == |remote|
    ensures WholeContent(DownloaderAt(r), remote)
  {
  }

  lemma HeadLearnsSize(w: World, t: Worker, o: Outcome, remote: seq<byte>)
    requires w.d.fd.downloader == Some(t) && HeadWorker(t) && !t.Firing? && !t.Done?
    requires WholeHonest(w.d, DownloaderStep(o), remote)
    ensures var (w', t') := RunWorker(w, t, o);
            && (t' == Firing(HeadRole, Finished) ==> w'.d.fd.fileSize == |remote|)
            && w'.d.fd.low == w.d.fd.low && w'.d.fd.high == w.d.fd.high && w'.d.fd.flags == w.d.fd.flags
            && w'.d.state == w.d.state && w'.d.queue == w.d.queue
  {
  }

  lemma DoneStays(w: World, o: Outcome)
    requires w.d.fd.downloader == Some(Done)
    ensures Step(false, w, DownloaderStep(o)) == w
  {
  }

  lemma DownloaderKeepsWhole(w: World, o: Outcome, remote: seq<byte>)
    requires Shape(w.d) && Fresh(w.d) && WholeContent(w, remote) && WholeHonest(w.d, DownloaderStep(o), remote)
    requires w.d.fd.downloader.Some? && !w.d.fd.downloader.value.Firing? && !w.d.fd.downloader.value.Done?
    ensures WholeContent(Step(false, w, DownloaderStep(o)), remote)
  {
    var t := w.d.fd.downloader.value;
    DownloaderMoves(false, w, t, o);
    WorkerFrame(w, t, o);
    if w.d.state == FdInProgress {
      BodyStepKeepsWhole(w, t, o, remote);
      BodyMovedKeepsWhole(w, RunWorker(w, t, o), remote);
    } else {
      HeadLearnsSize(w, t, o, remote);
      HeadMovedKeepsWhole(w, RunWorker(w, t, o), remote);
    }
  }

  lemma QueuedAfterFiring(d: Downloader, e: Event)
    requires DriversIn(d.queue) == [] && IsDriver(e)
    ensures DriversIn(d.queue + [e]) == [Finished] <==> e == Finished
  {
    DriversAppend(d.queue, e);
    assert [] + [e] == [e];
    assert [e] == [Finished] ==> [e][0] == Finished;
  }

  lemma HeadFiringKeepsWhole(w: World, remote: seq<byte>)
    requires Shape(w.d) && WholeContent(w, remote)
    requires w.d.state == HeadGetResponseAwait && w.d.fd.downloader.value.Firing?
    ensures WholeContent(Step(false, w, DownloaderStep(Proceed)), remote)
  {
    DownloaderMoves(false, w, w.d.fd.downloader.value, Proceed);
    QueuedAfterFiring(w.d, w.d.fd.downloader.value.event);
  }

  lemma BodyFiringKeepsWhole(w: World, remote: seq<byte>)
    requires Shape(w.d) && WholeContent(w, remote)
    requires w.d.state == FdInProgress && w.d.fd.downloader.value.Firing?
    ensures WholeContent(Step(false, w, DownloaderStep(Proceed)), remote)
  {
    DownloaderMoves(false, w, w.d.fd.downloader.value, Proceed);
    QueuedAfterFiring(w.d, w.d.fd.downloader.value.event);
  }

  /** While a connector runs there is no body thread, and the size stays known. */
  lemma ConnectorMovedKeepsWhole(w: World, r: (World, Worker), remote: seq<byte>)
    requires Shape(w.d) && WholeContent(w, remote) && w.d.fd.connector.Some?
    requires r.0.disk == w.disk && r.0.d.state == w.d.state && r.0.d.fd.fileSize == w.d.fd.fileSize
    requires r.0.d.fd.low == w.d.fd.low && r.0.d.fd.high == w.d.fd.high && r.0.d.fd.flags == w.d.fd.flags
    ensures WholeContent(ConnectorAt(r), remote)
  {
  }

  lemma ConnectorKeepsWhole(w: World, o: Outcome, remote: seq<byte>)
    requires Shape(w.d) && WholeContent(w, remote) && w.d.fd.connector.Some?
    ensures WholeContent(Step(false, w, ConnectorStep(o)), remote)
  {
    var t := w.d.fd.connector.value;
    ConnectorMoves(false, w, t, o);
    OthersKeepTransfer(w, t, o);
    ConnectorMovedKeepsWhole(w, RunWorker(w, t, o), remote);
  }

  /** What the turn does to the file: nothing, or it is removed. */
  lemma ActOnFile(a: Action, w: World)
    requires !w.d.fd.IsPartial()
    ensures var w' := Act(a, w);
            && w'.d.fd.fileSize == w.d.fd.fileSize
            && (if a == Cleanup || a == HandOver || a == HeadLost || a == CleanupAndConnect
                then w'.disk == None else w'.disk == w.disk)
  {
  }

  lemma SkippedTurnKeepsWhole(w: World, remote: seq<byte>)
    requires Shape(w.d) && WholeContent(w, remote)
    requires w.d.queue != [] && Table(w.d.state, w.d.queue[0]).NA?
    ensures WholeContent(Listen(false, w), remote)
  {
    PopFacts(w.d);
  }

  /** FINISHED ends HEAD_GET_RESPONSE_AWAIT with the size, FD_IN_PROGRESS with the file. */
  lemma FinishedTurn(w: World, remote: seq<byte>)
    requires Shape(w.d) && WholeContent(w, remote)
    requires w.d.queue != [] && w.d.queue[0] == Finished
    ensures w.d.state == HeadGetResponseAwait ==> w.d.fd.fileSize == |remote|
    ensures w.d.state == FdInProgress ==> w.disk == Some(remote) && w.d.fd.fileSize == |remote|
  {
    PopFacts(w.d);
    if w.d.state == FdInProgress {
      assert remote[..|remote|] == remote;
    }
  }

  lemma EndKeepsWhole(a: Action, w: World, remote: seq<byte>)
    requires Before(a, w.d) && (a == Cleanup || a == LeaveRunning || a == Finish) && Terminal(w.d.state)
    requires w.d.fd.WholeFile() && !w.d.fd.IsPartial()
    requires a == Finish ==> w.disk == Some(remote) && w.d.fd.fileSize == |remote|
    ensures WholeContent(Act(a, w), remote)
  {
    match a {
      case Cleanup =>
      case LeaveRunning =>
      case Finish =>
    }
  }

  lemma TerminalEntries(s: State, e: Event, a: Action, next: State)
    requires Table(s, e) == Go(a, next) && Terminal(next)
    ensures a == Cleanup || a == LeaveRunning || a == Finish
    ensures a == Finish ==> s == FdInProgress && e == Finished
  {
  }

  lemma TerminalTurnKeepsWhole(w: World, remote: seq<byte>)
    requires Shape(w.d) && WholeContent(w, remote)
    requires w.d.queue != [] && Table(w.d.state, w.d.queue[0]).Go? && Terminal(Table(w.d.state, w.d.queue[0]).next)
    ensures WholeContent(Listen(false, w), remote)
  {
    var Go(a, next) := Table(w.d.state, w.d.queue[0]);
    TerminalEntries(w.d.state, w.d.queue[0], a, next);
    TurnFinds(w, a, next);
    TakenTurn(false, w, a, next);
    if a == Finish {
      FinishedTurn(w, remote);
    }
    EndKeepsWhole(a, Entered(w, next), remote);
  }

  lemma SpawningTurnKeepsWhole(w: World, remote: seq<byte>)
    requires Shape(w.d) && WholeContent(w, remote)
    requires w.d.queue != [] && Table(w.d.state, w.d.queue[0]).Go?
    requires Table(w.d.state, w.d.queue[0]).next in {FdInProgress, HeadGetResponseAwait}
    ensures WholeContent(Listen(false, w), remote)
  {
    var Go(a, next) := Table(w.d.state, w.d.queue[0]);
    assert a == SendHeadRequest || a == StartDownload;
    assert a == StartDownload ==> w.d.state == FdConnected;
    TurnFinds(w, a, next);
    TakenTurn(false, w, a, next);
    SpawnKeepsWhole(a, Entered(w, next), remote);
  }

  lemma SpawnKeepsWhole(a: Action, w: World, remote: seq<byte>)
    requires Before(a, w.d) && (a == SendHeadRequest || a == StartDownload)
    requires w.d.fd.WholeFile() && !w.d.fd.IsPartial() && (a == StartDownload ==> w.d.fd.fileSize == |remote|)
    ensures WholeContent(Act(a, w), remote)
  {
  }

  lemma OtherTurnKeepsWhole(w: World, remote: seq<byte>)
    requires Shape(w.d) && WholeContent(w, remote)
    requires w.d.queue != [] && Table(w.d.state, w.d.queue[0]).Go?
    requires !Terminal(Table(w.d.state, w.d.queue[0]).next)
    requires Table(w.d.state, w.d.queue[0]).next !in {FdInProgress, HeadGetResponseAwait}
    ensures WholeContent(Listen(false, w), remote)
  {
    var Go(a, next) := Table(w.d.state, w.d.queue[0]);
    TakenTurn(false, w, a, next);
    ActWrites(a, Entered(w, next));
    ActKeepsTransfer(a, Entered(w, next));
    ActOnFile(a, Entered(w, next));
    if w.d.queue[0] == Finished {
      FinishedTurn(w, remote);
    }
  }

  lemma StepKeepsWhole(w: World, l: Label, remote: seq<byte>)
    requires Inv(w.d) && Fresh(w.d) && WholeContent(w, remote)
    requires Allowed(w.d, l) && WholeHonest(w.d, l, remote)
    ensures WholeContent(Step(false, w, l), remote)
  {
    match l {
      case Turn =>
        if w.d.queue != [] {
          match Table(w.d.state, w.d.queue[0]) {
            case NA => SkippedTurnKeepsWhole(w, remote);
            case Go(_, next) =>
              if Terminal(next) {
                TerminalTurnKeepsWhole(w, remote);
              } else if next in {FdInProgress, HeadGetResponseAwait} {
                SpawningTurnKeepsWhole(w, remote);
              } else {
                OtherTurnKeepsWhole(w, remote);
              }
          }
        }
      case ConnectorStep(o) => if w.d.fd.connector.Some? { ConnectorKeepsWhole(w, o, remote); }
      case DownloaderStep(o) => if w.d.fd.downloader.Some? { ThreadStepKeepsWhole(w, o, remote); }
      case Inject(e) => InjectKeepsWhole(w, e, remote);
    }
  }

  lemma ThreadStepKeepsWhole(w: World, o: Outcome, remote: seq<byte>)
    requires Inv(w.d) && Fresh(w.d) && WholeContent(w, remote)
    requires w.d.fd.downloader.Some? && WholeHonest(w.d, DownloaderStep(o), remote)
    ensures WholeContent(Step(false, w, DownloaderStep(o)), remote)
  {
    var t := w.d.fd.downloader.value;
    if t.Done? {
      DoneStays(w, o);
    } else if !t.Firing? {
      DownloaderKeepsWhole(w, o, remote);
    } else if o != Proceed {
      DownloaderIdle(false, w, o);
    } else if w.d.state == FdInProgress {
      BodyFiringKeepsWhole(w, remote);
    } else if w.d.state == HeadGetResponseAwait {
      HeadFiringKeepsWhole(w, remote);
    }
  }

  lemma InjectKeepsWhole(w: World, e: Event, remote: seq<byte>)
    requires Shape(w.d) && WholeContent(w, remote) && (IsDriver(e) ==> Drivers(w.d) == 0)
    ensures WholeContent(Step(false, w, Inject(e)), remote)
  {
    DriversAppend(w.d.queue, e);
    ShapeDrivers(w.d);
  }

  // ---------- runs ----------

  predicate FairWholeRun(w: World, ls: seq<Label>, remote: seq<byte>)
    decreases ls
  {
    ls == [] || (Allowed(w.d, ls[0]) && GentlePause(w.d, ls[0]) && WholeHonest(w.d, ls[0], remote)
                 && FairWholeRun(Step(false, w, ls[0]), ls[1..], remote))
  }

  predicate WholeInv(w: World, remote: seq<byte>) {
    Inv(w.d) && Fresh(w.d) && WholeContent(w, remote)
  }

  lemma {:induction false} RunKeepsWhole(w: World, ls: seq<Label>, remote: seq<byte>)
    requires WholeInv(w, remote) && FairWholeRun(w, ls, remote)
    ensures WholeInv(Run(false, w, ls), remote)
    decreases ls
  {
    if ls != [] {
      StepKeeps(w, ls[0]);
      StepKeepsFresh(w, ls[0]);
      StepKeepsWhole(w, ls[0], remote);
      RunKeepsWhole(Step(false, w, ls[0]), ls[1..], remote);
    }
  }

  /** Whole-file correctness, over every fair run from a fresh object without a
      range: FD_FINISHED means the remote file is on disk, whatever losses and
      reconnects came before; ERROR means no file is. */
  lemma WholeFileCorrect(w: World, ls: seq<Label>, remote: seq<byte>)
    requires Initial(w.d) && w.d.fd.WholeFile() && !w.d.fd.IsPartial()
    requires FairWholeRun(w, ls, remote)
    ensures var w' := Run(false, w, ls);
            && (w'.d.state == FdFinished ==> w'.disk == Some(remote) && w'.d.fd.bytes == |remote|)
            && (w'.d.state == ErrorState ==> w'.disk == None)
  {
    InitialInv(w.d);
    RunKeepsWhole(w, ls, remote);
  }
}
