/**
 The inductive invariant of a disciplined downloader, and what follows from it
 over whole disciplined runs: one driver at a time, resources are conserved, terminal
 states are clean, FD_FINISHED means finished.
 */
module Invariant {
  import opened Wrappers
  import opened Fsm
  import opened Downloaders

  // ---------- the invariant ----------

  predicate Conserved(d: Downloader) {
    && d.log.fired == d.log.executed + d.queue
    && TallyOf(d.log.executed).state == d.state
  }

  predicate Resources(d: Downloader) {
    && -1 <= d.fd.sock
    && d.fd.ledger.opens == d.fd.ledger.closes + (if d.fd.sock != -1 then 1 else 0)
    && d.fd.ledger.spawns == d.fd.ledger.joins + (if d.fd.connector.Some? then 1 else 0)
                                   + (if d.fd.downloader.Some? then 1 else 0)
  }

  predicate SizeAnnounced(fd: Fd) {
    fd.fileSize == fd.ledger.announced
  }

  predicate ConnectorEvent(fd: Fd, e: Event) {
    || e == ErrorRaised
    || e == ConnectFailed
    || (e == ConnectSuccess && fd.sock != -1)
  }

  /** A connector is under way, or has fired and its one event is queued. */
  predicate Connecting(fd: Fd, k: seq<Event>) {
    && fd.downloader.None?
    && fd.connector.Some?
    && match fd.connector.value
       case CallSocket => k == [] && fd.sock == -1
       case ResolveHost => k == [] && fd.sock != -1
       case TryConnect(n) => k == [] && fd.sock != -1 && 1 <= n <= HEAD_CONNECT_TRIES
       case Firing(role, e) => k == [] && role == ConnectorRole && ConnectorEvent(fd, e)
       case Done => |k| == 1 && ConnectorEvent(fd, k[0])
       case _ => false
  }

  predicate HeadEvent(e: Event) {
    e == ErrorRaised || e == Finished || e == LostConnection
  }

  predicate HeadWorker(t: Worker) {
    t.HeadWrite? || t.HeadRead? || t.Done? || (t.Firing? && t.role == HeadRole && HeadEvent(t.event))
  }

  predicate AwaitingHead(fd: Fd, k: seq<Event>) {
    && fd.connector.None?
    && fd.sock != -1
    && fd.downloader.Some?
    && HeadWorker(fd.downloader.value)
    && (if fd.downloader.value.Done? then |k| == 1 && HeadEvent(k[0]) else k == [])
  }

  predicate BodyEvent(fd: Fd, e: Event) {
    || e == ErrorRaised
    || e == LostConnection
    || (e == Finished && fd.bytes == fd.GetFileSize())
  }

  /** Every pc of the body thread carries the size and the flag computed at its start. */
  predicate BodyWorker(fd: Fd, t: Worker) {
    match t
    case BodySend => true
    case BodyOpen(x, partial) => x == fd.GetFileSize() && partial == fd.IsPartial()
    case BodyFirst(x, partial, _) => x == fd.GetFileSize() && partial == fd.IsPartial()
    case BodyRead(x, _, _) => x == fd.GetFileSize()
    case BodyPut(x, _, _, _, _) => x == fd.GetFileSize()
    case BodyCount(x, _, _, _, _) => x == fd.GetFileSize()
    case Firing(role, e) => role == BodyRole && BodyEvent(fd, e)
    case Done => true
    case _ => false
  }

  predicate Transferring(fd: Fd, k: seq<Event>) {
    && fd.connector.None?
    && fd.sock != -1
    && fd.downloader.Some?
    && BodyWorker(fd, fd.downloader.value)
    && (if fd.downloader.value.Done? then |k| == 1 && BodyEvent(fd, k[0]) else k == [])
  }

  /** CANCEL in HEAD_GET_RESPONSE_AWAIT leaves the socket open and the thread running. */
  predicate LeftRunning(fd: Fd, k: seq<Event>) {
    && fd.connector.None?
    && fd.sock != -1
    && fd.downloader.Some?
    && HeadWorker(fd.downloader.value)
    && (if fd.downloader.value.Done? then |k| <= 1 else k == [])
  }

  predicate Phase(d: Downloader) {
    var fd := d.fd;
    var k := DriversIn(d.queue);
    match d.state
    case HeadConnectInProgress => Connecting(fd, k)
    case FdConnectInProgress => Connecting(fd, k)
    case HeadConnected => fd.connector.None? && fd.downloader.None? && fd.sock != -1 && k == [Start]
    case FdConnected => fd.connector.None? && fd.downloader.None? && fd.sock != -1 && k == [Start]
    case HeadGetResponseAwait => AwaitingHead(fd, k)
    case FdInProgress => Transferring(fd, k)
    case FdCancelled => |k| <= 1 && (fd.Clean() || LeftRunning(fd, k))
    case FdFinished => fd.Clean() && |k| <= 1 && fd.bytes == fd.GetFileSize()
    case _ => fd.Clean() && |k| <= 1
  }

  /** No fault so far, and the state, the driver events, the threads and the
      socket fit together. */
  predicate Shape(d: Downloader) {
    && d.fault == NoFault
    && |d.fd.serverName| > 0
    && Phase(d)
  }

  /** Only a cancel during HEAD_GET_RESPONSE_AWAIT leaves anything behind. */
  predicate CancelAccount(d: Downloader) {
    var t := TallyOf(d.log.executed);
    && (d.state == FdCancelled ==> (d.fd.Clean() <==> t.awaitCancels == 0))
    && (d.state != FdCancelled ==> t.awaitCancels == 0)
  }

  predicate Inv(d: Downloader) {
    && Shape(d)
    && SizeAnnounced(d.fd)
    && Resources(d)
    && Conserved(d)
    && CancelAccount(d)
  }

  lemma InitialInv(d: Downloader)
    requires Initial(d)
    ensures Inv(d)
  {
  }

  // ---------- Shape: each kind of step keeps it ----------

  lemma InjectKeepsShape(d: Downloader, e: Event, source: Origin)
    requires Shape(d)
    requires IsDriver(e) ==> Drivers(d) == 0
    ensures Shape(Fire(d, e, source))
  {
    DriversAppend(d.queue, e);
  }

  lemma FiredIsQueued(d: Downloader, e: Event, source: Origin)
    requires DriversIn(d.queue) == [] && IsDriver(e)
    ensures DriversIn(Fire(d, e, source).queue) == [e]
  {
    DriversAppend(d.queue, e);
  }

  lemma ConnectorFiringKeepsShape(w: World)
    requires Shape(w.d) && w.d.fd.connector.Some? && w.d.fd.connector.value.Firing?
    ensures Shape(Step(false, w, ConnectorStep(Proceed)).d)
  {
    var Firing(role, e) := w.d.fd.connector.value;
    FiredIsQueued(w.d, e, Thread(role, w.d.fd.Number(role)));
    assert Connecting(w.d.fd, []) && Connecting(w.d.fd.(connector := Some(Done)), [e]);
  }

  lemma DownloaderFiringKeepsShape(w: World)
    requires Shape(w.d) && w.d.fd.downloader.Some? && w.d.fd.downloader.value.Firing?
    ensures Shape(Step(false, w, DownloaderStep(Proceed)).d)
  {
    var Firing(role, e) := w.d.fd.downloader.value;
    FiredIsQueued(w.d, e, Thread(role, w.d.fd.Number(role)));
  }

  lemma ConnectingStep(w: World, t: Worker, o: Outcome, k: seq<Event>)
    requires Connecting(w.d.fd, k) && w.d.fd.connector == Some(t) && !t.Firing?
    ensures var (w', t') := RunWorker(w, t, o); Connecting(w'.d.fd.(connector := Some(t')), k)
  {
    match t {
      case CallSocket =>
      case ResolveHost =>
      case TryConnect(_) =>
      case Done =>
    }
  }

  /** What a worker step leaves alone: everything but the socket of a connector,
      the parsed size of a HEAD requester, and the byte count of a body thread. */
  lemma WorkerFrame(w: World, t: Worker, o: Outcome)
    requires !t.Firing?
    ensures var (w', t') := RunWorker(w, t, o);
            && w'.d == w.d.(fd := w.d.fd.(
                 sock := w'.d.fd.sock, fileSize := w'.d.fd.fileSize, bytes := w'.d.fd.bytes,
                 ledger := w.d.fd.ledger.(opens := w'.d.fd.ledger.opens, announced := w'.d.fd.ledger.announced)))
            && (!t.CallSocket? ==> w'.d.fd.sock == w.d.fd.sock && w'.d.fd.ledger.opens == w.d.fd.ledger.opens)
            && (!t.HeadRead? ==> w'.d.fd.fileSize == w.d.fd.fileSize)
            && (!t.HeadRead? ==> w'.d.fd.ledger.announced == w.d.fd.ledger.announced)
            && (!t.BodyCount? ==> w'.d.fd.bytes == w.d.fd.bytes)
            && w.d.fd.bytes <= w'.d.fd.bytes
            && (t'.Done? <==> t.Done?)
  {
  }

  lemma ConnectorKeepsShape(w: World, o: Outcome)
    requires Shape(w.d) && w.d.fd.connector.Some? && !w.d.fd.connector.value.Firing?
    ensures Shape(Step(false, w, ConnectorStep(o)).d)
  {
    WorkerFrame(w, w.d.fd.connector.value, o);
    ConnectingStep(w, w.d.fd.connector.value, o, DriversIn(w.d.queue));
  }

  lemma HeadWorkerStep(w: World, t: Worker, o: Outcome)
    requires HeadWorker(t) && !t.Firing?
    ensures HeadWorker(RunWorker(w, t, o).1)
  {
  }

  lemma HeadWorkerKeepsShape(w: World, o: Outcome)
    requires Shape(w.d) && w.d.fd.downloader.Some? && !w.d.fd.downloader.value.Firing?
    requires w.d.state != FdInProgress
    ensures Shape(Step(false, w, DownloaderStep(o)).d)
  {
    WorkerFrame(w, w.d.fd.downloader.value, o);
    HeadWorkerStep(w, w.d.fd.downloader.value, o);
  }

  lemma BodyWorkerStep(w: World, t: Worker, o: Outcome)
    requires BodyWorker(w.d.fd, t) && !t.Firing?
    ensures var (w', t') := RunWorker(w, t, o); BodyWorker(w'.d.fd, t')
  {
  }

  lemma BodyWorkerKeepsShape(w: World, o: Outcome)
    requires Shape(w.d) && w.d.fd.downloader.Some? && !w.d.fd.downloader.value.Firing?
    requires w.d.state == FdInProgress
    ensures Shape(Step(false, w, DownloaderStep(o)).d)
  {
    WorkerFrame(w, w.d.fd.downloader.value, o);
    BodyWorkerStep(w, w.d.fd.downloader.value, o);
  }

  /** Once the head of the queue is taken, what is left holds at most one driver,
      and none if the head was one. */
  lemma PopFacts(d: Downloader)
    requires Shape(d) && d.queue != []
    ensures DriversIn(d.queue) == (if IsDriver(d.queue[0]) then [d.queue[0]] else []) + DriversIn(d.queue[1..])
    ensures |DriversIn(d.queue)| <= 1
    ensures !IsDriver(d.queue[0]) ==> DriversIn(d.queue[1..]) == DriversIn(d.queue)
    ensures IsDriver(d.queue[0]) ==> DriversIn(d.queue[1..]) == [] && DriversIn(d.queue) == [d.queue[0]]
  {
  }

  lemma SkippedTurnKeepsShape(w: World)
    requires Shape(w.d) && w.d.queue != [] && Table(w.d.state, w.d.queue[0]).NA?
    ensures Shape(Listen(false, w).d)
  {
    PopFacts(w.d);
  }

  /** The world an action starts in: the event dequeued and the next state entered. */
  function Entered(w: World, next: State): World
    requires w.d.queue != []
  {
    w.(d := w.d.(queue := w.d.queue[1..], state := next,
                 log := w.d.log.(executed := w.d.log.executed + [w.d.queue[0]])))
  }

  predicate Resting(s: State) {
    || s == Init || s == HeadConnectionFailed || s == FdConnectionFailed
    || s == FdSuspended || s == FdCancelled || s == ErrorState
  }

  predicate NoThreads(fd: Fd) {
    fd.connector.None? && fd.downloader.None?
  }

  /** A socket and one thread in the downloader's slot. */
  predicate Held(fd: Fd) {
    fd.sock != -1 && fd.connector.None? && fd.downloader.Some?
  }

  /** What each action finds when it starts: the asserts on its way hold, and the
      queue has room for the driver that it spawns or fires. */
  predicate Before(a: Action, d: Downloader) {
    var fd := d.fd;
    var k := DriversIn(d.queue);
    && d.fault == NoFault && |fd.serverName| > 0
    && match a
       case Connect => (d.state == HeadConnectInProgress || d.state == FdConnectInProgress) && fd.Clean() && k == []
       case Cleanup => Resting(d.state) && |k| <= 1
       case ConnectionUp =>
         (d.state == HeadConnected || d.state == FdConnected)
         && fd.sock != -1 && fd.connector.Some? && fd.downloader.None? && k == []
       case SendHeadRequest => d.state == HeadGetResponseAwait && fd.sock != -1 && NoThreads(fd) && k == []
       case LeaveRunning => d.state == FdCancelled && AwaitingHead(fd, k)
       case HandOver => d.state == FdConnectInProgress && k == []
       case HeadLost => d.state == HeadConnectionFailed && k == []
       case StartDownload => d.state == FdInProgress && fd.sock != -1 && NoThreads(fd) && k == []
       case CleanupAndConnect => d.state == FdConnectInProgress && k == []
       case PauseTransfer => d.state == FdSuspended && |k| <= 1
       case Finish => d.state == FdFinished && Held(fd) && fd.bytes == fd.GetFileSize() && |k| <= 1
       case BodyLost => d.state == FdConnectionFailed && Held(fd) && k == []
  }

  lemma ConnectKeepsShape(w: World)
    requires Before(Connect, w.d)
    ensures Shape(Act(Connect, w).d)
  {
  }

  lemma CleanupKeepsShape(w: World)
    requires Before(Cleanup, w.d)
    ensures Shape(Act(Cleanup, w).d)
  {
  }

  lemma ConnectionUpKeepsShape(w: World)
    requires Before(ConnectionUp, w.d)
    ensures Shape(Act(ConnectionUp, w).d)
  {
    DriversAppend(w.d.queue, Start);
  }

  lemma SendHeadRequestKeepsShape(w: World)
    requires Before(SendHeadRequest, w.d)
    ensures Shape(Act(SendHeadRequest, w).d)
  {
  }

  lemma LeaveRunningKeepsShape(w: World)
    requires Before(LeaveRunning, w.d)
    ensures Shape(Act(LeaveRunning, w).d)
  {
  }

  lemma HandOverKeepsShape(w: World)
    requires Before(HandOver, w.d)
    ensures Shape(Act(HandOver, w).d)
  {
  }

  lemma HeadLostKeepsShape(w: World)
    requires Before(HeadLost, w.d)
    ensures Shape(Act(HeadLost, w).d)
  {
    DriversAppend(w.d.queue, Reconnect);
  }

  lemma StartDownloadKeepsShape(w: World)
    requires Before(StartDownload, w.d)
    ensures Shape(Act(StartDownload, w).d)
  {
  }

  lemma CleanupAndConnectKeepsShape(w: World)
    requires Before(CleanupAndConnect, w.d)
    ensures Shape(Act(CleanupAndConnect, w).d)
  {
  }

  lemma PauseTransferKeepsShape(w: World)
    requires Before(PauseTransfer, w.d)
    ensures Shape(Act(PauseTransfer, w).d)
  {
  }

  lemma FinishKeepsShape(w: World)
    requires Before(Finish, w.d)
    ensures Shape(Act(Finish, w).d)
  {
  }

  lemma BodyLostKeepsShape(w: World)
    requires Before(BodyLost, w.d)
    ensures Shape(Act(BodyLost, w).d)
  {
    DriversAppend(w.d.queue, Reconnect);
  }

  lemma ActKeepsShape(a: Action, w: World)
    requires Before(a, w.d)
    ensures Shape(Act(a, w).d)
  {
    match a {
      case Connect => ConnectKeepsShape(w);
      case Cleanup => CleanupKeepsShape(w);
      case ConnectionUp => ConnectionUpKeepsShape(w);
      case SendHeadRequest => SendHeadRequestKeepsShape(w);
      case LeaveRunning => LeaveRunningKeepsShape(w);
      case HandOver => HandOverKeepsShape(w);
      case HeadLost => HeadLostKeepsShape(w);
      case StartDownload => StartDownloadKeepsShape(w);
      case CleanupAndConnect => CleanupAndConnectKeepsShape(w);
      case PauseTransfer => PauseTransferKeepsShape(w);
      case Finish => FinishKeepsShape(w);
      case BodyLost => BodyLostKeepsShape(w);
    }
  }

  lemma RestingTurnFinds(w: World, a: Action, next: State)
    requires Shape(w.d) && w.d.queue != [] && Table(w.d.state, w.d.queue[0]) == Go(a, next)
    requires Resting(w.d.state)
    ensures Before(a, Entered(w, next).d)
  {
    PopFacts(w.d);
  }

  lemma ConnectingTurnFinds(w: World, a: Action, next: State)
    requires Shape(w.d) && w.d.queue != [] && Table(w.d.state, w.d.queue[0]) == Go(a, next)
    requires w.d.state == HeadConnectInProgress || w.d.state == FdConnectInProgress
    ensures Before(a, Entered(w, next).d)
  {
    PopFacts(w.d);
  }

  lemma ConnectedTurnFinds(w: World, a: Action, next: State)
    requires Shape(w.d) && w.d.queue != [] && Table(w.d.state, w.d.queue[0]) == Go(a, next)
    requires w.d.state == HeadConnected || w.d.state == FdConnected
    ensures Before(a, Entered(w, next).d)
  {
    PopFacts(w.d);
  }

  lemma AwaitTurnFinds(w: World, a: Action, next: State)
    requires Shape(w.d) && w.d.queue != [] && Table(w.d.state, w.d.queue[0]) == Go(a, next)
    requires w.d.state == HeadGetResponseAwait
    ensures Before(a, Entered(w, next).d)
  {
    PopFacts(w.d);
  }

  lemma BodyTurnFinds(w: World, a: Action, next: State)
    requires Shape(w.d) && w.d.queue != [] && Table(w.d.state, w.d.queue[0]) == Go(a, next)
    requires w.d.state == FdInProgress
    ensures Before(a, Entered(w, next).d)
  {
    PopFacts(w.d);
  }

  /** In every state, the events that are taken find what their action asks for. */
  lemma TurnFinds(w: World, a: Action, next: State)
    requires Shape(w.d) && w.d.queue != [] && Table(w.d.state, w.d.queue[0]) == Go(a, next)
    ensures Before(a, Entered(w, next).d)
  {
    match w.d.state {
      case HeadConnectInProgress => ConnectingTurnFinds(w, a, next);
      case FdConnectInProgress => ConnectingTurnFinds(w, a, next);
      case HeadConnected => ConnectedTurnFinds(w, a, next);
      case FdConnected => ConnectedTurnFinds(w, a, next);
      case HeadGetResponseAwait => AwaitTurnFinds(w, a, next);
      case FdInProgress => BodyTurnFinds(w, a, next);
      case FdFinished =>
      case _ => RestingTurnFinds(w, a, next);
    }
  }

  lemma TakenTurn(strict: bool, w: World, a: Action, next: State)
    requires w.d.queue != [] && Table(w.d.state, w.d.queue[0]) == Go(a, next)
    ensures Listen(strict, w) == Act(a, Entered(w, next))
  {
  }

  lemma TurnKeepsShape(w: World)
    requires Shape(w.d) && w.d.queue != []
    ensures Shape(Listen(false, w).d)
  {
    match Table(w.d.state, w.d.queue[0]) {
      case NA => SkippedTurnKeepsShape(w);
      case Go(a, next) =>
        TurnFinds(w, a, next);
        TakenTurn(false, w, a, next);
        ActKeepsShape(a, Entered(w, next));
    }
  }

  /** A body thread's transfer is its own: the others touch neither file nor counter. */
  predicate BodyPosition(t: Worker) {
    t.BodySend? || t.BodyOpen? || t.BodyFirst? || t.BodyRead? || t.BodyPut? || t.BodyCount?
  }

  lemma OthersKeepTransfer(w: World, t: Worker, o: Outcome)
    requires !BodyPosition(t)
    ensures var w' := RunWorker(w, t, o).0;
            && w'.disk == w.disk && w'.d.state == w.d.state
            && w'.d.fd.bytes == w.d.fd.bytes && w'.d.fd.low == w.d.fd.low && w'.d.fd.high == w.d.fd.high
            && w'.d.fd.flags == w.d.fd.flags && (!t.HeadRead? ==> w'.d.fd.fileSize == w.d.fd.fileSize)
  {
  }

  /** Without a thread, or without the answer it waits for, nothing moves. */
  lemma ConnectorIdle(strict: bool, w: World, o: Outcome)
    requires w.d.fd.connector.Some? ==> w.d.fd.connector.value.Firing? && o != Proceed
    ensures Step(strict, w, ConnectorStep(o)) == w
  {
  }

  lemma DownloaderIdle(strict: bool, w: World, o: Outcome)
    requires w.d.fd.downloader.Some? ==> w.d.fd.downloader.value.Firing? && o != Proceed
    ensures Step(strict, w, DownloaderStep(o)) == w
  {
  }

  lemma ConnectorStepKeepsShape(w: World, o: Outcome)
    requires Shape(w.d)
    ensures Shape(Step(false, w, ConnectorStep(o)).d)
  {
    if w.d.fd.connector.Some? && !w.d.fd.connector.value.Firing? {
      ConnectorKeepsShape(w, o);
    } else if w.d.fd.connector.Some? && o == Proceed {
      ConnectorFiringKeepsShape(w);
    } else {
      ConnectorIdle(false, w, o);
    }
  }

  lemma DownloaderStepKeepsShape(w: World, o: Outcome)
    requires Shape(w.d)
    ensures Shape(Step(false, w, DownloaderStep(o)).d)
  {
    if w.d.fd.downloader.Some? && !w.d.fd.downloader.value.Firing? {
      if w.d.state == FdInProgress { BodyWorkerKeepsShape(w, o); } else { HeadWorkerKeepsShape(w, o); }
    } else if w.d.fd.downloader.Some? && o == Proceed {
      DownloaderFiringKeepsShape(w);
    } else {
      DownloaderIdle(false, w, o);
    }
  }

  lemma StepKeepsShape(w: World, l: Label)
    requires Shape(w.d) && Allowed(w.d, l)
    ensures Shape(Step(false, w, l).d)
  {
    match l {
      case Turn => if w.d.queue != [] { TurnKeepsShape(w); }
      case ConnectorStep(o) => ConnectorStepKeepsShape(w, o);
      case DownloaderStep(o) => DownloaderStepKeepsShape(w, o);
      case Inject(e) => InjectKeepsShape(w.d, e, Outside);
    }
  }

  // ---------- the accounts kept beside it ----------

  lemma FireKeepsConserved(d: Downloader, e: Event, source: Origin)
    requires Conserved(d)
    ensures Conserved(Fire(d, e, source))
  {
    assert d.log.executed + d.queue + [e] == d.log.executed + (d.queue + [e]);
  }

  /** What an action may do to the queue: nothing, or write one event behind it. */
  predicate Writes(d: Downloader, d': Downloader) {
    && d'.state == d.state
    && d'.log.executed == d.log.executed
    && ( || (d'.queue == d.queue && d'.log.fired == d.log.fired)
         || (exists e :: d'.queue == d.queue + [e] && d'.log.fired == d.log.fired + [e]))
  }

  lemma FireWrites(d: Downloader, d1: Downloader, e: Event, source: Origin)
    requires d1.state == d.state && d1.queue == d.queue
    requires d1.log.executed == d.log.executed && d1.log.fired == d.log.fired
    ensures Writes(d, Fire(d1, e, source))
  {
  }

  lemma ActWrites(a: Action, w: World)
    ensures Writes(w.d, Act(a, w).d)
  {
    match a {
      case ConnectionUp => FireWrites(w.d, With(w, JoinConnector(w.d.fd)).d, Start, Listener);
      case HeadLost => FireWrites(w.d, CleanedUp(w).d, Reconnect, Listener);
      case BodyLost => FireWrites(w.d, With(w, CloseSock(JoinDownloader(w.d.fd))).d, Reconnect, Listener);
      case Connect =>
      case Cleanup =>
      case SendHeadRequest =>
      case LeaveRunning =>
      case HandOver =>
      case StartDownload =>
      case CleanupAndConnect =>
      case PauseTransfer =>
      case Finish =>
    }
  }

  lemma WritesKeepsConserved(d: Downloader, d': Downloader)
    requires Conserved(d) && Writes(d, d')
    ensures Conserved(d')
  {
    if d'.queue != d.queue || d'.log.fired != d.log.fired {
      var e :| d'.queue == d.queue + [e] && d'.log.fired == d.log.fired + [e];
      assert d.log.executed + d.queue + [e] == d.log.executed + (d.queue + [e]);
    }
  }

  lemma WorkerWrites(w: World, t: Worker, o: Outcome)
    ensures Writes(w.d, RunWorker(w, t, o).0.d)
  {
    if t.Firing? {
      FireWrites(w.d, w.d, t.event, Thread(t.role, w.d.fd.Number(t.role)));
    }
  }

  /** Dequeuing moves the head to the executed events and the state along the table. */
  lemma PopConserves(d: Downloader)
    requires Conserved(d) && d.queue != []
    ensures Conserved(d.(queue := d.queue[1..],
                         state := Count(TallyOf(d.log.executed), d.queue[0]).state,
                         log := d.log.(executed := d.log.executed + [d.queue[0]])))
  {
    TallyAppend(d.log.executed, d.queue[0]);
  }

  /** Whoever writes events and whatever the actions do, strict or not: nothing
      is lost, duplicated or reordered on the way through the queue. */
  lemma StepConserves(strict: bool, w: World, l: Label)
    requires Conserved(w.d)
    ensures Conserved(Step(strict, w, l).d)
  {
    match l {
      case Turn =>
        if w.d.fault == NoFault && w.d.queue != [] {
          PopConserves(w.d);
          match Table(w.d.state, w.d.queue[0]) {
            case NA =>
            case Go(a, next) =>
              var w1 := Entered(w, next);
              ActWrites(a, w1);
              WritesKeepsConserved(w1.d, Act(a, w1).d);
          }
        }
      case ConnectorStep(o) =>
        if w.d.fault == NoFault && w.d.fd.connector.Some? {
          WorkerWrites(w, w.d.fd.connector.value, o);
          WritesKeepsConserved(w.d, RunWorker(w, w.d.fd.connector.value, o).0.d);
        }
      case DownloaderStep(o) =>
        if w.d.fault == NoFault && w.d.fd.downloader.Some? {
          WorkerWrites(w, w.d.fd.downloader.value, o);
          WritesKeepsConserved(w.d, RunWorker(w, w.d.fd.downloader.value, o).0.d);
        }
      case Inject(e) => FireKeepsConserved(w.d, e, Outside);
    }
  }

  /** What the members of FD do to the account. */
  lemma FdKeepsResources(d: Downloader, body: Worker)
    requires Resources(d)
    ensures Resources(d.(fd := Release(d.fd)))
    ensures ConnectServer(d.fd).Some? ==> Resources(d.(fd := ConnectServer(d.fd).value))
    ensures SpawnDownloader(d.fd, body).Some? ==> Resources(d.(fd := SpawnDownloader(d.fd, body).value))
    ensures d.fd.sock != -1 ==> Resources(d.(fd := CloseSock(d.fd)))
    ensures d.fd.connector.Some? ==> Resources(d.(fd := JoinConnector(d.fd)))
    ensures d.fd.downloader.Some? ==> Resources(d.(fd := JoinDownloader(d.fd)))
  {
  }

  /** The account looks at the FD object alone. */
  lemma ResourcesOfFd(d: Downloader, d': Downloader)
    requires Resources(d) && d'.fd == d.fd.(fileSize := d'.fd.fileSize)
    ensures Resources(d')
  {
  }

  lemma FinishKeepsResources(w: World)
    requires Resources(w.d) && w.d.fd.sock != -1
    ensures Resources(Act(Finish, w).d)
  {
    FdKeepsResources(w.d, HeadWrite);
    FdKeepsResources(w.d.(fd := CloseSock(w.d.fd)), HeadWrite);
  }

  lemma BodyLostKeepsResources(w: World)
    requires Resources(w.d)
    ensures Resources(Act(BodyLost, w).d)
  {
    if w.d.fd.downloader.Some? {
      FdKeepsResources(w.d, HeadWrite);
      FdKeepsResources(w.d.(fd := JoinDownloader(w.d.fd)), HeadWrite);
    }
  }

  lemma ReconnectKeepsResources(a: Action, w: World)
    requires Resources(w.d) && (a == HandOver || a == CleanupAndConnect)
    ensures Resources(Act(a, w).d)
  {
    FdKeepsResources(w.d, HeadWrite);
    FdKeepsResources(w.d.(fd := Release(w.d.fd)), HeadWrite);
  }

  lemma ReleaseKeepsResources(a: Action, w: World)
    requires Resources(w.d) && (a == Cleanup || a == HeadLost || a == PauseTransfer)
    ensures Resources(Act(a, w).d)
  {
    FdKeepsResources(w.d, HeadWrite);
    ResourcesOfFd(w.d.(fd := Release(w.d.fd)), Act(a, w).d);
  }

  lemma SpawnKeepsResources(a: Action, w: World)
    requires Resources(w.d) && (a == Connect || a == SendHeadRequest || a == StartDownload)
    ensures Resources(Act(a, w).d)
  {
    FdKeepsResources(w.d, if a == StartDownload then BodySend else HeadWrite);
  }

  lemma ConnectionUpKeepsResources(w: World)
    requires Resources(w.d)
    ensures Resources(Act(ConnectionUp, w).d)
  {
    FdKeepsResources(w.d, HeadWrite);
  }

  lemma ActKeepsResources(a: Action, w: World)
    requires Resources(w.d)
    requires a == Finish ==> w.d.fd.sock != -1
    ensures Resources(Act(a, w).d)
  {
    match a {
      case Connect => SpawnKeepsResources(a, w);
      case Cleanup => ReleaseKeepsResources(a, w);
      case ConnectionUp => ConnectionUpKeepsResources(w);
      case SendHeadRequest => SpawnKeepsResources(a, w);
      case LeaveRunning =>
      case HandOver => ReconnectKeepsResources(a, w);
      case HeadLost => ReleaseKeepsResources(a, w);
      case StartDownload => SpawnKeepsResources(a, w);
      case CleanupAndConnect => ReconnectKeepsResources(a, w);
      case PauseTransfer => ReleaseKeepsResources(a, w);
      case Finish => FinishKeepsResources(w);
      case BodyLost => BodyLostKeepsResources(w);
    }
  }

  lemma TurnKeepsResources(w: World)
    requires Shape(w.d) && Resources(w.d) && w.d.queue != []
    ensures Resources(Listen(false, w).d)
  {
    match Table(w.d.state, w.d.queue[0]) {
      case NA => ResourcesOfFd(w.d, Listen(false, w).d);
      case Go(a, next) =>
        TurnFinds(w, a, next);
        TakenTurn(false, w, a, next);
        ResourcesOfFd(w.d, Entered(w, next).d);
        ActKeepsResources(a, Entered(w, next));
    }
  }

  lemma WorkerKeepsResources(w: World, t: Worker, o: Outcome)
    requires Resources(w.d) && (t.CallSocket? ==> w.d.fd.sock == -1)
    ensures var d := RunWorker(w, t, o).0.d;
            Resources(d) && d.fd.connector == w.d.fd.connector && d.fd.downloader == w.d.fd.downloader
  {
  }

  lemma StepKeepsResources(w: World, l: Label)
    requires Shape(w.d) && Resources(w.d)
    ensures Resources(Step(false, w, l).d)
  {
    match l {
      case Turn => if w.d.queue != [] { TurnKeepsResources(w); }
      case ConnectorStep(o) =>
        if w.d.fd.connector.Some? { WorkerKeepsResources(w, w.d.fd.connector.value, o); }
      case DownloaderStep(o) =>
        if w.d.fd.downloader.Some? { WorkerKeepsResources(w, w.d.fd.downloader.value, o); }
      case Inject(_) =>
    }
  }

  lemma ActKeepsSize(a: Action, w: World)
    ensures var fd := Act(a, w).d.fd;
            fd.fileSize == w.d.fd.fileSize && fd.ledger.announced == w.d.fd.ledger.announced
  {
    match a {
      case Connect =>
      case Cleanup =>
      case ConnectionUp =>
      case SendHeadRequest =>
      case LeaveRunning =>
      case HandOver =>
      case HeadLost =>
      case StartDownload =>
      case CleanupAndConnect =>
      case PauseTransfer =>
      case Finish =>
      case BodyLost =>
    }
  }

  lemma WorkerKeepsSize(w: World, t: Worker, o: Outcome)
    requires SizeAnnounced(w.d.fd)
    ensures SizeAnnounced(RunWorker(w, t, o).0.d.fd)
  {
  }

  lemma StepKeepsSize(w: World, l: Label)
    requires SizeAnnounced(w.d.fd)
    ensures SizeAnnounced(Step(false, w, l).d.fd)
  {
    match l {
      case Turn =>
        if w.d.queue != [] {
          match Table(w.d.state, w.d.queue[0]) {
            case NA =>
            case Go(a, next) => ActKeepsSize(a, Entered(w, next));
          }
        }
      case ConnectorStep(o) =>
        if w.d.fd.connector.Some? { WorkerKeepsSize(w, w.d.fd.connector.value, o); }
      case DownloaderStep(o) =>
        if w.d.fd.downloader.Some? { WorkerKeepsSize(w, w.d.fd.downloader.value, o); }
      case Inject(_) =>
    }
  }

  /** Which entries lead to FD_CANCELLED, and which of them count as an await cancel. */
  lemma CancelEntries(t: Tally, e: Event, a: Action, next: State)
    requires Table(t.state, e) == Go(a, next) && t.awaitCancels == 0
    ensures var n := Count(t, e).awaitCancels;
            && (next != FdCancelled ==> n == 0)
            && (next == FdCancelled ==> (a == Cleanup && n == 0) || (a == LeaveRunning && n == 1))
    ensures t.state != FdCancelled
  {
  }

  lemma TurnKeepsCancelAccount(w: World)
    requires Shape(w.d) && Conserved(w.d) && CancelAccount(w.d) && w.d.queue != []
    ensures CancelAccount(Listen(false, w).d)
  {
    TallyAppend(w.d.log.executed, w.d.queue[0]);
    match Table(w.d.state, w.d.queue[0]) {
      case NA =>
      case Go(a, next) => TakenTurnKeepsCancelAccount(w, a, next);
    }
  }

  lemma TakenTurnKeepsCancelAccount(w: World, a: Action, next: State)
    requires Shape(w.d) && Conserved(w.d) && CancelAccount(w.d)
    requires w.d.queue != [] && Table(w.d.state, w.d.queue[0]) == Go(a, next)
    ensures CancelAccount(Listen(false, w).d)
  {
    var w1 := Entered(w, next);
    var t := TallyOf(w.d.log.executed);
    assert t.state == w.d.state;
    if w.d.state == FdCancelled {
      assert false;
    }
    CancelEntries(t, w.d.queue[0], a, next);
    TallyAppend(w.d.log.executed, w.d.queue[0]);
    TurnFinds(w, a, next);
    TakenTurn(false, w, a, next);
    ActWrites(a, w1);
    if a == Cleanup {
      CleanupIsClean(w1);
    } else if a == LeaveRunning {
      LeavingIsNotClean(w1);
    }
  }

  lemma CleanupIsClean(w: World)
    ensures Act(Cleanup, w).d.fd.Clean()
  {
  }

  lemma LeavingIsNotClean(w: World)
    requires Before(LeaveRunning, w.d)
    ensures !Act(LeaveRunning, w).d.fd.Clean()
  {
  }

  lemma WorkerKeepsHistory(w: World, t: Worker, o: Outcome)
    ensures var d := RunWorker(w, t, o).0.d;
            d.state == w.d.state && d.log.executed == w.d.log.executed
            && d.fd.connector == w.d.fd.connector && d.fd.downloader == w.d.fd.downloader
  {
  }

  lemma StepKeepsCancelAccount(w: World, l: Label)
    requires Shape(w.d) && Conserved(w.d) && CancelAccount(w.d)
    ensures CancelAccount(Step(false, w, l).d)
  {
    match l {
      case Turn => if w.d.queue != [] { TurnKeepsCancelAccount(w); }
      case ConnectorStep(o) =>
        if w.d.fd.connector.Some? { WorkerKeepsHistory(w, w.d.fd.connector.value, o); }
      case DownloaderStep(o) =>
        if w.d.fd.downloader.Some? { WorkerKeepsHistory(w, w.d.fd.downloader.value, o); }
      case Inject(_) =>
    }
  }

  lemma StepKeeps(w: World, l: Label)
    requires Inv(w.d) && Allowed(w.d, l)
    ensures Inv(Step(false, w, l).d)
  {
    StepKeepsShape(w, l);
    StepConserves(false, w, l);
    StepKeepsResources(w, l);
    StepKeepsSize(w, l);
    StepKeepsCancelAccount(w, l);
  }

  lemma {:induction false} RunKeeps(w: World, ls: seq<Label>)
    requires Inv(w.d) && Disciplined(w, ls)
    ensures Inv(Run(false, w, ls).d)
    decreases ls
  {
    if ls != [] {
      StepKeeps(w, ls[0]);
      RunKeeps(Step(false, w, ls[0]), ls[1..]);
    }
  }

  // ---------- what holds over every disciplined run ----------

  lemma ReachableInv(w: World, ls: seq<Label>)
    requires Initial(w.d) && Disciplined(w, ls)
    ensures Inv(Run(false, w, ls).d)
  {
    InitialInv(w.d);
    RunKeeps(w, ls);
  }

  lemma {:induction false} NullStays(w: World, ls: seq<Label>)
    requires w.d.fault == NullEntry
    ensures Run(true, w, ls).d.fault == NullEntry
    decreases ls
  {
    if ls != [] {
      NullStays(Step(true, w, ls[0]), ls[1..]);
    }
  }

  lemma StrictStep(w: World, l: Label)
    requires Shape(w.d)
    ensures Step(true, w, l).d.fault == NullEntry || Step(true, w, l) == Step(false, w, l)
  {
    if l.Turn? && w.d.queue != [] {
      match Table(w.d.state, w.d.queue[0]) {
        case NA =>
        case Go(a, next) =>
          TakenTurn(true, w, a, next);
          TakenTurn(false, w, a, next);
      }
    }
  }

  /** The engine as written, with its null entries, on disciplined runs: either it has
      called a null entry, or it is where the lenient one is, and no assert has failed. */
  lemma {:induction false} StrictRuns(w: World, ls: seq<Label>)
    requires Inv(w.d) && Disciplined(w, ls)
    ensures var w' := Run(true, w, ls);
            w'.d.fault == NullEntry || (w' == Run(false, w, ls) && w'.d.fault == NoFault)
    decreases ls
  {
    if ls != [] {
      StrictStep(w, ls[0]);
      StepKeeps(w, ls[0]);
      if Step(true, w, ls[0]).d.fault == NullEntry {
        NullStays(Step(true, w, ls[0]), ls[1..]);
      } else {
        StrictRuns(Step(false, w, ls[0]), ls[1..]);
      }
    }
  }

  predicate Active(s: State) {
    || s == HeadConnectInProgress || s == HeadConnected || s == HeadGetResponseAwait
    || s == FdConnectInProgress || s == FdConnected || s == FdInProgress
  }

  /** At most one driver anywhere, exactly one in the six active states. */
  lemma SingleDriver(w: World, ls: seq<Label>)
    requires Initial(w.d) && Disciplined(w, ls)
    ensures var d := Run(false, w, ls).d;
            Drivers(d) <= 1 && (Active(d.state) ==> Drivers(d) == 1)
  {
    ReachableInv(w, ls);
    ShapeDrivers(Run(false, w, ls).d);
  }

  lemma ShapeDrivers(d: Downloader)
    requires Shape(d)
    ensures Drivers(d) <= 1 && (Active(d.state) ==> Drivers(d) == 1)
  {
  }

  /** An answer that moves a thread standing at `t`. */
  function Answer(t: Worker): Outcome {
    match t
    case CallSocket => SocketFail
    case ResolveHost => HostFound
    case TryConnect(_) => ConnectOk
    case HeadWrite => WriteOk
    case HeadRead => ReadFail
    case BodySend => WriteOk
    case BodyOpen(_, _) => OpenFail
    case BodyFirst(_, _, _) => ReadFail
    case BodyRead(_, _, _) => ReadFail
    case _ => Proceed
  }

  /** The machine never stalls in an active state: either a driver event waits
      for the listener, or a live thread can take a step. */
  lemma NeverStalls(w: World, ls: seq<Label>)
    requires Initial(w.d) && Disciplined(w, ls)
    requires Active(Run(false, w, ls).d.state)
    ensures var w' := Run(false, w, ls);
            || (exists e :: e in w'.d.queue && IsDriver(e))
            || (w'.d.fd.connector.Some?
                && Step(false, w', ConnectorStep(Answer(w'.d.fd.connector.value))).d.fd.connector != w'.d.fd.connector)
            || (w'.d.fd.downloader.Some?
                && Step(false, w', DownloaderStep(Answer(w'.d.fd.downloader.value))).d.fd.downloader
                   != w'.d.fd.downloader)
  {
    ReachableInv(w, ls);
    var w' := Run(false, w, ls);
    var fd := w'.d.fd;
    if Live(fd.connector) == 1 {
      LiveThreadMoves(w', fd.connector.value);
    } else if Live(fd.downloader) == 1 {
      LiveThreadMoves(w', fd.downloader.value);
    } else {
      ShapeDrivers(w'.d);
      QueuedDriver(w'.d.queue);
    }
  }

  lemma LiveThreadMoves(w: World, t: Worker)
    requires !t.Done?
    ensures RunWorker(w, t, Answer(t)).1 != t
  {
  }

  lemma {:induction false} QueuedDriver(q: seq<Event>)
    requires DriversIn(q) != []
    ensures exists e :: e in q && IsDriver(e)
  {
    if IsDriver(q[0]) {
      assert q[0] in q;
    } else {
      QueuedDriver(q[1..]);
      var e :| e in q[1..] && IsDriver(e);
      assert e in q;
    }
  }

  /** Sockets and threads are conserved: what was opened and not closed is the one
      in `sockfd`, what was spawned and not joined is behind the thread pointers. */
  lemma ResourcesConserved(w: World, ls: seq<Label>)
    requires Initial(w.d) && Disciplined(w, ls)
    ensures var d := Run(false, w, ls).d;
            && d.fd.ledger.opens - d.fd.ledger.closes == (if d.fd.sock != -1 then 1 else 0)
            && d.fd.ledger.spawns - d.fd.ledger.joins == (if d.fd.connector.Some? then 1 else 0)
                                           + (if d.fd.downloader.Some? then 1 else 0)
  {
    ReachableInv(w, ls);
  }

  /** FD_FINISHED is entered only after the body thread counted every expected
      byte; without a range that is the length the HEAD reply announced. */
  lemma FinishedMeansComplete(w: World, ls: seq<Label>)
    requires Initial(w.d) && Disciplined(w, ls)
    requires Run(false, w, ls).d.state == FdFinished
    ensures var d := Run(false, w, ls).d;
            && d.fd.bytes == d.fd.GetFileSize()
            && (d.fd.WholeFile() ==> d.fd.bytes == d.fd.ledger.announced)
  {
    ReachableInv(w, ls);
  }

  // ---------- queue conservation, over every run ----------

  /** For any interleaving of firers, disciplined or not, strict or not: executed
      events followed by queued ones are the fired ones in order, the state is the
      tables folded over the executed events, and the accounting of the tables
      holds of the run. */
  lemma {:induction false} QueueConserved(strict: bool, w: World, ls: seq<Label>)
    requires Initial(w.d)
    ensures var d := Run(strict, w, ls).d;
            var t := TallyOf(d.log.executed);
            && d.log.fired == d.log.executed + d.queue
            && d.state == t.state
            && t.enabled <= 7 + t.Surcharge()
            && (d.state != ErrorState && d.state != FdCancelled
                ==> t.enabled == 7 - Rank(d.state) + t.Surcharge())
  {
    RunConserves(strict, w, ls);
    StepAccounting(Run(strict, w, ls).d.log.executed);
  }

  lemma {:induction false} RunConserves(strict: bool, w: World, ls: seq<Label>)
    requires Conserved(w.d)
    ensures Conserved(Run(strict, w, ls).d)
    decreases ls
  {
    if ls != [] {
      StepConserves(strict, w, ls[0]);
      RunConserves(strict, Step(strict, w, ls[0]), ls[1..]);
    }
  }

  /** Run to completion: one turn takes exactly the head, and an event the action
      fires waits behind everything already queued. */
  lemma SelfFiredWaits(strict: bool, w: World)
    requires Conserved(w.d) && w.d.queue != [] && w.d.fault == NoFault
    ensures var d := Listen(strict, w).d;
            && d.log.executed == w.d.log.executed + [w.d.queue[0]]
            && (d.queue == w.d.queue[1..] || exists e :: d.queue == w.d.queue[1..] + [e])
  {
    match Table(w.d.state, w.d.queue[0]) {
      case NA =>
      case Go(a, next) => ActWrites(a, Entered(w, next));
    }
  }

  // ---------- terminal states ----------

  predicate Parked(d: Downloader) {
    d.fault == NoFault && Terminal(d.state) && d.fd.Clean()
  }

  predicate Leaking(d: Downloader) {
    && d.fault == NoFault && d.state == FdCancelled
    && d.fd.connector.None? && d.fd.sock != -1
    && d.fd.downloader.Some? && HeadWorker(d.fd.downloader.value)
  }

  lemma {:induction false} ParkedStays(w: World, ls: seq<Label>)
    requires Parked(w.d)
    ensures var d := Run(false, w, ls).d;
            Parked(d) && d.state == w.d.state && d.fd == w.d.fd
    decreases ls
  {
    if ls != [] {
      ParkedStays(Step(false, w, ls[0]), ls[1..]);
    }
  }

  lemma LeakStep(w: World, l: Label)
    requires Leaking(w.d)
    ensures Leaking(Step(false, w, l).d)
  {
    if l.DownloaderStep? {
      var t := w.d.fd.downloader.value;
      DownloaderMoves(false, w, t, l.o);
      if !t.Firing? {
        WorkerFrame(w, t, l.o);
        HeadWorkerStep(w, t, l.o);
      }
    }
  }

  lemma {:induction false} LeakStays(w: World, ls: seq<Label>)
    requires Leaking(w.d)
    ensures Leaking(Run(false, w, ls).d)
    decreases ls
  {
    if ls != [] {
      LeakStep(w, ls[0]);
      LeakStays(Step(false, w, ls[0]), ls[1..]);
    }
  }

  /** Once a disciplined run enters a terminal state, no continuation of any kind
      leaves it; the destructor's asserts (no socket, no threads) hold ever after
      exactly when no CANCEL was taken in HEAD_GET_RESPONSE_AWAIT. */
  lemma TerminalForever(w: World, ls: seq<Label>, more: seq<Label>)
    requires Initial(w.d) && Disciplined(w, ls)
    requires Terminal(Run(false, w, ls).d.state)
    ensures var d := Run(false, w, ls).d;
            var d' := Run(false, Run(false, w, ls), more).d;
            && d'.state == d.state
            && (d'.fd.Clean() <==> TallyOf(d.log.executed).awaitCancels == 0)
  {
    ReachableInv(w, ls);
    var w' := Run(false, w, ls);
    if w'.d.fd.Clean() {
      ParkedStays(w', more);
    } else {
      LeakStays(w', more);
    }
  }

  /** A CANCEL taken in HEAD_GET_RESPONSE_AWAIT leaves its mark for good: in every
      disciplined run in which one was taken, and after any continuation, the socket
      is open and the thread is behind its pointer. */
  lemma LeakForever(w: World, ls: seq<Label>, more: seq<Label>)
    requires Initial(w.d) && Disciplined(w, ls)
    requires TallyOf(Run(false, w, ls).d.log.executed).awaitCancels > 0
    ensures Leaking(Run(false, Run(false, w, ls), more).d)
  {
    ReachableInv(w, ls);
    PausesAndCancels(Run(false, w, ls).d.log.executed);
    LeakStays(Run(false, w, ls), more);
  }
}
