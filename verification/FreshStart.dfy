/**
 Every download worker starts from zero bytes, however many LOST_CONNECTION and
 RECONNECT rounds came before it, exactly as long as every PAUSE handled in
 FD_IN_PROGRESS found zero bytes: LOST_CONNECTION is never fired once body bytes are
 counted.
 */
module FreshStart {
  import opened Fsm
  import opened Downloaders
  import opened Invariant

  predicate BodyUnpaused(d: Downloader) {
    TallyOf(d.log.executed).bodyPauses == 0
  }

  /** A PAUSE taken in FD_IN_PROGRESS finds no byte counted, so that the thread started
      by the next RESUME takes the response header off again. */
  predicate GentlePause(d: Downloader, l: Label) {
    l.Turn? && d.queue != [] && d.queue[0] == Pause && d.state == FdInProgress ==> d.fd.bytes == 0
  }

  predicate GentleRun(w: World, ls: seq<Label>)
    decreases ls
  {
    ls == [] || (GentlePause(w.d, ls[0]) && GentleRun(Step(false, w, ls[0]), ls[1..]))
  }

  /** Positions of the body thread at which nothing has been counted yet. */
  predicate BeforeCount(t: Worker) {
    || t.BodySend? || t.BodyOpen? || t.BodyFirst?
    || (t.BodyPut? && t.first) || (t.BodyCount? && t.first)
    || (t.Firing? && t.event == LostConnection)
  }

  predicate Fresh(d: Downloader) {
    if d.state == FdInProgress then
      d.fd.downloader.Some?
      && (BeforeCount(d.fd.downloader.value) ==> d.fd.bytes == 0)
      && (d.fd.downloader.value.Done? && DriversIn(d.queue) == [LostConnection] ==> d.fd.bytes == 0)
    else Terminal(d.state) || d.fd.bytes == 0
  }

  /** What no action touches. */
  lemma ActKeepsTransfer(a: Action, w: World)
    ensures var fd := Act(a, w).d.fd;
            && fd.bytes == w.d.fd.bytes && fd.low == w.d.fd.low && fd.high == w.d.fd.high
            && fd.flags == w.d.fd.flags
  {
    match a {
      case Connect =>
      case Cleanup =>
      case ConnectionUp =>
      case SendHeadRequest =>
      case LeaveRunning =>
      case HandOver =>
      case HeadLost =>
      case StartDownload =>
      case CleanupAndConnect =>
      case PauseTransfer =>
      case Finish =>
      case BodyLost =>
    }
  }

  /** In FD_IN_PROGRESS every event that can be queued is taken. */
  lemma SkippedTurnKeepsFresh(w: World)
    requires Shape(w.d) && Fresh(w.d) && w.d.queue != [] && Table(w.d.state, w.d.queue[0]).NA?
    ensures Fresh(Listen(false, w).d)
  {
    PopFacts(w.d);
  }

  lemma LeavingBodyKeepsFresh(w: World)
    requires Shape(w.d) && Fresh(w.d) && GentlePause(w.d, Turn)
    requires w.d.queue != [] && w.d.state == FdInProgress
    ensures Table(FdInProgress, w.d.queue[0]).Go?
    ensures Terminal(Table(FdInProgress, w.d.queue[0]).next) || w.d.fd.bytes == 0
    ensures Table(FdInProgress, w.d.queue[0]).next != FdInProgress
  {
    PopFacts(w.d);
  }

  lemma TakenTurnKeepsFresh(w: World)
    requires Shape(w.d) && Fresh(w.d) && GentlePause(w.d, Turn)
    requires w.d.queue != [] && Table(w.d.state, w.d.queue[0]).Go?
    ensures Fresh(Listen(false, w).d)
  {
    var Go(a, next) := Table(w.d.state, w.d.queue[0]);
    var w1 := Entered(w, next);
    TakenTurn(false, w, a, next);
    ActWrites(a, w1);
    ActKeepsTransfer(a, w1);
    if w.d.state == FdInProgress {
      LeavingBodyKeepsFresh(w);
    } else if next == FdInProgress {
      TurnFinds(w, a, next);
      assert a == StartDownload;
    } else {
      OnlyResting(w);
    }
  }

  /** Terminal states have no exits, and everybody else stands at zero bytes. */
  lemma OnlyResting(w: World)
    requires Fresh(w.d) && w.d.state != FdInProgress
    requires w.d.queue != [] && Table(w.d.state, w.d.queue[0]).Go?
    ensures w.d.fd.bytes == 0
  {
  }

  lemma FiringKeepsFresh(w: World)
    requires Inv(w.d) && Fresh(w.d)
    requires w.d.state == FdInProgress && w.d.fd.downloader.value.Firing?
    ensures Fresh(Step(false, w, DownloaderStep(Proceed)).d)
  {
    var t := w.d.fd.downloader.value;
    DownloaderMoves(false, w, t, Proceed);
    FiredIsQueued(w.d, t.event, Thread(t.role, w.d.fd.Number(t.role)));
    assert [t.event] == [LostConnection] ==> [t.event][0] == LostConnection;
  }

  /** A step does not go back before the count. */
  lemma StaysCounted(w: World, t: Worker, o: Outcome)
    requires BodyPosition(t) || t.Done?
    requires BeforeCount(t) ==> w.d.fd.bytes == 0
    ensures var (w', t') := RunWorker(w, t, o);
            (BeforeCount(t') ==> w'.d.fd.bytes == 0) && (t'.Done? <==> t.Done?) && w'.d.queue == w.d.queue
            && w'.d.state == w.d.state && (t.Done? ==> w' == w)
  {
  }

  lemma BodyKeepsFresh(w: World, o: Outcome)
    requires Inv(w.d) && Fresh(w.d)
    requires w.d.state == FdInProgress && !w.d.fd.downloader.value.Firing?
    ensures Fresh(Step(false, w, DownloaderStep(o)).d)
  {
    DownloaderMoves(false, w, w.d.fd.downloader.value, o);
    StaysCounted(w, w.d.fd.downloader.value, o);
  }

  lemma OthersKeepFresh(w: World, o: Outcome)
    requires Inv(w.d) && Fresh(w.d) && w.d.fd.downloader.Some? && w.d.state != FdInProgress
    ensures Fresh(Step(false, w, DownloaderStep(o)).d)
  {
    DownloaderMoves(false, w, w.d.fd.downloader.value, o);
    OthersKeepTransfer(w, w.d.fd.downloader.value, o);
  }

  lemma ThreadKeepsFresh(w: World, o: Outcome)
    requires Inv(w.d) && Fresh(w.d) && w.d.fd.downloader.Some?
    ensures Fresh(Step(false, w, DownloaderStep(o)).d)
  {
    if w.d.state != FdInProgress {
      OthersKeepFresh(w, o);
    } else if !w.d.fd.downloader.value.Firing? {
      BodyKeepsFresh(w, o);
    } else if o == Proceed {
      FiringKeepsFresh(w);
    } else {
      DownloaderIdle(false, w, o);
    }
  }

  lemma ConnectorKeepsFresh(w: World, o: Outcome)
    requires Inv(w.d) && Fresh(w.d) && w.d.fd.connector.Some?
    ensures Fresh(Step(false, w, ConnectorStep(o)).d)
  {
    ConnectorMoves(false, w, w.d.fd.connector.value, o);
    OthersKeepTransfer(w, w.d.fd.connector.value, o);
  }

  lemma StepKeepsFresh(w: World, l: Label)
    requires Inv(w.d) && Allowed(w.d, l)
    requires Fresh(w.d) && GentlePause(w.d, l)
    ensures Fresh(Step(false, w, l).d)
  {
    match l {
      case Turn =>
        if w.d.queue != [] {
          if Table(w.d.state, w.d.queue[0]).NA? { SkippedTurnKeepsFresh(w); } else { TakenTurnKeepsFresh(w); }
        }
      case ConnectorStep(o) => if w.d.fd.connector.Some? { ConnectorKeepsFresh(w, o); }
      case DownloaderStep(o) => if w.d.fd.downloader.Some? { ThreadKeepsFresh(w, o); }
      case Inject(e) => DriversAppend(w.d.queue, e);
    }
  }

  lemma {:induction false} RunKeepsFresh(w: World, ls: seq<Label>)
    requires Inv(w.d) && Disciplined(w, ls) && Fresh(w.d) && GentleRun(w, ls)
    ensures Fresh(Run(false, w, ls).d)
    decreases ls
  {
    if ls != [] {
      StepKeeps(w, ls[0]);
      StepKeepsFresh(w, ls[0]);
      RunKeepsFresh(Step(false, w, ls[0]), ls[1..]);
    }
  }

  // ---------- the range stays, the counter never falls ----------

  lemma StepKeepsBounds(w: World, l: Label)
    ensures var fd := Step(false, w, l).d.fd; fd.low == w.d.fd.low && fd.high == w.d.fd.high
  {
    if l.Turn? && w.d.fault == NoFault && w.d.queue != [] && Table(w.d.state, w.d.queue[0]).Go? {
      ActKeepsTransfer(Table(w.d.state, w.d.queue[0]).action, Entered(w, Table(w.d.state, w.d.queue[0]).next));
    }
  }

  /** Counters only grow, whatever step is taken. */
  lemma StepCountsUp(w: World, l: Label)
    ensures Step(false, w, l).d.fd.bytes >= w.d.fd.bytes
  {
    match l {
      case Turn =>
        if w.d.fault == NoFault && w.d.queue != [] && Table(w.d.state, w.d.queue[0]).Go? {
          var Go(a, next) := Table(w.d.state, w.d.queue[0]);
          ActKeepsTransfer(a, Entered(w, next));
        }
      case ConnectorStep(o) =>
        if w.d.fd.connector.Some? && !w.d.fd.connector.value.Firing? {
          WorkerFrame(w, w.d.fd.connector.value, o);
        }
      case DownloaderStep(o) =>
        if w.d.fd.downloader.Some? && !w.d.fd.downloader.value.Firing? {
          WorkerFrame(w, w.d.fd.downloader.value, o);
        }
      case Inject(_) =>
    }
  }

  lemma {:induction false} LastZeroIsGentle(w: World, ls: seq<Label>)
    ensures Run(false, w, ls).d.fd.bytes >= w.d.fd.bytes
    ensures Run(false, w, ls).d.fd.bytes == 0 ==> GentleRun(w, ls)
    decreases ls
  {
    if ls != [] {
      StepCountsUp(w, ls[0]);
      LastZeroIsGentle(Step(false, w, ls[0]), ls[1..]);
    }
  }

  // ---------- pauses in the history ----------

  /** Executed pauses are never forgotten, and a step that is not gentle executes one. */
  lemma StepKeepsPauses(w: World, l: Label)
    requires Conserved(w.d) && w.d.fault == NoFault
    ensures BodyUnpaused(Step(false, w, l).d) ==> BodyUnpaused(w.d) && GentlePause(w.d, l)
  {
    match l {
      case Turn =>
        if w.d.queue != [] {
          TallyAppend(w.d.log.executed, w.d.queue[0]);
          match Table(w.d.state, w.d.queue[0]) {
            case NA =>
            case Go(a, next) => ActWrites(a, Entered(w, next));
          }
        }
      case ConnectorStep(o) =>
        if w.d.fd.connector.Some? { WorkerWrites(w, w.d.fd.connector.value, o); }
      case DownloaderStep(o) =>
        if w.d.fd.downloader.Some? { WorkerWrites(w, w.d.fd.downloader.value, o); }
      case Inject(_) =>
    }
  }

  lemma {:induction false} UnpausedIsGentle(w: World, ls: seq<Label>)
    requires Inv(w.d) && Disciplined(w, ls)
    ensures BodyUnpaused(Run(false, w, ls).d) ==> BodyUnpaused(w.d) && GentleRun(w, ls)
    decreases ls
  {
    if ls != [] {
      StepKeeps(w, ls[0]);
      StepKeepsPauses(w, ls[0]);
      UnpausedIsGentle(Step(false, w, ls[0]), ls[1..]);
    }
  }

  /** Over every disciplined run: a download worker that has not counted anything
      stands at zero bytes if and only if every PAUSE taken in FD_IN_PROGRESS so far
      found zero bytes; in particular if none was taken there. */
  lemma WorkersStartFresh(w: World, ls: seq<Label>)
    requires Initial(w.d) && Disciplined(w, ls)
    requires Run(false, w, ls).d.state == FdInProgress
    ensures var d := Run(false, w, ls).d;
            d.fd.downloader.Some?
            && (BeforeCount(d.fd.downloader.value) ==> (d.fd.bytes == 0 <==> GentleRun(w, ls)))
    ensures BodyUnpaused(Run(false, w, ls).d) ==> GentleRun(w, ls)
  {
    ReachableInv(w, ls);
    InitialInv(w.d);
    UnpausedIsGentle(w, ls);
    LastZeroIsGentle(w, ls);
    if GentleRun(w, ls) {
      RunKeepsFresh(w, ls);
    }
  }

  // ---------- who writes PAUSE ----------

  predicate NoPauseQueued(d: Downloader) {
    Pause !in d.queue
  }

  lemma WorkerWritesNoPause(w: World, t: Worker, o: Outcome)
    requires NoPauseQueued(w.d) && (t.Firing? ==> t.event != Pause)
    ensures NoPauseQueued(RunWorker(w, t, o).0.d)
  {
  }

  /** Nobody but the user. */
  lemma StepWritesNoPause(w: World, l: Label)
    requires Shape(w.d) && NoPauseQueued(w.d) && l != Inject(Pause)
    ensures NoPauseQueued(Step(false, w, l).d)
  {
    match l {
      case Turn => if w.d.queue != [] { TurnWritesNoPause(w); }
      case ConnectorStep(o) =>
        if w.d.fd.connector.Some? { WorkerWritesNoPause(w, w.d.fd.connector.value, o); }
      case DownloaderStep(o) =>
        if w.d.fd.downloader.Some? { WorkerWritesNoPause(w, w.d.fd.downloader.value, o); }
      case Inject(_) =>
    }
  }

  lemma TurnWritesNoPause(w: World)
    requires NoPauseQueued(w.d) && w.d.queue != []
    ensures NoPauseQueued(Listen(false, w).d)
  {
    match Table(w.d.state, w.d.queue[0]) {
      case NA =>
      case Go(a, next) => ActFiresNoPause(a, Entered(w, next));
    }
  }

  lemma ActFiresNoPause(a: Action, w: World)
    ensures var d := Act(a, w).d;
            d.queue == w.d.queue || d.queue == w.d.queue + [Start] || d.queue == w.d.queue + [Reconnect]
  {
  }
}
