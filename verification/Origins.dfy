/**
 Who wrote the event that is taken. Threads of three kinds report through one queue,
 and FINISHED, ERROR and LOST_CONNECTION are written by more than one kind; stale
 events of cancelled threads are queued as well. In every disciplined run, the
 event that moves a waiting state on still comes from the thread it waits for.
 */
module Origins {
  import opened Wrappers
  import opened Fsm
  import opened Downloaders
  import opened Invariant

  /** The states that wait for a worker thread. */
  predicate Waiting(s: State) {
    s == HeadConnectInProgress || s == FdConnectInProgress || s == HeadGetResponseAwait || s == FdInProgress
  }

  function AwaitedRole(s: State): Role {
    match s
    case HeadGetResponseAwait => HeadRole
    case FdInProgress => BodyRole
    case _ => ConnectorRole
  }

  /** The thread behind a pointer is the one spawned last. */
  predicate Numbered(fd: Fd) {
    && (fd.connector.Some? ==> fd.ledger.connectorNo == fd.ledger.spawns)
    && (fd.downloader.Some? ==> fd.ledger.downloaderNo == fd.ledger.spawns)
  }

  /** A driver event queued in a waiting state comes from the thread behind the
      pointer, which got its number when it was spawned. */
  predicate Owned(d: Downloader) {
    && |d.log.origins| == |d.log.fired|
    && (Waiting(d.state)
        ==> forall i | |d.log.executed| <= i < |d.log.fired| && IsDriver(d.log.fired[i]) ::
              d.log.origins[i] == Thread(AwaitedRole(d.state), d.fd.Number(AwaitedRole(d.state))))
  }

  /** The i-th executed event, if it moved a waiting state on, came from a thread of
      the kind that state waits for. */
  predicate OwnedAt(log: Log, i: nat)
    requires i < |log.executed| <= |log.origins|
  {
    var s := TallyOf(log.executed[..i]).state;
    Waiting(s) && IsDriver(log.executed[i])
    ==> log.origins[i].Thread? && log.origins[i].role == AwaitedRole(s)
  }

  predicate OwnedSoFar(log: Log) {
    |log.executed| <= |log.origins| && forall i | 0 <= i < |log.executed| :: OwnedAt(log, i)
  }

  // ---------- steps ----------

  /** What a step other than dequeuing does to the log: events are added behind it. */
  predicate Grows(log: Log, log': Log) {
    && log'.executed == log.executed
    && log.fired <= log'.fired && log.origins <= log'.origins
    && |log'.fired| - |log.fired| == |log'.origins| - |log.origins|
  }

  lemma ActGrows(a: Action, w: World)
    ensures Grows(w.d.log, Act(a, w).d.log)
  {
    match a {
      case Connect =>
      case Cleanup =>
      case ConnectionUp =>
      case SendHeadRequest =>
      case LeaveRunning =>
      case HandOver =>
      case HeadLost =>
      case StartDownload =>
      case CleanupAndConnect =>
      case PauseTransfer =>
      case Finish =>
      case BodyLost =>
    }
  }

  lemma GrowsKeepsHistory(log: Log, log': Log)
    requires OwnedSoFar(log) && Grows(log, log')
    ensures OwnedSoFar(log')
  {
    forall i | 0 <= i < |log'.executed| ensures OwnedAt(log', i) {
      assert OwnedAt(log, i);
    }
  }

  lemma {:induction false} NoDriver(q: seq<Event>, i: nat)
    requires DriversIn(q) == [] && i < |q|
    ensures !IsDriver(q[i])
  {
    if i > 0 {
      NoDriver(q[1..], i - 1);
    }
  }

  /** A turn into a waiting state spawns the thread waited for, and leaves no driver queued. */
  lemma SpawningActFiresNothing(w: World, a: Action)
    requires Before(a, w.d) && Waiting(w.d.state)
    ensures var d := Act(a, w).d;
            d.queue == w.d.queue && d.log == w.d.log && d.state == w.d.state && DriversIn(w.d.queue) == []
  {
    match a {
      case Connect =>
      case SendHeadRequest =>
      case HandOver =>
      case StartDownload =>
      case CleanupAndConnect =>
    }
  }

  lemma QuietIsOwned(d: Downloader)
    requires Conserved(d) && |d.log.origins| == |d.log.fired| && DriversIn(d.queue) == []
    ensures Owned(d)
  {
    forall i | |d.log.executed| <= i < |d.log.fired| ensures !IsDriver(d.log.fired[i]) {
      NoDriver(d.queue, i - |d.log.executed|);
    }
  }

  lemma SkippedTurnKeepsOwned(w: World)
    requires Owned(w.d) && w.d.queue != [] && Table(w.d.state, w.d.queue[0]).NA?
    ensures Owned(Listen(false, w).d)
  {
  }

  lemma TurnKeepsOwned(w: World)
    requires Shape(w.d) && Conserved(w.d) && Owned(w.d) && w.d.queue != []
    requires Conserved(Listen(false, w).d)
    ensures Owned(Listen(false, w).d)
  {
    match Table(w.d.state, w.d.queue[0]) {
      case NA => SkippedTurnKeepsOwned(w);
      case Go(a, next) =>
        var w1 := Entered(w, next);
        TurnFinds(w, a, next);
        TakenTurn(false, w, a, next);
        ActGrows(a, w1);
        ActWrites(a, w1);
        if Waiting(next) {
          SpawningActFiresNothing(w1, a);
          QuietIsOwned(Act(a, w1).d);
        }
    }
  }

  /** The event about to be taken. */
  lemma HeadIsOwned(d: Downloader)
    requires Conserved(d) && Owned(d) && Waiting(d.state) && d.queue != [] && IsDriver(d.queue[0])
    ensures var n := |d.log.executed|;
            n < |d.log.origins| && d.log.origins[n] == Thread(AwaitedRole(d.state), d.fd.Number(AwaitedRole(d.state)))
  {
    var n := |d.log.executed|;
    assert d.log.fired[n] == d.queue[0];
  }

  lemma TurnKeepsHistory(w: World)
    requires Conserved(w.d) && Owned(w.d) && OwnedSoFar(w.d.log) && w.d.queue != []
    ensures OwnedSoFar(Listen(false, w).d.log)
  {
    var e := w.d.queue[0];
    var log := w.d.log.(executed := w.d.log.executed + [e]);
    assert |w.d.log.fired| == |w.d.log.executed| + |w.d.queue|;
    forall i | 0 <= i < |log.executed| ensures OwnedAt(log, i) {
      if i < |w.d.log.executed| {
        assert OwnedAt(w.d.log, i);
        assert log.executed[..i] == w.d.log.executed[..i];
      } else {
        assert log.executed[..i] == w.d.log.executed;
        if Waiting(w.d.state) && IsDriver(e) {
          HeadIsOwned(w.d);
        }
      }
    }
    match Table(w.d.state, e) {
      case NA =>
      case Go(a, next) =>
        ActGrows(a, Entered(w, next));
        GrowsKeepsHistory(log, Act(a, Entered(w, next)).d.log);
    }
  }

  /** A thread reports: in a waiting state it is the one waited for. */
  lemma FiringKeepsOwned(d: Downloader, t: Worker, d': Downloader)
    requires Shape(d) && Conserved(d) && Owned(d) && t.Firing?
    requires Some(t) == d.fd.connector || Some(t) == d.fd.downloader
    requires d'.state == d.state && d'.fd.ledger == d.fd.ledger
    requires d'.log == Fire(d, t.event, Thread(t.role, d.fd.Number(t.role))).log
    ensures Owned(d')
  {
    if Waiting(d.state) {
      assert t.role == AwaitedRole(d.state);
    }
  }

  lemma QuietStepKeepsOwned(d: Downloader, d': Downloader)
    requires Owned(d) && d'.log == d.log && d'.state == d.state
    requires d'.fd.ledger.connectorNo == d.fd.ledger.connectorNo
    requires d'.fd.ledger.downloaderNo == d.fd.ledger.downloaderNo
    ensures Owned(d')
  {
  }

  lemma ConnectorStepKeepsOwned(w: World, o: Outcome)
    requires Shape(w.d) && Conserved(w.d) && Owned(w.d)
    ensures var d := Step(false, w, ConnectorStep(o)).d; Owned(d) && Grows(w.d.log, d.log)
  {
    if w.d.fd.connector.Some? && !w.d.fd.connector.value.Firing? {
      WorkerFrame(w, w.d.fd.connector.value, o);
      QuietStepKeepsOwned(w.d, Step(false, w, ConnectorStep(o)).d);
    } else if w.d.fd.connector.Some? && o == Proceed {
      FiringKeepsOwned(w.d, w.d.fd.connector.value, Step(false, w, ConnectorStep(o)).d);
    } else {
      ConnectorIdle(false, w, o);
    }
  }

  lemma DownloaderStepKeepsOwned(w: World, o: Outcome)
    requires Shape(w.d) && Conserved(w.d) && Owned(w.d)
    ensures var d := Step(false, w, DownloaderStep(o)).d; Owned(d) && Grows(w.d.log, d.log)
  {
    if w.d.fd.downloader.Some? && !w.d.fd.downloader.value.Firing? {
      WorkerFrame(w, w.d.fd.downloader.value, o);
      QuietStepKeepsOwned(w.d, Step(false, w, DownloaderStep(o)).d);
    } else if w.d.fd.downloader.Some? && o == Proceed {
      FiringKeepsOwned(w.d, w.d.fd.downloader.value, Step(false, w, DownloaderStep(o)).d);
    } else {
      DownloaderIdle(false, w, o);
    }
  }

  /** Nobody else writes a driver event in a waiting state. */
  lemma InjectKeepsOwned(d: Downloader, e: Event)
    requires Shape(d) && Owned(d) && (IsDriver(e) ==> Drivers(d) == 0)
    ensures Owned(Fire(d, e, Outside)) && Grows(d.log, Fire(d, e, Outside).log)
  {
    ShapeDrivers(d);
  }

  // ---------- the numbers, whatever the user writes ----------

  /** Both pointers are null at every spawn. */
  lemma ActKeepsNumbered(a: Action, w: World)
    requires Numbered(w.d.fd)
    ensures Numbered(Act(a, w).d.fd)
  {
    match a {
      case Connect =>
      case Cleanup =>
      case ConnectionUp =>
      case SendHeadRequest =>
      case LeaveRunning =>
      case HandOver =>
      case HeadLost =>
      case StartDownload =>
      case CleanupAndConnect =>
      case PauseTransfer =>
      case Finish =>
      case BodyLost =>
    }
  }

  lemma WorkerKeepsNumbered(w: World, t: Worker, o: Outcome)
    requires Numbered(w.d.fd)
    ensures var fd := RunWorker(w, t, o).0.d.fd;
            Numbered(fd) && fd.connector == w.d.fd.connector && fd.downloader == w.d.fd.downloader
  {
  }

  lemma StepKeepsNumbered(w: World, l: Label)
    requires Numbered(w.d.fd)
    ensures Numbered(Step(false, w, l).d.fd)
  {
    if w.d.fault == NoFault {
      match l {
        case Turn =>
          if w.d.queue != [] && Table(w.d.state, w.d.queue[0]).Go? {
            var Go(a, next) := Table(w.d.state, w.d.queue[0]);
            TakenTurn(false, w, a, next);
            ActKeepsNumbered(a, Entered(w, next));
          }
        case ConnectorStep(o) =>
          if w.d.fd.connector.Some? { WorkerKeepsNumbered(w, w.d.fd.connector.value, o); }
        case DownloaderStep(o) =>
          if w.d.fd.downloader.Some? { WorkerKeepsNumbered(w, w.d.fd.downloader.value, o); }
        case Inject(_) =>
      }
    }
  }

  predicate OwnInv(d: Downloader) {
    Inv(d) && Numbered(d.fd) && Owned(d) && OwnedSoFar(d.log)
  }

  lemma StepKeepsOwnInv(w: World, l: Label)
    requires OwnInv(w.d) && Allowed(w.d, l)
    ensures OwnInv(Step(false, w, l).d)
  {
    StepKeeps(w, l);
    StepKeepsNumbered(w, l);
    match l {
      case Turn =>
        if w.d.queue != [] {
          TurnKeepsOwned(w);
          TurnKeepsHistory(w);
        }
      case ConnectorStep(o) =>
        ConnectorStepKeepsOwned(w, o);
        GrowsKeepsHistory(w.d.log, Step(false, w, l).d.log);
      case DownloaderStep(o) =>
        DownloaderStepKeepsOwned(w, o);
        GrowsKeepsHistory(w.d.log, Step(false, w, l).d.log);
      case Inject(e) =>
        InjectKeepsOwned(w.d, e);
        GrowsKeepsHistory(w.d.log, Step(false, w, l).d.log);
    }
  }

  // ---------- runs ----------

  lemma {:induction false} RunKeepsOwnInv(w: World, ls: seq<Label>)
    requires OwnInv(w.d) && Disciplined(w, ls)
    ensures OwnInv(Run(false, w, ls).d)
    decreases ls
  {
    if ls != [] {
      StepKeepsOwnInv(w, ls[0]);
      RunKeepsOwnInv(Step(false, w, ls[0]), ls[1..]);
    }
  }

  /** In every disciplined run, a driver event about to be taken in a waiting state
      was written by the very thread behind the pointer, under the number it got at its
      spawn, and nothing was spawned since: never by an earlier thread that was
      cancelled, or by one of another phase. */
  lemma TakenFromOwnThread(w: World, ls: seq<Label>)
    requires Initial(w.d) && Disciplined(w, ls)
    requires var d := Run(false, w, ls).d;
             Waiting(d.state) && d.queue != [] && IsDriver(d.queue[0])
    ensures var d := Run(false, w, ls).d;
            var n := |d.log.executed|;
            && n < |d.log.origins|
            && d.log.origins[n] == Thread(AwaitedRole(d.state), d.fd.Number(AwaitedRole(d.state)))
            && d.fd.Number(AwaitedRole(d.state)) == d.fd.ledger.spawns
            && (if AwaitedRole(d.state) == ConnectorRole then d.fd.connector else d.fd.downloader) == Some(Done)
  {
    InitialInv(w.d);
    RunKeepsOwnInv(w, ls);
    var d := Run(false, w, ls).d;
    HeadIsOwned(d);
    PopFacts(d);
  }

  lemma {:induction false} FinishedWasTaken(es: seq<Event>) returns (i: nat)
    requires TallyOf(es).state == FdFinished
    ensures i < |es| && es[i] == Finished && TallyOf(es[..i]).state == FdInProgress
  {
    i := |es| - 1;
    var init := es[..i];
    if TallyOf(init).state == FdFinished {
      i := FinishedWasTaken(init);
      assert init[..i] == es[..i];
    }
  }

  /** Over the whole history of every disciplined run: each FINISHED taken in
      FD_IN_PROGRESS was written by a body thread, each one taken in
      HEAD_GET_RESPONSE_AWAIT by a HEAD thread, and likewise for every event that
      moved a waiting state on; and FD_FINISHED is there because of such a FINISHED. */
  lemma FinishedByItsPhase(w: World, ls: seq<Label>) returns (last: nat)
    requires Initial(w.d) && Disciplined(w, ls)
    ensures var log := Run(false, w, ls).d.log;
            && |log.executed| <= |log.origins|
            && (forall i | 0 <= i < |log.executed| && IsDriver(log.executed[i])
                           && Waiting(TallyOf(log.executed[..i]).state) ::
                  log.origins[i].Thread? && log.origins[i].role == AwaitedRole(TallyOf(log.executed[..i]).state))
    ensures var d := Run(false, w, ls).d;
            d.state == FdFinished
            ==> last < |d.log.executed| && d.log.executed[last] == Finished
                && TallyOf(d.log.executed[..last]).state == FdInProgress
                && d.log.origins[last].Thread? && d.log.origins[last].role == BodyRole
  {
    InitialInv(w.d);
    RunKeepsOwnInv(w, ls);
    var d := Run(false, w, ls).d;
    forall i | 0 <= i < |d.log.executed| && IsDriver(d.log.executed[i])
               && Waiting(TallyOf(d.log.executed[..i]).state)
      ensures d.log.origins[i].Thread?
              && d.log.origins[i].role == AwaitedRole(TallyOf(d.log.executed[..i]).state)
    {
      assert OwnedAt(d.log, i);
    }
    last := 0;
    if d.state == FdFinished {
      last := FinishedWasTaken(d.log.executed);
    }
  }
}
