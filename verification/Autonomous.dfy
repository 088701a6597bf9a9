/**
 Autonomous runs: one START from INIT and no further event from outside. Here the
 engine is taken as it is written, where a NA entry is a null call, and no run
 ever reaches one.
 */
module Autonomous {
  import opened Wrappers
  import opened Fsm
  import opened Downloaders
  import opened Invariant

  predicate Internal(ls: seq<Label>) {
    forall l | l in ls :: !l.Inject?
  }

  predicate LastExecuted(d: Downloader, e: Event) {
    d.log.executed != [] && d.log.executed[|d.log.executed| - 1] == e
  }

  predicate Auto(d: Downloader) {
    && Shape(d)
    && DriversIn(d.queue) == d.queue
    && match d.state
       case Init => d.queue == [Start]
       case HeadConnectionFailed => d.queue == [Reconnect] || (d.queue == [] && LastExecuted(d, ConnectFailed))
       case FdConnectionFailed => d.queue == [Reconnect] || (d.queue == [] && LastExecuted(d, ConnectFailed))
       case ErrorState => d.queue == [] && LastExecuted(d, ErrorRaised)
       case FdFinished => d.queue == [] && LastExecuted(d, Finished)
       case FdSuspended => false
       case FdCancelled => false
       case _ => true
  }

  /** Whatever an autonomous queue holds, the current table takes it. */
  lemma HeadIsTaken(d: Downloader)
    requires Auto(d) && d.queue != []
    ensures |d.queue| == 1 && Table(d.state, d.queue[0]).Go?
    ensures d.queue[0] != Cancel && d.queue[0] != Pause
  {
    PopFacts(d);
    assert d.queue == [d.queue[0]];
  }

  /** An action that finds an empty queue, and was not asked for by CANCEL or PAUSE. */
  lemma ActKeepsAuto(a: Action, w: World)
    requires Before(a, w.d) && Shape(Act(a, w).d) && w.d.queue == []
    requires a == Cleanup ==>
      match w.d.state
      case HeadConnectionFailed => LastExecuted(w.d, ConnectFailed)
      case FdConnectionFailed => LastExecuted(w.d, ConnectFailed)
      case ErrorState => LastExecuted(w.d, ErrorRaised)
      case _ => false
    requires a == Finish ==> LastExecuted(w.d, Finished)
    requires a != LeaveRunning && a != PauseTransfer
    ensures Auto(Act(a, w).d)
  {
    match a {
      case Connect =>
      case Cleanup =>
      case ConnectionUp =>
      case SendHeadRequest =>
      case HandOver =>
      case HeadLost =>
      case StartDownload =>
      case CleanupAndConnect =>
      case Finish =>
      case BodyLost =>
    }
  }

  lemma EntriesWithoutUser(s: State, e: Event, a: Action, next: State)
    requires Table(s, e) == Go(a, next) && e != Cancel && e != Pause
    ensures a == Cleanup ==> (next == ErrorState && e == ErrorRaised)
                             || ((next == HeadConnectionFailed || next == FdConnectionFailed) && e == ConnectFailed)
    ensures a == Finish ==> e == Finished
    ensures a != LeaveRunning && a != PauseTransfer
  {
  }

  lemma TurnKeepsAuto(w: World)
    requires Auto(w.d) && w.d.queue != []
    ensures Listen(true, w) == Listen(false, w) && Auto(Listen(false, w).d)
  {
    HeadIsTaken(w.d);
    TurnKeepsShape(w);
    var Go(a, next) := Table(w.d.state, w.d.queue[0]);
    var w1 := Entered(w, next);
    TakenTurn(true, w, a, next);
    TakenTurn(false, w, a, next);
    TurnFinds(w, a, next);
    EntriesWithoutUser(w.d.state, w.d.queue[0], a, next);
    assert w1.d.queue == [];
    ActKeepsAuto(a, w1);
  }

  lemma FiringKeepsAuto(d: Downloader, t: Worker, d': Downloader)
    requires Auto(d) && t.Firing? && Shape(d')
    requires Some(t) == d.fd.connector || Some(t) == d.fd.downloader
    requires d'.state == d.state && d'.log.executed == d.log.executed && d'.queue == d.queue + [t.event]
    ensures Auto(d')
  {
    DriversAppend(d.queue, t.event);
  }

  lemma QuietStepKeepsAuto(d: Downloader, d': Downloader)
    requires Auto(d) && Shape(d')
    requires d'.state == d.state && d'.log.executed == d.log.executed && d'.queue == d.queue
    ensures Auto(d')
  {
  }

  lemma ConnectorStepKeepsAuto(w: World, o: Outcome)
    requires Auto(w.d)
    ensures Auto(Step(false, w, ConnectorStep(o)).d)
  {
    ConnectorStepKeepsShape(w, o);
    var d' := Step(false, w, ConnectorStep(o)).d;
    if w.d.fd.connector.Some? && !w.d.fd.connector.value.Firing? {
      WorkerFrame(w, w.d.fd.connector.value, o);
      QuietStepKeepsAuto(w.d, d');
    } else if w.d.fd.connector.Some? && o == Proceed {
      ConnectorMoves(false, w, w.d.fd.connector.value, o);
      FiringKeepsAuto(w.d, w.d.fd.connector.value, d');
    } else {
      ConnectorIdle(false, w, o);
    }
  }

  lemma DownloaderStepKeepsAuto(w: World, o: Outcome)
    requires Auto(w.d)
    ensures Auto(Step(false, w, DownloaderStep(o)).d)
  {
    DownloaderStepKeepsShape(w, o);
    var d' := Step(false, w, DownloaderStep(o)).d;
    if w.d.fd.downloader.Some? && !w.d.fd.downloader.value.Firing? {
      WorkerFrame(w, w.d.fd.downloader.value, o);
      QuietStepKeepsAuto(w.d, d');
    } else if w.d.fd.downloader.Some? && o == Proceed {
      DownloaderMoves(false, w, w.d.fd.downloader.value, o);
      FiringKeepsAuto(w.d, w.d.fd.downloader.value, d');
    } else {
      DownloaderIdle(false, w, o);
    }
  }

  lemma StepKeepsAuto(w: World, l: Label)
    requires Auto(w.d) && !l.Inject?
    ensures Step(true, w, l) == Step(false, w, l) && Auto(Step(false, w, l).d)
  {
    match l {
      case Turn => if w.d.queue != [] { TurnKeepsAuto(w); }
      case ConnectorStep(o) => ConnectorStepKeepsAuto(w, o);
      case DownloaderStep(o) => DownloaderStepKeepsAuto(w, o);
    }
  }

  /** Strict and lenient execution agree step by step. */
  lemma {:induction false} AutoRuns(w: World, ls: seq<Label>)
    requires Auto(w.d) && Internal(ls)
    ensures Run(true, w, ls) == Run(false, w, ls)
    ensures Auto(Run(false, w, ls).d)
    decreases ls
  {
    if ls != [] {
      assert ls[0] in ls;
      StepKeepsAuto(w, ls[0]);
      AutoRuns(Step(false, w, ls[0]), ls[1..]);
    }
  }

  /** After one START, the engine as written never touches a null entry and fails
      no assert, and at most one event is ever queued, so the listener's own
      write cannot block. */
  lemma NeverFaults(w: World, ls: seq<Label>)
    requires Initial(w.d) && Internal(ls)
    ensures var d := Run(true, w, [Inject(Start)] + ls).d;
            d.fault == NoFault && |d.queue| <= 1
  {
    AfterStart(w, ls);
    var w1 := Step(true, w, Inject(Start));
    AutoRuns(w1, ls);
    var d := Run(true, w1, ls).d;
    if d.queue != [] {
      HeadIsTaken(d);
    }
  }

  lemma AfterStart(w: World, ls: seq<Label>)
    requires Initial(w.d)
    ensures Run(true, w, [Inject(Start)] + ls) == Run(true, Step(true, w, Inject(Start)), ls)
    ensures Auto(Step(true, w, Inject(Start)).d)
  {
    assert ([Inject(Start)] + ls)[1..] == ls;
    assert w.d.queue + [Start] == [Start];
    DriversAppend(w.d.queue, Start);
  }

  /** An autonomous run comes to rest only where the tables wait for somebody: after
      a connect that failed (a lost connection is retried by the machine itself), on
      an error, or with the file finished. */
  lemma RestsOnlyAtTheEnd(w: World, ls: seq<Label>)
    requires Initial(w.d) && Internal(ls)
    requires Drivers(Run(true, w, [Inject(Start)] + ls).d) == 0
    ensures var d := Run(true, w, [Inject(Start)] + ls).d;
            || ((d.state == HeadConnectionFailed || d.state == FdConnectionFailed) && LastExecuted(d, ConnectFailed))
            || (d.state == ErrorState && LastExecuted(d, ErrorRaised))
            || (d.state == FdFinished && LastExecuted(d, Finished))
  {
    AfterStart(w, ls);
    AutoRuns(Step(true, w, Inject(Start)), ls);
    var d := Run(true, w, [Inject(Start)] + ls).d;
    ShapeDrivers(d);
  }

  /** How many turns the listener can still take before it blocks: an event an
      action fired itself spawns, and what spawns fires nothing. */
  function Pending(d: Downloader): nat {
    if d.queue == [] then 0 else if d.queue[0] == Start || d.queue[0] == Reconnect then 1 else 2
  }

  lemma ActLeavesPending(a: Action, w: World, e: Event)
    requires Before(a, w.d) && w.d.queue == []
    requires e == Start || e == Reconnect ==> a != ConnectionUp && a != HeadLost && a != BodyLost
    ensures Pending(Act(a, w).d) < if e == Start || e == Reconnect then 1 else 2
  {
    match a {
      case Connect =>
      case Cleanup =>
      case ConnectionUp =>
      case SendHeadRequest =>
      case LeaveRunning =>
      case HandOver =>
      case HeadLost =>
      case StartDownload =>
      case CleanupAndConnect =>
      case PauseTransfer =>
      case Finish =>
      case BodyLost =>
    }
  }

  lemma TurnShortens(w: World)
    requires Auto(w.d) && w.d.queue != []
    ensures Pending(Listen(true, w).d) < Pending(w.d)
  {
    HeadIsTaken(w.d);
    var e := w.d.queue[0];
    var Go(a, next) := Table(w.d.state, e);
    TakenTurn(true, w, a, next);
    TurnFinds(w, a, next);
    assert Entered(w, next).d.queue == [];
    ActLeavesPending(a, Entered(w, next), e);
  }
}
