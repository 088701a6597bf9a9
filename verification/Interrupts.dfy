/**
 One event from the user in an autonomous run of the engine as it is written, where a
 NA entry is a null call: for which states and queues a CANCEL is harmless whatever the
 threads do next, and that a PAUSE never is.
 */
module Interrupts {
  import opened Wrappers
  import opened Fsm
  import opened Downloaders
  import opened Invariant
  import opened Autonomous

  /** Some continuation without further outside events calls a null entry. */
  ghost predicate CanFault(w: World) {
    exists ls | Internal(ls) :: Run(true, w, ls).d.fault == NullEntry
  }

  /** No such continuation faults in any way. */
  ghost predicate NeverFails(w: World) {
    forall ls | Internal(ls) :: Run(true, w, ls).d.fault == NoFault
  }

  function Interrupted(w: World, e: Event): World {
    Step(true, w, Inject(e))
  }

  /** Where a CANCEL finds nothing that could still report: the machine is at rest
      after a failed connect, or the failure is the one event queued. */
  predicate Harmless(d: Downloader) {
    || ((d.state == HeadConnectionFailed || d.state == FdConnectionFailed) && d.queue == [])
    || d.queue == [ConnectFailed]
  }

  // ---------- a CANCEL that is harmless ----------

  predicate Settling(d: Downloader) {
    && d.fault == NoFault && d.fd.downloader.None?
    && match d.state
       case HeadConnectInProgress => d.fd.connector == Some(Done) && d.queue == [ConnectFailed, Cancel]
       case FdConnectInProgress => d.fd.connector == Some(Done) && d.queue == [ConnectFailed, Cancel]
       case HeadConnectionFailed => d.fd.connector.None? && d.queue == [Cancel]
       case FdConnectionFailed => d.fd.connector.None? && d.queue == [Cancel]
       case FdCancelled => d.fd.connector.None? && d.queue == []
       case _ => false
  }

  lemma TurnSettles(w: World)
    requires Settling(w.d)
    ensures Settling(Step(true, w, Turn).d)
  {
    if w.d.queue != [] {
      assert w.d.queue[1..] == if |w.d.queue| == 2 then [Cancel] else [];
    }
  }

  lemma {:induction false} SettlingRuns(w: World, ls: seq<Label>)
    requires Settling(w.d) && Internal(ls)
    ensures Run(true, w, ls).d.fault == NoFault
    decreases ls
  {
    if ls != [] {
      assert ls[0] in ls;
      if ls[0].Turn? {
        TurnSettles(w);
      }
      SettlingRuns(Step(true, w, ls[0]), ls[1..]);
    }
  }

  lemma HarmlessSettles(w: World)
    requires Auto(w.d) && Harmless(w.d)
    ensures Settling(Interrupted(w, Cancel).d)
  {
    if w.d.queue == [ConnectFailed] {
      HeadIsTaken(w.d);
      assert w.d.queue + [Cancel] == [ConnectFailed, Cancel];
    } else {
      assert w.d.queue + [Cancel] == [Cancel];
    }
  }

  // ---------- runs into a null entry, read backwards ----------

  lemma CanFaultBefore(w: World, l: Label)
    requires !l.Inject? && CanFault(Step(true, w, l))
    ensures CanFault(w)
  {
    var ls :| Internal(ls) && Run(true, Step(true, w, l), ls).d.fault == NullEntry;
    RunOne(true, w, l, ls);
    assert Internal([l] + ls);
  }

  lemma FaultedAlready(w: World)
    requires w.d.fault == NullEntry
    ensures CanFault(w)
  {
    assert Internal([]) && Run(true, w, []).d.fault == NullEntry;
  }

  lemma NullTurn(w: World)
    requires w.d.fault == NoFault && w.d.queue != [] && Table(w.d.state, w.d.queue[0]).NA?
    ensures CanFault(w)
  {
    FaultedAlready(Step(true, w, Turn));
    CanFaultBefore(w, Turn);
  }

  /** What threads write. */
  predicate Report(e: Event) {
    e == ErrorRaised || e == Finished || e == LostConnection || e == ConnectSuccess || e == ConnectFailed
  }

  predicate FromUser(e: Event) {
    e == Cancel || e == Pause
  }

  /** The entries of CANCEL and PAUSE only release, and where they lead nothing but the
      user is listened to. */
  lemma UserEntries(s: State, x: Event, a: Action, next: State)
    requires FromUser(x) && Table(s, x) == Go(a, next)
    ensures Releasing(a)
    ensures forall e | Report(e) :: Table(next, e).NA?
    ensures x == Cancel ==> forall e :: Table(next, e).NA?
    ensures x == Pause ==> s == HeadConnectInProgress || s == FdConnectInProgress || s == FdInProgress
  {
  }

  predicate Releasing(a: Action) {
    a == Cleanup || a == PauseTransfer || a == LeaveRunning
  }

  lemma ReleasingIsQuiet(a: Action, w: World)
    requires Releasing(a)
    ensures var d := Act(a, w).d; d.fault == w.d.fault && d.state == w.d.state && d.queue == w.d.queue
  {
  }

  /** A user's event with a report behind it. */
  lemma StaleReport(w: World, x: Event, e: Event)
    requires w.d.fault == NoFault && w.d.queue == [x, e] && FromUser(x)
    requires Report(e) || x == Cancel || Table(w.d.state, x).NA?
    ensures CanFault(w)
  {
    match Table(w.d.state, x) {
      case NA => NullTurn(w);
      case Go(a, next) =>
        UserEntries(w.d.state, x, a, next);
        TakenTurn(true, w, a, next);
        ReleasingIsQuiet(a, Entered(w, next));
        assert [x, e][1..] == [e];
        NullTurn(Step(true, w, Turn));
        CanFaultBefore(w, Turn);
    }
  }

  // ---------- a live thread can report first ----------

  /** An answer with which the thread reports, or comes nearer to it. */
  function Hurry(t: Worker): Outcome {
    match t
    case CallSocket => SocketFail
    case ResolveHost => HostMissing
    case TryConnect(_) => ConnectOk
    case HeadWrite => WriteFail
    case HeadRead => ReadFail
    case BodySend => WriteFail
    case BodyOpen(_, _) => OpenFail
    case BodyFirst(_, _, _) => ReadFail
    case BodyRead(_, _, _) => ReadFail
    case _ => Proceed
  }

  /** Answers until the thread is done. */
  function Away(t: Worker): nat {
    match t
    case Done => 0
    case Firing(_, _) => 1
    case BodyPut(_, _, _, _, _) => 4
    case BodyCount(_, _, _, _, _) => 3
    case _ => 2
  }

  lemma HurryHelps(w: World, t: Worker)
    requires !t.Done? && !t.Firing?
    ensures var (w', t') := RunWorker(w, t, Hurry(t));
            && 0 < Away(t') < Away(t) && (t'.Firing? ==> Report(t'.event))
            && w'.d.queue == w.d.queue && w'.d.state == w.d.state && w'.d.fault == w.d.fault
            && w'.d.fd.connector == w.d.fd.connector && w'.d.fd.downloader == w.d.fd.downloader
  {
  }

  predicate Racing(w: World, t: Worker, x: Event) {
    && w.d.fault == NoFault && w.d.queue == [x] && FromUser(x)
    && !t.Done? && (t.Firing? ==> Report(t.event))
  }

  lemma {:induction false} ConnectorRaces(w: World, t: Worker, x: Event)
    requires Racing(w, t, x) && w.d.fd.connector == Some(t)
    ensures CanFault(w)
    decreases Away(t)
  {
    var l := ConnectorStep(Hurry(t));
    ConnectorMoves(true, w, t, Hurry(t));
    if t.Firing? {
      assert [x] + [t.event] == [x, t.event];
      StaleReport(Step(true, w, l), x, t.event);
    } else {
      HurryHelps(w, t);
      ConnectorRaces(Step(true, w, l), RunWorker(w, t, Hurry(t)).1, x);
    }
    CanFaultBefore(w, l);
  }

  lemma {:induction false} DownloaderRaces(w: World, t: Worker, x: Event)
    requires Racing(w, t, x) && w.d.fd.downloader == Some(t)
    ensures CanFault(w)
    decreases Away(t)
  {
    var l := DownloaderStep(Hurry(t));
    DownloaderMoves(true, w, t, Hurry(t));
    if t.Firing? {
      assert [x] + [t.event] == [x, t.event];
      StaleReport(Step(true, w, l), x, t.event);
    } else {
      HurryHelps(w, t);
      DownloaderRaces(Step(true, w, l), RunWorker(w, t, Hurry(t)).1, x);
    }
    CanFaultBefore(w, l);
  }

  lemma FiringIsReport(d: Downloader)
    requires Shape(d)
    ensures d.fd.connector.Some? && d.fd.connector.value.Firing? ==> Report(d.fd.connector.value.event)
    ensures d.fd.downloader.Some? && d.fd.downloader.value.Firing? ==> Report(d.fd.downloader.value.event)
  {
  }

  /** The user's event is queued while a thread is live. */
  lemma LiveThreadRaces(w: World, x: Event)
    requires Shape(w.d) && w.d.queue == [x] && FromUser(x)
    requires Live(w.d.fd.connector) == 1 || Live(w.d.fd.downloader) == 1
    ensures CanFault(w)
  {
    FiringIsReport(w.d);
    if Live(w.d.fd.connector) == 1 {
      ConnectorRaces(w, w.d.fd.connector.value, x);
    } else {
      DownloaderRaces(w, w.d.fd.downloader.value, x);
    }
  }

  // ---------- the cases ----------

  /** An empty queue: a thread is live, or the machine is at rest. */
  lemma AtRestOrLive(w: World, x: Event)
    requires Auto(w.d) && w.d.queue == [] && FromUser(x) && (x == Cancel ==> !Harmless(w.d))
    ensures CanFault(Interrupted(w, x))
  {
    var w1 := Interrupted(w, x);
    assert w.d.queue + [x] == [x];
    InjectKeepsShape(w.d, x, Outside);
    ShapeDrivers(w.d);
    if Active(w.d.state) {
      LiveThreadRaces(w1, x);
    } else {
      NullTurn(w1);
    }
  }

  predicate Spawns(a: Action) {
    a == Connect || a == SendHeadRequest || a == HandOver || a == StartDownload || a == CleanupAndConnect
  }

  lemma SpawnsLive(a: Action, w: World)
    requires Before(a, w.d) && Spawns(a)
    ensures var d := Act(a, w).d;
            d.queue == w.d.queue && (Live(d.fd.connector) == 1 || Live(d.fd.downloader) == 1)
  {
    match a {
      case Connect =>
      case SendHeadRequest =>
      case HandOver =>
      case StartDownload =>
      case CleanupAndConnect =>
    }
  }

  predicate Fires(a: Action) {
    a == ConnectionUp || a == HeadLost || a == BodyLost
  }

  lemma FiresBehind(a: Action, w: World, x: Event)
    requires Before(a, w.d) && Fires(a) && w.d.queue == [x]
    ensures var d := Act(a, w).d;
            && d.fault == NoFault && Table(d.state, Pause).NA?
            && d.queue == [x, if a == ConnectionUp then Start else Reconnect]
  {
    match a {
      case ConnectionUp =>
      case HeadLost =>
      case BodyLost =>
    }
  }

  lemma EndsQuiet(a: Action, w: World)
    requires Before(a, w.d) && (a == Cleanup || a == Finish)
    ensures var d := Act(a, w).d; d.fault == NoFault && d.state == w.d.state && d.queue == w.d.queue
  {
  }

  /** The event queued first is taken; then the user's event waits alone, or with the
      event the action fired behind it. */
  lemma AfterTaken(w: World, x: Event, a: Action, next: State)
    requires Shape(w.d) && |w.d.queue| == 2 && w.d.queue[1] == x && FromUser(x) && !FromUser(w.d.queue[0])
    requires Table(w.d.state, w.d.queue[0]) == Go(a, next)
    requires x == Cancel ==> w.d.queue[0] != ConnectFailed
    ensures CanFault(w)
  {
    var w1 := Entered(w, next);
    var w2 := Step(true, w, Turn);
    assert w1.d.queue == [x];
    TurnFinds(w, a, next);
    TakenTurn(true, w, a, next);
    ActKeepsShape(a, w1);
    EntriesWithoutUser(w.d.state, w.d.queue[0], a, next);
    if Spawns(a) {
      SpawnsLive(a, w1);
      LiveThreadRaces(w2, x);
    } else if Fires(a) {
      FiresBehind(a, w1, x);
      StaleReport(w2, x, w2.d.queue[1]);
    } else {
      EndsQuiet(a, w1);
      NullTurn(w2);
    }
    CanFaultBefore(w, Turn);
  }

  lemma OneQueued(w: World, x: Event)
    requires Auto(w.d) && w.d.queue != [] && FromUser(x) && (x == Cancel ==> !Harmless(w.d))
    ensures CanFault(Interrupted(w, x))
  {
    HeadIsTaken(w.d);
    assert w.d.queue == [w.d.queue[0]];
    InjectKeepsShape(w.d, x, Outside);
    var Go(a, next) := Table(w.d.state, w.d.queue[0]);
    AfterTaken(Interrupted(w, x), x, a, next);
  }

  lemma NotHarmlessCanFault(w: World, x: Event)
    requires Auto(w.d) && FromUser(x) && (x == Cancel ==> !Harmless(w.d))
    ensures CanFault(Interrupted(w, x))
  {
    if w.d.queue == [] { AtRestOrLive(w, x); } else { OneQueued(w, x); }
  }

  // ---------- over every autonomous run ----------

  /** One CANCEL written at the end of any autonomous run: no continuation faults if
      and only if the machine is at rest after a failed connect or has that failure
      queued; otherwise some continuation calls a null entry. */
  lemma CancelHarmlessIff(w: World, ls: seq<Label>)
    requires Initial(w.d) && Internal(ls)
    ensures var w' := Run(true, w, [Inject(Start)] + ls);
            && (NeverFails(Interrupted(w', Cancel)) <==> Harmless(w'.d))
            && (CanFault(Interrupted(w', Cancel)) <==> !Harmless(w'.d))
  {
    AfterStart(w, ls);
    AutoRuns(Step(true, w, Inject(Start)), ls);
    var w' := Run(true, w, [Inject(Start)] + ls);
    if Harmless(w'.d) {
      HarmlessSettles(w');
      forall more | Internal(more) ensures Run(true, Interrupted(w', Cancel), more).d.fault == NoFault {
        SettlingRuns(Interrupted(w', Cancel), more);
      }
    } else {
      NotHarmlessCanFault(w', Cancel);
    }
  }

  /** One PAUSE, at the end of any autonomous run, can always end in a null call. */
  lemma PauseCanFault(w: World, ls: seq<Label>)
    requires Initial(w.d) && Internal(ls)
    ensures CanFault(Interrupted(Run(true, w, [Inject(Start)] + ls), Pause))
  {
    AfterStart(w, ls);
    AutoRuns(Step(true, w, Inject(Start)), ls);
    NotHarmlessCanFault(Run(true, w, [Inject(Start)] + ls), Pause);
  }
}
