/**
 When an assert fails, whatever the user writes and whenever. The invariant here says
 nothing of the queue, so RESUME, ERROR, FINISHED or anything else may be forged at any
 moment: the only assert that can ever fail is the first one of a thread spawn, for a
 START taken without a socket, and only a CONNECT_SUCCESS taken without a socket leads
 there. Disciplined runs take none.
 */
module Asserts {
  import opened Fsm
  import opened Downloaders
  import opened Invariant

  /** The listener is about to take `e` in such a state, and there is no socket. */
  predicate Takes(w: World, l: Label, e: Event) {
    w.d.fault == NoFault && l.Turn? && w.d.queue != [] && w.d.queue[0] == e && w.d.fd.sock == -1
  }

  /** START without a socket behind a connect that was reported. */
  predicate BareStart(w: World, l: Label) {
    IsConnected(w.d.state) && Takes(w, l, Start)
  }

  /** CONNECT_SUCCESS while the connector has no socket: forged or stale. */
  predicate BareSuccess(w: World, l: Label) {
    IsConnecting(w.d.state) && Takes(w, l, ConnectSuccess)
  }

  predicate NoBareStart(strict: bool, w: World, ls: seq<Label>)
    decreases ls
  {
    ls == [] || (!BareStart(w, ls[0]) && NoBareStart(strict, Step(strict, w, ls[0]), ls[1..]))
  }

  predicate NoBareSuccess(strict: bool, w: World, ls: seq<Label>)
    decreases ls
  {
    ls == [] || (!BareSuccess(w, ls[0]) && NoBareSuccess(strict, Step(strict, w, ls[0]), ls[1..]))
  }

  // ---------- the asserts, action by action ----------

  /** What the asserts on the way of each action ask for. */
  predicate AssertsOf(a: Action, fd: Fd) {
    match a
    case Connect =>
      fd.sock == -1 && fd.connector.None? && fd.downloader.None? && |fd.serverName| > 0
    case ConnectionUp => fd.connector.Some?
    case SendHeadRequest => fd.sock != -1 && fd.connector.None? && fd.downloader.None?
    case StartDownload => fd.sock != -1 && fd.connector.None? && fd.downloader.None?
    case HandOver => |fd.serverName| > 0
    case CleanupAndConnect => |fd.serverName| > 0
    case Finish => fd.downloader.Some?
    case BodyLost => fd.downloader.Some? && fd.sock != -1
    case _ => true
  }

  /** From any object whatever, reachable or not, an action fails an assert if and only
      if one of its own does not hold. */
  lemma ActFailsIff(a: Action, w: World)
    requires w.d.fault == NoFault
    ensures Act(a, w).d.fault == (if AssertsOf(a, w.d.fd) then NoFault else AssertFailed)
  {
    match a {
      case Connect =>
      case Cleanup =>
      case ConnectionUp =>
      case SendHeadRequest =>
      case LeaveRunning =>
      case HandOver =>
      case HeadLost =>
      case StartDownload =>
      case CleanupAndConnect =>
      case PauseTransfer =>
      case Finish =>
      case BodyLost =>
    }
  }

  // ---------- an invariant without discipline ----------

  /** A socket, and a thread in the downloader's slot that opens no other. */
  predicate HeldFast(fd: Fd) {
    Held(fd) && !fd.downloader.value.CallSocket?
  }

  predicate Loose(d: Downloader) {
    && |d.fd.serverName| > 0
    && match d.state
       case HeadConnectInProgress => d.fd.connector.Some? && d.fd.downloader.None?
       case FdConnectInProgress => d.fd.connector.Some? && d.fd.downloader.None?
       case HeadConnected => NoThreads(d.fd)
       case FdConnected => NoThreads(d.fd)
       case HeadGetResponseAwait => HeldFast(d.fd)
       case FdInProgress => HeldFast(d.fd)
       case FdCancelled => d.fd.Clean() || HeldFast(d.fd)
       case _ => d.fd.Clean()
  }

  /** What each action finds when it starts. */
  predicate LooseBefore(a: Action, d: Downloader) {
    && d.fault == NoFault && |d.fd.serverName| > 0
    && match a
       case Connect => IsConnecting(d.state) && d.fd.Clean()
       case Cleanup => Resting(d.state)
       case ConnectionUp => IsConnected(d.state) && d.fd.connector.Some? && d.fd.downloader.None?
       case SendHeadRequest => d.state == HeadGetResponseAwait && NoThreads(d.fd)
       case LeaveRunning => d.state == FdCancelled && HeldFast(d.fd)
       case HandOver => d.state == FdConnectInProgress
       case HeadLost => d.state == HeadConnectionFailed
       case StartDownload => d.state == FdInProgress && NoThreads(d.fd)
       case CleanupAndConnect => d.state == FdConnectInProgress
       case PauseTransfer => d.state == FdSuspended
       case Finish => d.state == FdFinished && Held(d.fd)
       case BodyLost => d.state == FdConnectionFailed && Held(d.fd)
  }

  /** The one thing that can be missing. */
  predicate Missing(a: Action, fd: Fd) {
    (a == SendHeadRequest || a == StartDownload) && fd.sock == -1
  }

  lemma ActLoose(a: Action, w: World)
    requires LooseBefore(a, w.d)
    ensures if Missing(a, w.d.fd) then Act(a, w).d.fault == AssertFailed
            else Act(a, w).d.fault == NoFault && Loose(Act(a, w).d)
  {
    match a {
      case Connect =>
      case Cleanup =>
      case ConnectionUp =>
      case SendHeadRequest =>
      case LeaveRunning =>
      case HandOver =>
      case HeadLost =>
      case StartDownload =>
      case CleanupAndConnect =>
      case PauseTransfer =>
      case Finish =>
      case BodyLost =>
    }
  }

  lemma LooseFinds(w: World, a: Action, next: State)
    requires w.d.fault == NoFault && Loose(w.d)
    requires w.d.queue != [] && Table(w.d.state, w.d.queue[0]) == Go(a, next)
    ensures LooseBefore(a, Entered(w, next).d)
    ensures Missing(a, w.d.fd) <==> BareStart(w, Turn)
  {
    match w.d.state {
      case HeadConnectInProgress =>
      case FdConnectInProgress =>
      case HeadConnected =>
      case FdConnected =>
      case HeadGetResponseAwait =>
      case FdInProgress =>
      case _ =>
    }
  }

  lemma TurnLoose(strict: bool, w: World)
    requires w.d.fault == NoFault && Loose(w.d) && w.d.queue != []
    ensures var d := Listen(strict, w).d;
            && (d.fault == AssertFailed <==> BareStart(w, Turn))
            && (d.fault == NoFault ==> Loose(d)) && (!strict ==> d.fault != NullEntry)
  {
    match Table(w.d.state, w.d.queue[0]) {
      case NA =>
      case Go(a, next) =>
        LooseFinds(w, a, next);
        TakenTurn(strict, w, a, next);
        ActLoose(a, Entered(w, next));
    }
  }

  lemma WorkerLoose(w: World, t: Worker, o: Outcome)
    ensures var (w', t') := RunWorker(w, t, o);
            && w'.d.fault == w.d.fault && w'.d.state == w.d.state
            && w'.d.fd.serverName == w.d.fd.serverName
            && w'.d.fd.connector == w.d.fd.connector && w'.d.fd.downloader == w.d.fd.downloader
            && (!t.CallSocket? ==> !t'.CallSocket? && w'.d.fd.sock == w.d.fd.sock)
  {
  }

  lemma StepLoose(strict: bool, w: World, l: Label)
    requires w.d.fault == NoFault && Loose(w.d)
    ensures var d := Step(strict, w, l).d;
            && (d.fault == AssertFailed <==> BareStart(w, l))
            && (d.fault == NoFault ==> Loose(d)) && (!strict ==> d.fault != NullEntry)
  {
    match l {
      case Turn => if w.d.queue != [] { TurnLoose(strict, w); }
      case ConnectorStep(o) => if w.d.fd.connector.Some? { WorkerLoose(w, w.d.fd.connector.value, o); }
      case DownloaderStep(o) => if w.d.fd.downloader.Some? { WorkerLoose(w, w.d.fd.downloader.value, o); }
      case Inject(_) =>
    }
  }

  lemma {:induction false} FaultStays(strict: bool, w: World, ls: seq<Label>)
    requires w.d.fault != NoFault
    ensures Run(strict, w, ls) == w && NoBareStart(strict, w, ls)
    decreases ls
  {
    if ls != [] {
      FaultStays(strict, w, ls[1..]);
    }
  }

  lemma {:induction false} RunLoose(strict: bool, w: World, ls: seq<Label>)
    requires w.d.fault == NoFault && Loose(w.d)
    ensures var d := Run(strict, w, ls).d;
            && (d.fault == AssertFailed <==> !NoBareStart(strict, w, ls))
            && (d.fault == NoFault ==> Loose(d)) && (!strict ==> d.fault != NullEntry)
    decreases ls
  {
    if ls != [] {
      StepLoose(strict, w, ls[0]);
      if Step(strict, w, ls[0]).d.fault == NoFault {
        RunLoose(strict, Step(strict, w, ls[0]), ls[1..]);
      } else {
        FaultStays(strict, Step(strict, w, ls[0]), ls[1..]);
      }
    }
  }

  /** Over every run from a fresh object, of the engine as written or as meant, with
      any events from anybody: an assert fails if and only if a START is taken in
      HEAD_CONNECTED or FD_CONNECTED without a socket. */
  lemma AssertsHoldIff(strict: bool, w: World, ls: seq<Label>)
    requires Initial(w.d)
    ensures Run(strict, w, ls).d.fault != AssertFailed <==> NoBareStart(strict, w, ls)
    ensures !strict ==> (Run(strict, w, ls).d.fault == NoFault <==> NoBareStart(strict, w, ls))
  {
    RunLoose(strict, w, ls);
  }

  // ---------- what leads there ----------

  /** Behind a reported connect there is a socket. */
  predicate Plugged(d: Downloader) {
    IsConnected(d.state) ==> d.fd.sock != -1
  }

  lemma ActPlugs(a: Action, w: World)
    requires LooseBefore(a, w.d) && !Missing(a, w.d.fd) && (a == ConnectionUp ==> w.d.fd.sock != -1)
    ensures Plugged(Act(a, w).d)
  {
    ActWrites(a, w);
  }

  lemma StepPlugs(strict: bool, w: World, l: Label)
    requires w.d.fault == NoFault && Loose(w.d) && Plugged(w.d) && !BareSuccess(w, l)
    ensures !BareStart(w, l) && Plugged(Step(strict, w, l).d)
  {
    match l {
      case Turn =>
        if w.d.queue != [] {
          match Table(w.d.state, w.d.queue[0]) {
            case NA =>
            case Go(a, next) =>
              LooseFinds(w, a, next);
              TakenTurn(strict, w, a, next);
              assert a == ConnectionUp ==> w.d.fd.sock != -1;
              ActPlugs(a, Entered(w, next));
          }
        }
      case ConnectorStep(o) => if w.d.fd.connector.Some? { WorkerLoose(w, w.d.fd.connector.value, o); }
      case DownloaderStep(o) => if w.d.fd.downloader.Some? { WorkerLoose(w, w.d.fd.downloader.value, o); }
      case Inject(_) =>
    }
  }

  lemma {:induction false} RunPlugs(strict: bool, w: World, ls: seq<Label>)
    requires w.d.fault == NoFault && Loose(w.d) && Plugged(w.d) && NoBareSuccess(strict, w, ls)
    ensures NoBareStart(strict, w, ls)
    decreases ls
  {
    if ls != [] {
      StepPlugs(strict, w, ls[0]);
      StepLoose(strict, w, ls[0]);
      if Step(strict, w, ls[0]).d.fault == NoFault {
        RunPlugs(strict, Step(strict, w, ls[0]), ls[1..]);
      } else {
        FaultStays(strict, Step(strict, w, ls[0]), ls[1..]);
      }
    }
  }

  /** A disciplined user's CONNECT_SUCCESS is the connector's own. */
  lemma {:induction false} DisciplinedSuccess(w: World, ls: seq<Label>)
    requires Inv(w.d) && Disciplined(w, ls)
    ensures NoBareSuccess(false, w, ls)
    decreases ls
  {
    if ls != [] {
      if w.d.queue != [] {
        PopFacts(w.d);
      }
      StepKeeps(w, ls[0]);
      DisciplinedSuccess(Step(false, w, ls[0]), ls[1..]);
    }
  }

  /** Whatever the user writes: if no CONNECT_SUCCESS is taken in a connecting state
      without a socket, no assert of a spawn function or of an action ever fails. So
      it is in every disciplined run, wherever CANCEL and PAUSE fall and whatever stale
      events cancelled workers leave queued. */
  lemma AssertionSafety(strict: bool, w: World, ls: seq<Label>)
    requires Initial(w.d)
    ensures NoBareSuccess(strict, w, ls) ==> Run(strict, w, ls).d.fault != AssertFailed
    ensures NoBareSuccess(false, w, ls) ==> Run(false, w, ls).d.fault == NoFault
    ensures Disciplined(w, ls) ==> NoBareSuccess(false, w, ls) && Run(false, w, ls).d.fault == NoFault
  {
    if Disciplined(w, ls) {
      InitialInv(w.d);
      DisciplinedSuccess(w, ls);
    }
    if NoBareSuccess(strict, w, ls) {
      RunPlugs(strict, w, ls);
      RunLoose(strict, w, ls);
    }
    if NoBareSuccess(false, w, ls) {
      RunPlugs(false, w, ls);
      RunLoose(false, w, ls);
    }
  }

  // ---------- and the way back ----------

  function Turns(n: nat): seq<Label> {
    seq(n, _ => Turn)
  }

  /** Of CANCEL and START, START comes first. */
  predicate StartFirst(q: seq<Event>) {
    q != [] && (q[0] == Start || (q[0] != Cancel && StartFirst(q[1..])))
  }

  lemma OneMoreTurn(w: World, n: nat)
    ensures Run(false, w, Turns(n + 1)) == Run(false, Step(false, w, Turn), Turns(n))
  {
    assert Turns(n + 1) == [Turn] + Turns(n);
    RunOne(false, w, Turn, Turns(n));
  }

  /** Connected without a socket. */
  predicate Bare(d: Downloader) {
    d.fault == NoFault && IsConnected(d.state) && NoThreads(d.fd) && d.fd.sock == -1
  }

  /** Events other than CANCEL and START are skipped there. */
  lemma BareTurn(w: World)
    requires Bare(w.d) && w.d.queue != [] && |w.d.fd.serverName| > 0
    ensures var d := Step(false, w, Turn).d;
            if w.d.queue[0] == Start then d.fault == AssertFailed
            else if w.d.queue[0] == Cancel then Parked(d)
            else Bare(d) && d.queue == w.d.queue[1..] && d.fd == w.d.fd
  {
  }

  lemma {:induction false} StartFirstFails(w: World) returns (n: nat)
    requires Bare(w.d) && |w.d.fd.serverName| > 0 && StartFirst(w.d.queue)
    ensures n <= |w.d.queue| && Run(false, w, Turns(n)).d.fault == AssertFailed
    decreases |w.d.queue|
  {
    BareTurn(w);
    var w' := Step(false, w, Turn);
    n := 0;
    if w.d.queue[0] != Start {
      n := StartFirstFails(w');
    }
    OneMoreTurn(w, n);
    n := n + 1;
  }

  lemma {:induction false} OtherwiseSafe(w: World, n: nat)
    requires Bare(w.d) && |w.d.fd.serverName| > 0 && !StartFirst(w.d.queue)
    ensures Run(false, w, Turns(n)).d.fault == NoFault
    decreases n
  {
    if n > 0 {
      OneMoreTurn(w, n - 1);
      if w.d.queue == [] {
        OtherwiseSafe(w, n - 1);
      } else {
        BareTurn(w);
        if w.d.queue[0] == Cancel {
          ParkedStays(Step(false, w, Turn), Turns(n - 1));
        } else {
          OtherwiseSafe(Step(false, w, Turn), n - 1);
        }
      }
    }
  }

  /** The listener alone, nobody else moving, comes to a failed assert. */
  ghost predicate ListenerFails(w: World) {
    exists n: nat :: Run(false, w, Turns(n)).d.fault == AssertFailed
  }

  lemma BareSuccessTurn(w: World)
    requires Loose(w.d) && BareSuccess(w, Turn)
    ensures var d := Step(false, w, Turn).d;
            Bare(d) && |d.fd.serverName| > 0 && d.queue == w.d.queue[1..] + [Start]
  {
  }

  lemma AfterBareSuccess(w: World)
    requires Loose(w.d) && BareSuccess(w, Turn)
    ensures ListenerFails(w) <==> StartFirst(w.d.queue[1..] + [Start])
  {
    BareSuccessTurn(w);
    var w' := Step(false, w, Turn);
    if StartFirst(w.d.queue[1..] + [Start]) {
      var n := StartFirstFails(w');
      OneMoreTurn(w, n);
    } else {
      forall n: nat ensures Run(false, w, Turns(n)).d.fault != AssertFailed {
        if n > 0 {
          OneMoreTurn(w, n - 1);
          OtherwiseSafe(w', n - 1);
        }
      }
    }
  }

  lemma {:induction false} NoCancelStartFirst(q: seq<Event>)
    requires Cancel !in q
    ensures StartFirst(q + [Start])
  {
    if q != [] {
      assert (q + [Start])[1..] == q[1..] + [Start];
      NoCancelStartFirst(q[1..]);
    }
  }

  /** Conversely: wherever a run is about to take a CONNECT_SUCCESS without a socket,
      the listener alone goes on to fail the assert if and only if no CANCEL is queued
      before the first START behind it; so it does if no CANCEL is queued at all. */
  lemma BareSuccessFailsIff(w: World, ls: seq<Label>)
    requires Initial(w.d) && BareSuccess(Run(false, w, ls), Turn)
    ensures var w' := Run(false, w, ls);
            && (ListenerFails(w') <==> StartFirst(w'.d.queue[1..] + [Start]))
            && (Cancel !in w'.d.queue ==> ListenerFails(w'))
  {
    RunLoose(false, w, ls);
    var w' := Run(false, w, ls);
    AfterBareSuccess(w');
    if Cancel !in w'.d.queue {
      NoCancelStartFirst(w'.d.queue[1..]);
    }
  }
}
