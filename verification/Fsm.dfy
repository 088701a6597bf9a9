/**
 States, events and transition tables of the download state machine
 (FileDownloaderStates.h, FileDownloaderFSM.cpp), and the step accounting that
 follows from the tables alone.
 */
module Fsm {

  datatype State =
    | Init
    | HeadConnectInProgress
    | HeadConnected
    | HeadConnectionFailed
    | HeadGetResponseAwait
    | FdConnectInProgress
    | FdConnected
    | FdConnectionFailed
    | FdInProgress
    | FdSuspended
    | FdCancelled
    | FdFinished
    | ErrorState

  datatype Event =
    | Cancel
    | Pause
    | Resume
    | Start
    | ErrorRaised
    | Reconnect
    | Finished
    | LostConnection
    | ConnectSuccess
    | ConnectFailed

  /** The bodies found among the action functions of FileDownLoaderFSMActions.cpp;
      functions with the same body share a constructor. */
  datatype Action =
    | Connect            // HeadConnectServer
    | Cleanup            // CleanupDnloadResources
    | ConnectionUp       // join the connector, fire START
    | SendHeadRequest    // HeadSendGetRequest
    | LeaveRunning       // the empty action of CANCEL in HEAD_GET_RESPONSE_AWAIT
    | HandOver           // keep file_size, clean up, connect for the body
    | HeadLost           // clean up, fire RECONNECT
    | StartDownload      // FileDownload
    | CleanupAndConnect  // clean up, connect for the body
    | PauseTransfer      // Pause
    | Finish             // close, assert, join
    | BodyLost           // assert, join, assert, close, fire RECONNECT

  /** A table entry; `NA` holds a null action and a null next state. */
  datatype Entry = NA | Go(action: Action, next: State)

  function Table(s: State, e: Event): Entry {
    match (s, e)
    case (Init, Start) => Go(Connect, HeadConnectInProgress)

    case (HeadConnectInProgress, Cancel) => Go(Cleanup, FdCancelled)
    case (HeadConnectInProgress, Pause) => Go(Cleanup, HeadConnectionFailed)
    case (HeadConnectInProgress, ErrorRaised) => Go(Cleanup, ErrorState)
    case (HeadConnectInProgress, ConnectSuccess) => Go(ConnectionUp, HeadConnected)
    case (HeadConnectInProgress, ConnectFailed) => Go(Cleanup, HeadConnectionFailed)

    case (HeadConnected, Cancel) => Go(Cleanup, FdCancelled)
    case (HeadConnected, Start) => Go(SendHeadRequest, HeadGetResponseAwait)

    case (HeadConnectionFailed, Cancel) => Go(Cleanup, FdCancelled)
    case (HeadConnectionFailed, Reconnect) => Go(Connect, HeadConnectInProgress)

    case (HeadGetResponseAwait, Cancel) => Go(LeaveRunning, FdCancelled)
    case (HeadGetResponseAwait, ErrorRaised) => Go(Cleanup, ErrorState)
    case (HeadGetResponseAwait, Finished) => Go(HandOver, FdConnectInProgress)
    case (HeadGetResponseAwait, LostConnection) => Go(HeadLost, HeadConnectionFailed)

    case (FdConnectInProgress, Cancel) => Go(Cleanup, FdCancelled)
    case (FdConnectInProgress, Pause) => Go(Cleanup, Init)
    case (FdConnectInProgress, ErrorRaised) => Go(Cleanup, ErrorState)
    case (FdConnectInProgress, ConnectSuccess) => Go(ConnectionUp, FdConnected)
    case (FdConnectInProgress, ConnectFailed) => Go(Cleanup, FdConnectionFailed)

    case (FdConnected, Cancel) => Go(Cleanup, FdCancelled)
    case (FdConnected, Start) => Go(StartDownload, FdInProgress)

    case (FdConnectionFailed, Cancel) => Go(Cleanup, FdCancelled)
    case (FdConnectionFailed, ErrorRaised) => Go(Cleanup, ErrorState)
    case (FdConnectionFailed, Reconnect) => Go(CleanupAndConnect, FdConnectInProgress)

    case (FdInProgress, Cancel) => Go(Cleanup, FdCancelled)
    case (FdInProgress, Pause) => Go(PauseTransfer, FdSuspended)
    case (FdInProgress, ErrorRaised) => Go(Cleanup, ErrorState)
    case (FdInProgress, Finished) => Go(Finish, FdFinished)
    case (FdInProgress, LostConnection) => Go(BodyLost, FdConnectionFailed)

    case (FdSuspended, Cancel) => Go(Cleanup, FdCancelled)
    case (FdSuspended, Resume) => Go(Connect, FdConnectInProgress)

    case _ => NA
  }

  predicate IsConnecting(s: State) {
    s == HeadConnectInProgress || s == FdConnectInProgress
  }

  predicate IsConnected(s: State) {
    s == HeadConnected || s == FdConnected
  }

  /** Where a connecting state goes when the connector has reached the server. */
  function ConnectedState(s: State): State {
    if s == HeadConnectInProgress then HeadConnected else FdConnected
  }

  /** The states whose tables are all NA. */
  predicate Terminal(s: State) {
    s == ErrorState || s == FdCancelled || s == FdFinished
  }

  /** What a sequence of events did from INIT: the state reached and how often
      each kind of event was taken by an entry that is not NA. */
  datatype Tally = Tally(
    state: State,
    enabled: nat,
    lost: nat,
    failed: nat,
    headPauses: nat,     // PAUSE taken in HEAD_CONNECT_IN_PROGRESS
    connectPauses: nat,  // PAUSE taken in FD_CONNECT_IN_PROGRESS
    bodyPauses: nat,     // PAUSE taken in FD_IN_PROGRESS
    awaitCancels: nat)   // CANCEL taken in HEAD_GET_RESPONSE_AWAIT
  {
    function Surcharge(): nat {
      4 * lost + 2 * failed + 2 * headPauses + 5 * connectPauses + 4 * bodyPauses
    }
  }

  function Count(t: Tally, e: Event): Tally {
    match Table(t.state, e)
    case NA => t
    case Go(_, next) =>
      Tally(next, t.enabled + 1,
            t.lost + if e == LostConnection then 1 else 0,
            t.failed + if e == ConnectFailed then 1 else 0,
            t.headPauses + if e == Pause && t.state == HeadConnectInProgress then 1 else 0,
            t.connectPauses + if e == Pause && t.state == FdConnectInProgress then 1 else 0,
            t.bodyPauses + if e == Pause && t.state == FdInProgress then 1 else 0,
            t.awaitCancels + if e == Cancel && t.state == HeadGetResponseAwait then 1 else 0)
  }

  function TallyOf(es: seq<Event>): Tally {
    if es == [] then Tally(Init, 0, 0, 0, 0, 0, 0, 0)
    else Count(TallyOf(es[..|es| - 1]), es[|es| - 1])
  }

  lemma TallyAppend(es: seq<Event>, e: Event)
    ensures TallyOf(es + [e]) == Count(TallyOf(es), e)
  {
    assert (es + [e])[..|es|] == es;
  }

  /** How many events are left before FD_FINISHED when nothing goes wrong. */
  function Rank(s: State): nat {
    match s
    case Init => 7
    case HeadConnectInProgress => 6
    case HeadConnected => 5
    case HeadGetResponseAwait => 4
    case FdConnectInProgress => 3
    case FdConnected => 2
    case FdInProgress => 1
    case FdFinished => 0
    case HeadConnectionFailed => 7
    case FdConnectionFailed => 4
    case FdSuspended => 4
    case FdCancelled => 0
    case ErrorState => 0
  }

  predicate Balanced(t: Tally) {
    && (t.state != ErrorState && t.state != FdCancelled
        ==> t.enabled == 7 - Rank(t.state) + t.Surcharge())
    && t.enabled <= 7 + t.Surcharge()
  }

  lemma CountKeepsBalance(t: Tally, e: Event)
    requires Balanced(t)
    ensures Balanced(Count(t, e))
  {
  }

  /** Exact step accounting, for every event sequence: each executed entry lowers
      the rank by one, and a loss, a failed connect or a pause costs a fixed
      surcharge. Bounding those three bounds the whole run. */
  lemma {:induction false} StepAccounting(es: seq<Event>)
    ensures var t := TallyOf(es);
            && (t.state != ErrorState && t.state != FdCancelled
                ==> t.enabled == 7 - Rank(t.state) + t.Surcharge())
            && t.enabled <= 7 + t.Surcharge()
  {
    if es != [] {
      StepAccounting(es[..|es| - 1]);
      CountKeepsBalance(TallyOf(es[..|es| - 1]), es[|es| - 1]);
    }
  }

  /** The three terminal states are absorbing: no event sequence leaves them. */
  lemma {:induction false} TerminalAbsorbs(es: seq<Event>, more: seq<Event>)
    requires Terminal(TallyOf(es).state)
    ensures TallyOf(es + more) == TallyOf(es)
  {
    if more == [] {
      assert es + more == es;
    } else {
      var init := more[..|more| - 1];
      TerminalAbsorbs(es, init);
      assert es + more == (es + init) + [more[|more| - 1]];
      TallyAppend(es + init, more[|more| - 1]);
    }
  }

  /** FD_SUSPENDED is reached only through a PAUSE taken in FD_IN_PROGRESS, and
      an uncleaned FD_CANCELLED only through HEAD_GET_RESPONSE_AWAIT. */
  lemma {:induction false} PausesAndCancels(es: seq<Event>)
    ensures var t := TallyOf(es);
            && (t.state == FdSuspended ==> t.bodyPauses > 0)
            && (t.awaitCancels > 0 ==> t.state == FdCancelled && t.awaitCancels == 1)
  {
    if es != [] {
      PausesAndCancels(es[..|es| - 1]);
    }
  }
}
