/**
 The tables as FileDownloaderFSM.cpp stores them: one row of ten entries per
 state, looked up by number, and installed once behind a flag. Also the table the
 comment in FileDownloaderStates.h describes, and where the two part.
 */
module Tables {
  import opened Wrappers
  import opened Fsm

  /** The enumeration values of FileDownloaderStates.h. */
  function StateId(s: State): (n: nat)
    ensures n < 13
  {
    match s
    case Init => 0
    case HeadConnectInProgress => 1
    case HeadConnected => 2
    case HeadConnectionFailed => 3
    case HeadGetResponseAwait => 4
    case FdConnectInProgress => 5
    case FdConnected => 6
    case FdConnectionFailed => 7
    case FdInProgress => 8
    case FdSuspended => 9
    case FdCancelled => 10
    case FdFinished => 11
    case ErrorState => 12
  }

  function EventId(e: Event): (n: nat)
    ensures n < 10
  {
    match e
    case Cancel => 0
    case Pause => 1
    case Resume => 2
    case Start => 3
    case ErrorRaised => 4
    case Reconnect => 5
    case Finished => 6
    case LostConnection => 7
    case ConnectSuccess => 8
    case ConnectFailed => 9
  }

  // Columns: CANCEL, PAUSE, RESUME, START, ERROR,
  //          RECONNECT, FINISHED, LOST_CONNECTION, CONNECT_SUCCESS, CONNECT_FAILED
  const ROWS: seq<seq<Entry>> := [
    // INIT
    [NA, NA, NA, Go(Connect, HeadConnectInProgress), NA,
     NA, NA, NA, NA, NA],
    // HEAD_CONNECT_IN_PROGRESS
    [Go(Cleanup, FdCancelled), Go(Cleanup, HeadConnectionFailed), NA, NA, Go(Cleanup, ErrorState),
     NA, NA, NA, Go(ConnectionUp, HeadConnected), Go(Cleanup, HeadConnectionFailed)],
    // HEAD_CONNECTED
    [Go(Cleanup, FdCancelled), NA, NA, Go(SendHeadRequest, HeadGetResponseAwait), NA,
     NA, NA, NA, NA, NA],
    // HEAD_CONNECTION_FAILED
    [Go(Cleanup, FdCancelled), NA, NA, NA, NA,
     Go(Connect, HeadConnectInProgress), NA, NA, NA, NA],
    // HEAD_GET_RESPONSE_AWAIT
    [Go(LeaveRunning, FdCancelled), NA, NA, NA, Go(Cleanup, ErrorState),
     NA, Go(HandOver, FdConnectInProgress), Go(HeadLost, HeadConnectionFailed), NA, NA],
    // FD_CONNECT_IN_PROGRESS
    [Go(Cleanup, FdCancelled), Go(Cleanup, Init), NA, NA, Go(Cleanup, ErrorState),
     NA, NA, NA, Go(ConnectionUp, FdConnected), Go(Cleanup, FdConnectionFailed)],
    // FD_CONNECTED
    [Go(Cleanup, FdCancelled), NA, NA, Go(StartDownload, FdInProgress), NA,
     NA, NA, NA, NA, NA],
    // FD_CONNECTION_FAILED
    [Go(Cleanup, FdCancelled), NA, NA, NA, Go(Cleanup, ErrorState),
     Go(CleanupAndConnect, FdConnectInProgress), NA, NA, NA, NA],
    // FD_IN_PROGRESS
    [Go(Cleanup, FdCancelled), Go(PauseTransfer, FdSuspended), NA, NA, Go(Cleanup, ErrorState),
     NA, Go(Finish, FdFinished), Go(BodyLost, FdConnectionFailed), NA, NA],
    // FD_SUSPENDED
    [Go(Cleanup, FdCancelled), NA, Go(Connect, FdConnectInProgress), NA, NA,
     NA, NA, NA, NA, NA],
    // FD_CANCELLED, FD_FINISHED, ERROR
    [NA, NA, NA, NA, NA, NA, NA, NA, NA, NA],
    [NA, NA, NA, NA, NA, NA, NA, NA, NA, NA],
    [NA, NA, NA, NA, NA, NA, NA, NA, NA, NA]
  ]

  /** Looking a row up by number gives the entry of `Table`, for all 130 pairs. */
  lemma RowsAreTable(s: State, e: Event)
    ensures |ROWS| == 13 && |ROWS[StateId(s)]| == 10
    ensures ROWS[StateId(s)][EventId(e)] == Table(s, e)
  {
  }

  /** file_downloader_states, whose tables are null until file_downloader_fsm_init. */
  class StateTables {
    var installed: bool
    const rows: array<Option<seq<Entry>>>

    ghost predicate Valid()
      reads this, rows
    {
      rows.Length == 13 && (installed ==> forall i | 0 <= i < 13 :: rows[i] == Some(ROWS[i]))
    }

    constructor ()
      ensures Valid() && !installed && fresh(rows)
      ensures forall i | 0 <= i < 13 :: rows[i] == None
    {
      installed := false;
      rows := new Option<seq<Entry>>[13](_ => None);
    }

    method FsmInit()
      requires Valid()
      modifies this, rows
      ensures Valid() && installed
      ensures old(installed) ==> forall i | 0 <= i < 13 :: rows[i] == old(rows[i])
    {
      if installed {
        return;
      }
      var i := 0;
      while i < 13
        invariant 0 <= i <= 13 && !installed && rows.Length == 13
        invariant forall k | 0 <= k < i :: rows[k] == Some(ROWS[k])
      {
        rows[i] := Some(ROWS[i]);
        i := i + 1;
      }
      installed := true;
    }

    method Lookup(s: State, e: Event) returns (entry: Entry)
      requires Valid() && installed
      ensures entry == Table(s, e)
    {
      RowsAreTable(s, e);
      entry := rows[StateId(s)].value[EventId(e)];
    }
  }

  // ---------- the comment in FileDownloaderStates.h ----------

  /** The next state the comment names, reading its CLEANUP column as the ERROR
      event that took its place in the enumeration. */
  function Documented(s: State, e: Event): Option<State> {
    match (s, e)
    case (Init, Start) => Some(HeadConnectInProgress)
    case (HeadConnectInProgress, Cancel) => Some(FdCancelled)
    case (HeadConnectInProgress, Pause) => Some(HeadConnectionFailed)
    case (HeadConnectInProgress, ConnectSuccess) => Some(HeadConnected)
    case (HeadConnectInProgress, ConnectFailed) => Some(Init)
    case (HeadConnected, Cancel) => Some(ErrorState)
    case (HeadConnected, Start) => Some(FdConnectInProgress)
    case (HeadConnected, ErrorRaised) => Some(ErrorState)
    case (HeadConnectionFailed, Cancel) => Some(Init)
    case (HeadConnectionFailed, ErrorRaised) => Some(ErrorState)
    case (HeadConnectionFailed, Reconnect) => Some(HeadConnectInProgress)
    case (HeadGetResponseAwait, Cancel) => Some(FdCancelled)
    case (HeadGetResponseAwait, Finished) => Some(FdConnectInProgress)
    case (HeadGetResponseAwait, LostConnection) => Some(Init)
    case (FdConnectInProgress, Cancel) => Some(FdCancelled)
    case (FdConnectInProgress, Pause) => Some(FdConnectionFailed)
    case (FdConnectInProgress, ErrorRaised) => Some(ErrorState)
    case (FdConnectInProgress, ConnectSuccess) => Some(FdConnected)
    case (FdConnectInProgress, ConnectFailed) => Some(FdConnectionFailed)
    case (FdConnected, Cancel) => Some(FdCancelled)
    case (FdConnected, Start) => Some(FdInProgress)
    case (FdConnected, ErrorRaised) => Some(ErrorState)
    case (FdConnectionFailed, Cancel) => Some(FdCancelled)
    case (FdConnectionFailed, ErrorRaised) => Some(ErrorState)
    case (FdConnectionFailed, Reconnect) => Some(FdConnectInProgress)
    case (FdInProgress, Cancel) => Some(FdCancelled)
    case (FdInProgress, Pause) => Some(FdSuspended)
    case (FdInProgress, ErrorRaised) => Some(ErrorState)
    case (FdInProgress, Finished) => Some(FdFinished)
    case (FdInProgress, LostConnection) => Some(FdConnectInProgress)
    case (FdSuspended, Cancel) => Some(FdCancelled)
    case (FdSuspended, Resume) => Some(FdConnectInProgress)
    case (FdSuspended, Start) => Some(FdConnectInProgress)
    case (FdSuspended, ErrorRaised) => Some(ErrorState)
    case (FdSuspended, Reconnect) => Some(FdConnectInProgress)
    case (FdCancelled, ErrorRaised) => Some(ErrorState)
    case (FdFinished, Start) => Some(Init)
    case (FdFinished, ErrorRaised) => Some(ErrorState)
    case (ErrorState, ErrorRaised) => Some(ErrorState)
    case _ => None
  }

  function Coded(s: State, e: Event): Option<State> {
    match Table(s, e)
    case NA => None
    case Go(_, next) => Some(next)
  }

  const DISAGREEMENTS: set<(State, Event)> := {
    (HeadConnectInProgress, ErrorRaised), (HeadConnectInProgress, ConnectFailed),
    (HeadConnected, Cancel), (HeadConnected, Start), (HeadConnected, ErrorRaised),
    (HeadConnectionFailed, Cancel), (HeadConnectionFailed, ErrorRaised),
    (HeadGetResponseAwait, ErrorRaised), (HeadGetResponseAwait, LostConnection),
    (FdConnectInProgress, Pause),
    (FdConnected, ErrorRaised),
    (FdInProgress, LostConnection),
    (FdSuspended, Start), (FdSuspended, ErrorRaised), (FdSuspended, Reconnect),
    (FdCancelled, ErrorRaised),
    (FdFinished, Start), (FdFinished, ErrorRaised),
    (ErrorState, ErrorRaised)
  }

  /** Code and comment agree on every pair but these nineteen. */
  lemma CodeAndCommentAgreeIff(s: State, e: Event)
    ensures Coded(s, e) == Documented(s, e) <==> (s, e) !in DISAGREEMENTS
  {
  }
}
