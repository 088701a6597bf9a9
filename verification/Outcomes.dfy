/**
 What becomes of each answer: a thread run alone from its start, its report, and the
 turn that takes the report, for every answer of the environment.
 */
module Outcomes {
  import opened Wrappers
  import opened Fsm
  import opened Downloaders
  import opened Invariant
  import opened Transfer
  import opened Threads

  /** A thread about to report in a state that waits for it, with nothing queued. */
  predicate Ready(d: Downloader, s: State) {
    d.fault == NoFault && d.state == s && d.queue == [] && |d.fd.serverName| > 0
  }

  predicate Reached(d: Downloader, s: State, q: seq<Event>) {
    d.fault == NoFault && d.state == s && d.queue == q
  }

  function UnconnectedState(s: State): State {
    if s == HeadConnectInProgress then HeadConnectionFailed else FdConnectionFailed
  }

  const CONNECTOR_REPORTS: seq<Label> := [ConnectorStep(Proceed), Turn]
  const DOWNLOADER_REPORTS: seq<Label> := [DownloaderStep(Proceed), Turn]

  // ---------- the turn that takes a report ----------

  lemma ConnectorQueues(w: World, e: Event)
    requires w.d.fault == NoFault && w.d.queue == [] && w.d.fd.connector == Some(Firing(ConnectorRole, e))
    ensures var w' := Step(false, w, ConnectorStep(Proceed));
            && w'.disk == w.disk && w'.d.queue == [e] && w'.d.state == w.d.state && w'.d.fault == NoFault
            && w'.d.fd == w.d.fd.(connector := Some(Done))
  {
    ConnectorMoves(false, w, Firing(ConnectorRole, e), Proceed);
  }

  lemma DownloaderQueues(w: World, role: Role, e: Event)
    requires w.d.fault == NoFault && w.d.queue == [] && w.d.fd.downloader == Some(Firing(role, e))
    ensures var w' := Step(false, w, DownloaderStep(Proceed));
            && w'.disk == w.disk && w'.d.queue == [e] && w'.d.state == w.d.state && w'.d.fault == NoFault
            && w'.d.fd == w.d.fd.(downloader := Some(Done))
  {
    DownloaderMoves(false, w, Firing(role, e), Proceed);
  }

  lemma ConnectorTaken(w: World, s: State, e: Event)
    requires IsConnecting(s) && Reached(w.d, s, [e]) && w.d.fd.connector == Some(Done) && w.d.fd.downloader.None?
    requires e == ErrorRaised || e == ConnectSuccess || e == ConnectFailed
    ensures var w' := Step(false, w, Turn);
            if e == ConnectSuccess then
              Reached(w'.d, ConnectedState(s), [Start]) && w'.disk == w.disk
              && w'.d.fd.sock == w.d.fd.sock && w'.d.fd.connector.None? && w'.d.fd.downloader.None?
            else
              Reached(w'.d, if e == ErrorRaised then ErrorState else UnconnectedState(s), [])
              && w'.d.fd.Clean() && w'.disk == CleanupDisk(w.d.fd, w.disk)
  {
  }

  lemma HeadTaken(w: World, e: Event)
    requires Reached(w.d, HeadGetResponseAwait, [e]) && |w.d.fd.serverName| > 0
    requires e == ErrorRaised || e == Finished || e == LostConnection
    ensures var w' := Step(false, w, Turn);
            && w'.disk == CleanupDisk(w.d.fd, w.disk) && w'.d.fd.fileSize == w.d.fd.fileSize
            && (e == ErrorRaised ==> Reached(w'.d, ErrorState, []) && w'.d.fd.Clean())
            && (e == LostConnection ==> Reached(w'.d, HeadConnectionFailed, [Reconnect]) && w'.d.fd.Clean())
            && (e == Finished
                ==> Reached(w'.d, FdConnectInProgress, []) && w'.d.fd.connector == Some(CallSocket)
                    && w'.d.fd.downloader.None? && w'.d.fd.sock == -1)
  {
  }

  lemma BodyTaken(w: World, e: Event)
    requires Reached(w.d, FdInProgress, [e]) && w.d.fd.downloader == Some(Done)
    requires w.d.fd.connector.None? && w.d.fd.sock != -1
    requires e == ErrorRaised || e == Finished || e == LostConnection
    ensures var w' := Step(false, w, Turn);
            && w'.d.fd.Clean() && w'.d.fd.bytes == w.d.fd.bytes
            && (e == ErrorRaised ==> Reached(w'.d, ErrorState, []) && w'.disk == CleanupDisk(w.d.fd, w.disk))
            && (e == LostConnection ==> Reached(w'.d, FdConnectionFailed, [Reconnect]) && w'.disk == w.disk)
            && (e == Finished ==> Reached(w'.d, FdFinished, []) && w'.disk == w.disk)
  {
  }

  // ---------- the connector ----------

  lemma ConnectorReports(w: World, s: State, e: Event)
    requires IsConnecting(s) && Reached(w.d, s, []) && w.d.fd.downloader.None?
    requires w.d.fd.connector == Some(Firing(ConnectorRole, e))
    requires e == ErrorRaised || e == ConnectSuccess || e == ConnectFailed
    ensures var w' := Run(false, w, CONNECTOR_REPORTS);
            if e == ConnectSuccess then
              Reached(w'.d, ConnectedState(s), [Start]) && w'.disk == w.disk
              && w'.d.fd.sock == w.d.fd.sock && w'.d.fd.connector.None? && w'.d.fd.downloader.None?
            else
              Reached(w'.d, if e == ErrorRaised then ErrorState else UnconnectedState(s), [])
              && w'.d.fd.Clean() && w'.disk == CleanupDisk(w.d.fd, w.disk)
  {
    ConnectorQueues(w, e);
    var w1 := Step(false, w, ConnectorStep(Proceed));
    ConnectorTaken(w1, s, e);
    RunOne(false, w, ConnectorStep(Proceed), [Turn]);
    RunOne(false, w1, Turn, []);
  }

  /** Without a socket or a host the machine ends in ERROR, cleaned up, for good; with
      both, one of five attempts connects and the machine goes on, or none does and it
      waits for RECONNECT. */
  lemma ConnectorOutcome(w: World, s: State, socket: Option<nat>, resolved: bool, answers: nat -> bool)
    requires IsConnecting(s) && Ready(w.d, s) && w.d.fd.connector == Some(CallSocket) && w.d.fd.downloader.None?
    ensures var w' := Run(false, w, ConnectorScript(socket, resolved, answers) + CONNECTOR_REPORTS);
            if socket.None? || !resolved then
              Reached(w'.d, ErrorState, []) && w'.d.fd.Clean() && w'.disk == CleanupDisk(w.d.fd, w.disk)
            else if exists i: nat :: i < 5 && answers(i) then
              Reached(w'.d, ConnectedState(s), [Start]) && w'.d.fd.sock == socket.value && w'.disk == w.disk
              && w'.d.fd.connector.None? && w'.d.fd.downloader.None?
            else
              Reached(w'.d, UnconnectedState(s), []) && w'.d.fd.Clean() && w'.disk == CleanupDisk(w.d.fd, w.disk)
  {
    var e, attempts := StepsRunConnector(w, socket, resolved, answers);
    var w1 := Run(false, w, ConnectorScript(socket, resolved, answers));
    ConnectorReports(w1, s, e);
    RunConcat(false, w, ConnectorScript(socket, resolved, answers), CONNECTOR_REPORTS);
  }

  // ---------- the HEAD requester ----------

  lemma HeadReports(w: World, e: Event)
    requires Ready(w.d, HeadGetResponseAwait) && w.d.fd.downloader == Some(Firing(HeadRole, e))
    requires e == ErrorRaised || e == Finished || e == LostConnection
    ensures var w' := Run(false, w, DOWNLOADER_REPORTS);
            && w'.disk == CleanupDisk(w.d.fd, w.disk) && w'.d.fd.fileSize == w.d.fd.fileSize
            && (e == ErrorRaised ==> Reached(w'.d, ErrorState, []) && w'.d.fd.Clean())
            && (e == LostConnection ==> Reached(w'.d, HeadConnectionFailed, [Reconnect]) && w'.d.fd.Clean())
            && (e == Finished
                ==> Reached(w'.d, FdConnectInProgress, []) && w'.d.fd.connector == Some(CallSocket)
                    && w'.d.fd.downloader.None? && w'.d.fd.sock == -1)
  {
    DownloaderQueues(w, HeadRole, e);
    var w1 := Step(false, w, DownloaderStep(Proceed));
    HeadTaken(w1, e);
    RunOne(false, w, DownloaderStep(Proceed), [Turn]);
    RunOne(false, w1, Turn, []);
  }

  /** A refused HEAD reply ends the machine in ERROR with nothing queued; a lost
      connection is retried; otherwise the body phase connects, with the size that the
      reply named, or the old one if it named no number. */
  lemma HeadOutcome(w: World, sent: bool, reply: Option<(bool, Length)>)
    requires Ready(w.d, HeadGetResponseAwait) && w.d.fd.downloader == Some(HeadWrite)
    ensures var w' := Run(false, w, HeadScript(sent, reply) + DOWNLOADER_REPORTS);
            && w'.disk == CleanupDisk(w.d.fd, w.disk)
            && (if !sent || reply.None? then
                  Reached(w'.d, HeadConnectionFailed, [Reconnect]) && w'.d.fd.Clean()
                else if !reply.value.0 || reply.value.1.Absent? then
                  Reached(w'.d, ErrorState, []) && w'.d.fd.Clean()
                else
                  Reached(w'.d, FdConnectInProgress, []) && w'.d.fd.connector == Some(CallSocket)
                  && w'.d.fd.downloader.None? && w'.d.fd.sock == -1
                  && w'.d.fd.fileSize == (if reply.value.1.Number? then reply.value.1.n else w.d.fd.fileSize))
  {
    var e := StepsRunHead(w, sent, reply);
    var w1 := Run(false, w, HeadScript(sent, reply));
    HeadReports(w1, e);
    RunConcat(false, w, HeadScript(sent, reply), DOWNLOADER_REPORTS);
  }

  // ---------- the body thread ----------

  lemma BodyReports(w: World, e: Event)
    requires Reached(w.d, FdInProgress, []) && w.d.fd.downloader == Some(Firing(BodyRole, e))
    requires w.d.fd.connector.None? && w.d.fd.sock != -1
    requires e == ErrorRaised || e == Finished || e == LostConnection
    ensures var w' := Run(false, w, DOWNLOADER_REPORTS);
            && w'.d.fd.Clean() && w'.d.fd.bytes == w.d.fd.bytes
            && (e == ErrorRaised ==> Reached(w'.d, ErrorState, []) && w'.disk == CleanupDisk(w.d.fd, w.disk))
            && (e == LostConnection ==> Reached(w'.d, FdConnectionFailed, [Reconnect]) && w'.disk == w.disk)
            && (e == Finished ==> Reached(w'.d, FdFinished, []) && w'.disk == w.disk)
  {
    DownloaderQueues(w, BodyRole, e);
    var w1 := Step(false, w, DownloaderStep(Proceed));
    BodyTaken(w1, e);
    RunOne(false, w, DownloaderStep(Proceed), [Turn]);
    RunOne(false, w1, Turn, []);
  }

  /** A request that cannot be written, or a fresh thread whose first read fails, is
      retried; a file that does not open, a reply that is not acceptable, and a body of
      the wrong length end the machine in ERROR and remove an unshared file; the right
      length ends it in FD_FINISHED with the file the thread left. */
  lemma BodyOutcome(w: World, sent: bool, openable: bool, first: First, rs: seq<Read>)
    requires Ready(w.d, FdInProgress) && w.d.fd.downloader == Some(BodySend)
    requires w.d.fd.connector.None? && w.d.fd.sock != -1
    ensures var r := BodyThread(w.d.fd, w.disk, sent, openable, first, rs);
            var ready := ComesToRead(w.d.fd, w.disk, sent, openable);
            var w' := Run(false, w, BodyScript(w.d.fd, w.disk, sent, openable, first, rs) + DOWNLOADER_REPORTS);
            && w'.d.fd.Clean() && w'.d.fd.bytes == r.bytes
            && (if !sent || (ready && w.d.fd.bytes == 0 && first.FirstFailed?) then
                  Reached(w'.d, FdConnectionFailed, [Reconnect]) && w'.disk == r.disk
                else if !ready || (w.d.fd.bytes == 0 && !Acceptable(w.d.fd, first)) then
                  Reached(w'.d, ErrorState, []) && w'.disk == CleanupDisk(w.d.fd, r.disk)
                else if r.event == Finished then
                  Reached(w'.d, FdFinished, []) && w'.disk == r.disk && r.bytes == w.d.fd.GetFileSize()
                else
                  Reached(w'.d, ErrorState, []) && w'.disk == CleanupDisk(w.d.fd, r.disk))
  {
    var r := BodyThread(w.d.fd, w.disk, sent, openable, first, rs);
    var script := BodyScript(w.d.fd, w.disk, sent, openable, first, rs);
    BodyThreadEvents(w.d.fd, w.disk, sent, openable, first, rs);
    EventIsReport(w.d.fd, w.disk, sent, openable, first, rs);
    StepsRunBodyThread(w, sent, openable, first, rs);
    BodyReports(Run(false, w, script), r.event);
    RunConcat(false, w, script, DOWNLOADER_REPORTS);
  }

  lemma EventIsReport(fd: Fd, disk: Disk, sent: bool, openable: bool, first: First, rs: seq<Read>)
    ensures var e := BodyThread(fd, disk, sent, openable, first, rs).event;
            e == ErrorRaised || e == Finished || e == LostConnection
  {
    BodyThreadEvents(fd, disk, sent, openable, first, rs);
    if ComesToRead(fd, disk, sent, openable) {
      var file := if fd.IsPartial() then disk else Some([]);
      if fd.bytes > 0 {
        LoopEvents(fd.bytes, Seek(Seek(0, fd.low), fd.low + fd.bytes), file, fd.GetFileSize(), rs);
      } else if Acceptable(fd, first) {
        var n := |first.body|;
        var fpos := Seek(0, fd.low);
        LoopEvents(n, Seek(fpos + n, fd.low + n), Put(file, fpos, first.body), fd.GetFileSize(), rs);
      }
    }
  }

  // ---------- every turn, by state and event ----------

  predicate Connects(s: State, e: Event) {
    || (s == Init && e == Start) || (s == HeadConnectionFailed && e == Reconnect)
    || (s == HeadGetResponseAwait && e == Finished) || (s == FdConnectionFailed && e == Reconnect)
    || (s == FdSuspended && e == Resume)
  }

  predicate Asks(s: State, e: Event) {
    IsConnected(s) && e == Start
  }

  predicate ComesUp(s: State, e: Event) {
    IsConnecting(s) && e == ConnectSuccess
  }

  predicate Loses(s: State, e: Event) {
    (s == HeadGetResponseAwait || s == FdInProgress) && e == LostConnection
  }

  predicate Leaves(s: State, e: Event) {
    s == HeadGetResponseAwait && e == Cancel
  }

  /** The turns that do not touch the output file; all others remove it unless it is
      shared. */
  predicate KeepsFile(s: State, e: Event) {
    || ComesUp(s, e) || Asks(s, e) || Leaves(s, e)
    || (Connects(s, e) && !(s == HeadGetResponseAwait || s == FdConnectionFailed))
    || (s == FdInProgress && (e == Pause || e == Finished || e == LostConnection))
  }

  /** What is queued behind the rest. */
  function FiredBy(s: State, e: Event): seq<Event> {
    if ComesUp(s, e) then [Start] else if Loses(s, e) then [Reconnect] else []
  }

  /** What a turn leaves, event by event. */
  predicate Effects(w: World, w': World, s: State, e: Event) {
    && w'.d.queue == w.d.queue + FiredBy(s, e)
    && w'.disk == (if KeepsFile(s, e) then w.disk else CleanupDisk(w.d.fd, w.disk))
    && w'.d.fd.bytes == w.d.fd.bytes && w'.d.fd.fileSize == w.d.fd.fileSize
    && w'.d.fd.sock == (if ComesUp(s, e) || Asks(s, e) || Leaves(s, e) then w.d.fd.sock else -1)
    && w'.d.fd.connector == (if Connects(s, e) then Some(CallSocket) else None)
    && w'.d.fd.downloader == (if Leaves(s, e) then w.d.fd.downloader
                              else if Asks(s, e) then Some(if s == HeadConnected then HeadWrite else BodySend)
                              else None)
  }

  /** The same, action by action. */
  predicate ActionEffects(a: Action, w: World, w': World) {
    var up, asks, leaves := a == ConnectionUp, a == SendHeadRequest || a == StartDownload, a == LeaveRunning;
    && w'.d.queue == w.d.queue + (if up then [Start] else if a == HeadLost || a == BodyLost then [Reconnect] else [])
    && w'.disk == (if up || asks || leaves || a == Connect || a == PauseTransfer || a == Finish || a == BodyLost
                   then w.disk else CleanupDisk(w.d.fd, w.disk))
    && w'.d.fd.bytes == w.d.fd.bytes && w'.d.fd.fileSize == w.d.fd.fileSize
    && w'.d.fd.sock == (if up || asks || leaves then w.d.fd.sock else -1)
    && w'.d.fd.connector == (if a == Connect || a == HandOver || a == CleanupAndConnect
                             then Some(CallSocket) else None)
    && w'.d.fd.downloader == (if leaves then w.d.fd.downloader
                              else if a == SendHeadRequest then Some(HeadWrite)
                              else if a == StartDownload then Some(BodySend) else None)
  }

  lemma StartEffects(a: Action, w: World)
    requires Before(a, w.d)
    requires a == Connect || a == SendHeadRequest || a == HandOver || a == StartDownload || a == CleanupAndConnect
    ensures ActionEffects(a, w, Act(a, w))
  {
    match a {
      case Connect =>
      case SendHeadRequest =>
      case HandOver =>
      case StartDownload =>
      case CleanupAndConnect =>
    }
  }

  lemma EndEffects(a: Action, w: World)
    requires Before(a, w.d)
    requires a == Cleanup || a == LeaveRunning || a == PauseTransfer || a == Finish
    ensures ActionEffects(a, w, Act(a, w))
  {
    match a {
      case Cleanup =>
      case LeaveRunning =>
      case PauseTransfer =>
      case Finish =>
    }
  }

  lemma FireEffects(a: Action, w: World)
    requires Before(a, w.d) && (a == ConnectionUp || a == HeadLost || a == BodyLost)
    ensures ActionEffects(a, w, Act(a, w))
  {
    match a {
      case ConnectionUp =>
      case HeadLost =>
      case BodyLost =>
    }
  }

  lemma ActEffects(a: Action, w: World)
    requires Before(a, w.d)
    ensures ActionEffects(a, w, Act(a, w))
  {
    match a {
      case Connect => StartEffects(a, w);
      case Cleanup => EndEffects(a, w);
      case ConnectionUp => FireEffects(a, w);
      case SendHeadRequest => StartEffects(a, w);
      case LeaveRunning => EndEffects(a, w);
      case HandOver => StartEffects(a, w);
      case HeadLost => FireEffects(a, w);
      case StartDownload => StartEffects(a, w);
      case CleanupAndConnect => StartEffects(a, w);
      case PauseTransfer => EndEffects(a, w);
      case Finish => EndEffects(a, w);
      case BodyLost => FireEffects(a, w);
    }
  }

  /** Which actions the entries name. */
  lemma EntryActions(s: State, e: Event, a: Action, next: State)
    requires Table(s, e) == Go(a, next)
    ensures ComesUp(s, e) <==> a == ConnectionUp
    ensures Asks(s, e) <==> a == SendHeadRequest || a == StartDownload
    ensures Asks(s, e) ==> (s == HeadConnected <==> a == SendHeadRequest)
    ensures Leaves(s, e) <==> a == LeaveRunning
    ensures Loses(s, e) <==> a == HeadLost || a == BodyLost
    ensures Connects(s, e) <==> a == Connect || a == HandOver || a == CleanupAndConnect
    ensures KeepsFile(s, e)
            <==> a == ConnectionUp || a == SendHeadRequest || a == StartDownload || a == LeaveRunning || a == Connect
                 || a == PauseTransfer || a == Finish || a == BodyLost
  {
  }

  /** After every disciplined run, each event that is taken does exactly this to queue,
      file, socket, counter and threads. */
  lemma TurnEffects(w: World, ls: seq<Label>)
    requires Initial(w.d) && Disciplined(w, ls)
    requires var d := Run(false, w, ls).d; d.queue != [] && Table(d.state, d.queue[0]).Go?
    ensures var w1 := Run(false, w, ls);
            var s, e := w1.d.state, w1.d.queue[0];
            var w2 := Step(false, w1, Turn);
            w2.d.state == Table(s, e).next && Effects(Entered(w1, w2.d.state), w2, s, e)
  {
    ReachableInv(w, ls);
    var w1 := Run(false, w, ls);
    var s, e := w1.d.state, w1.d.queue[0];
    var Go(a, next) := Table(s, e);
    TurnFinds(w1, a, next);
    TakenTurn(false, w1, a, next);
    ActWrites(a, Entered(w1, next));
    ActEffects(a, Entered(w1, next));
    EntryActions(s, e, a, next);
  }
}
