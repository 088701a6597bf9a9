/**
 The event engine of EventFSM/fsm.cpp, bound to one FD object, with the actions of
 FileDownLoaderFSMActions.cpp as its methods. Every method equals its value
 function, so the run theorems about `Downloaders` are about this code.
 */
module Engine {
  import opened Wrappers
  import opened Fsm
  import opened Downloaders
  import opened Tables
  import opened HttpFds
  import I = Invariant
  import A = Autonomous

  class Efsm {
    const initialState: State := Init
    var currentState: Option<State>
    var eventTriggered: Option<Event>
    var pipe: seq<Event>
    const userData: HttpFd
    const tables: StateTables
    var fault: Fault  // set where the process would abort or call a null pointer
    ghost var log: Log

    ghost predicate Valid()
      reads this, tables, tables.rows
    {
      tables.Valid() && tables.installed
    }

    ghost function Model(): Downloader
      reads this, userData
    {
      Downloader(if currentState.Some? then currentState.value else initialState,
                 pipe, userData.Model(), fault, log)
    }

    ghost function View(): World
      reads this, userData, userData.file
    {
      World(Model(), userData.file.content)
    }

    /** file_downloader_new_efsm, bound to its FD. */
    constructor (tables: StateTables, userData: HttpFd)
      requires tables.Valid() && tables.installed
      ensures Valid() && this.userData == userData && this.tables == tables
      ensures Model() == Downloader(Init, [], userData.Model(), NoFault, Log([], [], []))
    {
      this.currentState := None;
      this.eventTriggered := None;
      this.pipe := [];
      this.userData := userData;
      this.tables := tables;
      this.fault := NoFault;
      this.log := Log([], [], []);
    }

    method FireEvent(e: Event, ghost source: Origin)
      modifies `pipe, `log
      ensures Model() == Fire(old(Model()), e, source)
    {
      pipe := pipe + [e];
      log := log.(fired := log.fired + [e], origins := log.origins + [source]);
    }

    method StateExit()
      modifies `currentState
      ensures currentState == None
    {
      currentState := None;
    }

    /** `ok` says that the assert on entry holds: no current state. */
    method StateEnter(s: State) returns (ok: bool)
      modifies `currentState
      ensures ok <==> old(currentState) == None
      ensures currentState == if ok then Some(s) else old(currentState)
    {
      ok := currentState == None;
      if ok {
        currentState := Some(s);
      }
    }

    // ---------- the actions ----------

    method AssertHolds(ok: bool)
      modifies `fault
      ensures fault == if ok then old(fault) else AssertFailed
    {
      if !ok {
        fault := AssertFailed;
      }
    }

    method ActConnect()
      modifies `fault, `pipe, `log, userData
      ensures View() == Act(Connect, old(View()))
    {
      var ok := userData.HeadConnectServer();
      AssertHolds(ok);
    }

    method ActCleanup()
      modifies `fault, `pipe, `log, userData, userData.file
      ensures View() == Act(Cleanup, old(View()))
    {
      userData.CleanupDnloadResources();
    }

    method ActConnectionUp()
      modifies `fault, `pipe, `log, userData
      ensures View() == Act(ConnectionUp, old(View()))
    {
      if userData.connectorThread == None {
        AssertHolds(false);
      } else {
        userData.CancelConnector();
        FireEvent(Start, Listener);
      }
    }

    method ActSendHeadRequest()
      modifies `fault, `pipe, `log, userData
      ensures View() == Act(SendHeadRequest, old(View()))
    {
      var ok := userData.HeadSendGetRequest();
      AssertHolds(ok);
    }

    method ActHandOver()
      modifies `fault, `pipe, `log, userData, userData.file
      ensures View() == Act(HandOver, old(View()))
    {
      var fileSize := userData.fileSize;
      userData.CleanupDnloadResources();
      userData.fileSize := fileSize;
      var ok := userData.FileDownloadConnectServer();
      AssertHolds(ok);
    }

    method ActHeadLost()
      modifies `fault, `pipe, `log, userData, userData.file
      ensures View() == Act(HeadLost, old(View()))
    {
      userData.CleanupDnloadResources();
      FireEvent(Reconnect, Listener);
    }

    method ActStartDownload()
      modifies `fault, `pipe, `log, userData
      ensures View() == Act(StartDownload, old(View()))
    {
      var ok := userData.FileDownload();
      AssertHolds(ok);
    }

    method ActCleanupAndConnect()
      modifies `fault, `pipe, `log, userData, userData.file
      ensures View() == Act(CleanupAndConnect, old(View()))
    {
      userData.CleanupDnloadResources();
      var ok := userData.FileDownloadConnectServer();
      AssertHolds(ok);
    }

    method ActPause()
      modifies `fault, `pipe, `log, userData
      ensures View() == Act(PauseTransfer, old(View()))
    {
      userData.Pause();
    }

    method ActFinish()
      modifies `fault, `pipe, `log, userData
      ensures View() == Act(Finish, old(View()))
    {
      userData.CloseSocket();
      if userData.downloaderThread == None {
        AssertHolds(false);
      } else {
        userData.CancelDownloader();
      }
    }

    method ActBodyLost()
      modifies `fault, `pipe, `log, userData
      ensures View() == Act(BodyLost, old(View()))
    {
      if userData.downloaderThread == None {
        AssertHolds(false);
        return;
      }
      userData.CancelDownloader();
      if userData.sockfd == -1 {
        AssertHolds(false);
        return;
      }
      userData.CloseSocket();
      FireEvent(Reconnect, Listener);
    }

    method Perform(a: Action)
      modifies `fault, `pipe, `log, userData, userData.file
      ensures View() == Act(a, old(View()))
    {
      match a {
        case Connect => ActConnect();
        case Cleanup => ActCleanup();
        case ConnectionUp => ActConnectionUp();
        case SendHeadRequest => ActSendHeadRequest();
        case LeaveRunning =>
        case HandOver => ActHandOver();
        case HeadLost => ActHeadLost();
        case StartDownload => ActStartDownload();
        case CleanupAndConnect => ActCleanupAndConnect();
        case PauseTransfer => ActPause();
        case Finish => ActFinish();
        case BodyLost => ActBodyLost();
      }
    }

    // ---------- the engine ----------

    /** efsm_execute: remember the event, leave the state, enter the next one, act.
        Both null pointers of a NA entry are used unguarded, which ends the process. */
    method Execute(event: Event)
      requires Valid() && fault == NoFault
      modifies this, userData, userData.file
      ensures Valid() && eventTriggered == Some(event)
      ensures fault == Downloaders.Execute(true, old(View()), event).d.fault
      ensures fault != NullEntry ==> View() == Downloaders.Execute(true, old(View()), event)
    {
      if currentState == None {
        currentState := Some(initialState);
      }
      eventTriggered := Some(event);
      var entry := tables.Lookup(currentState.value, event);
      StateExit();
      match entry {
        case NA =>
          fault := NullEntry;
        case Go(action, next) =>
          var ok := StateEnter(next);
          assert ok;
          Perform(action);
      }
    }

    /** One turn of event_listen_fn; an empty pipe blocks it. */
    method Turn() returns (blocked: bool)
      requires Valid() && fault == NoFault
      modifies this, userData, userData.file
      ensures Valid()
      ensures blocked <==> old(pipe) == []
      ensures fault == Listen(true, old(View())).d.fault
      ensures fault != NullEntry ==> View() == Listen(true, old(View()))
      ensures I.Inv(old(Model())) ==> fault == NullEntry || (fault == NoFault && I.Inv(Model()))
    {
      StrictTurnKeepsInv(View());
      blocked := pipe == [];
      if !blocked {
        var event := pipe[0];
        pipe := pipe[1..];
        log := log.(executed := log.executed + [event]);
        Execute(event);
      }
    }

    /** event_listen_fn for as long as nobody else runs: in an autonomous state it
        takes at most two events, then the pipe is empty and it blocks; it never
        faults on the way. */
    method ListenUntilBlocked(limit: nat)
      requires Valid() && A.Auto(Model())
      modifies this, userData, userData.file
      ensures Valid() && fault == NoFault && A.Auto(Model())
      ensures View() == ListenTimes(old(View()), limit)
      ensures limit >= 2 ==> pipe == []
    {
      var i: nat := 0;
      var blocked := false;
      while i < limit && !blocked
        invariant i <= limit && Valid() && A.Auto(Model())
        invariant View() == ListenTimes(old(View()), i)
        invariant blocked ==> pipe == []
        invariant A.Pending(Model()) + i <= 2 || pipe == []
        decreases limit - i
      {
        TurnStaysAuto(View());
        ListenOnceMore(old(View()), i);
        blocked := Turn();
        i := i + 1;
      }
      StaysBlocked(old(View()), i, limit);
    }

    // ---------- the worker threads, one step at a time ----------

    /** server_head_connect_fn */
    method RunConnector(t: Worker, o: Outcome) returns (t': Worker)
      requires t.CallSocket? || t.ResolveHost? || t.TryConnect?
      modifies userData
      ensures (View(), t') == RunWorker(old(View()), t, o)
    {
      t' := t;
      if t.CallSocket? {
        if o.SocketOk? {
          userData.sockfd := o.n;
          userData.ledger := userData.ledger.(opens := userData.ledger.opens + 1);
          t' := ResolveHost;
        } else if o.SocketFail? {
          userData.sockfd := -1;
          t' := Firing(ConnectorRole, ErrorRaised);
        }
      } else if t.ResolveHost? {
        if o.HostFound? {
          t' := TryConnect(HEAD_CONNECT_TRIES);
        } else if o.HostMissing? {
          t' := Firing(ConnectorRole, ErrorRaised);
        }
      } else if o.ConnectOk? {
        t' := Firing(ConnectorRole, ConnectSuccess);
      } else if o.ConnectRefused? {
        t' := if t.tries <= 1 then Firing(ConnectorRole, ConnectFailed) else TryConnect(t.tries - 1);
      }
    }

    /** http_send_head_request */
    method RunHead(t: Worker, o: Outcome) returns (t': Worker)
      requires t.HeadWrite? || t.HeadRead?
      modifies userData
      ensures (View(), t') == RunWorker(old(View()), t, o)
    {
      t' := t;
      if t.HeadWrite? {
        if o.WriteOk? {
          t' := HeadRead;
        } else if o.WriteFail? {
          t' := Firing(HeadRole, LostConnection);
        }
      } else if o.ReadFail? {
        t' := Firing(HeadRole, LostConnection);
      } else if o.HeadReply? {
        if !o.ok || o.length.Absent? {
          t' := Firing(HeadRole, ErrorRaised);
        } else {
          if o.length.Number? {
            userData.fileSize := o.length.n;
            userData.ledger := userData.ledger.(announced := o.length.n);
          }
          t' := Firing(HeadRole, Finished);
        }
      }
    }

    /** http_file_download_thread_fn up to its first read */
    method OpenBody(t: Worker, o: Outcome) returns (t': Worker)
      requires t.BodySend? || t.BodyOpen?
      modifies userData.file
      ensures (View(), t') == RunWorker(old(View()), t, o)
    {
      t' := t;
      if t.BodySend? {
        if o.WriteOk? {
          var expected := userData.GetFileSize();
          t' := BodyOpen(expected, userData.flags & PARTIAL_REQ != 0);
        } else if o.WriteFail? {
          t' := Firing(BodyRole, LostConnection);
        }
      } else if o.OpenFail? || (o.OpenOk? && t.partial && userData.file.content.None?) {
        t' := Firing(BodyRole, ErrorRaised);
      } else if o.OpenOk? {
        if !t.partial {
          userData.file.Create(0);
        }
        var fpos := Seek(0, userData.lowByte);
        t' := if userData.bytesDownloaded == 0 then BodyFirst(t.expected, t.partial, fpos)
              else BodyRead(t.expected, Seek(fpos, userData.lowByte + userData.bytesDownloaded), 0);
      }
    }

    /** its reads */
    method ReadBody(t: Worker, o: Outcome) returns (t': Worker)
      requires t.BodyFirst? || t.BodyRead?
      ensures (View(), t') == RunWorker(View(), t, o)
    {
      t' := t;
      if t.BodyFirst? {
        if o.ReadFail? {
          t' := Firing(BodyRole, LostConnection);
        } else if o.FirstReply? {
          t' := if !o.headerEnd || o.badRequest || (t.partial && !o.partialContent)
                then Firing(BodyRole, ErrorRaised)
                else BodyPut(t.expected, t.fpos, |o.body|, o.body, true);
        }
      } else if o.ReadFail? {
        t' := Firing(BodyRole, ErrorRaised);
      } else if o.Bytes? {
        t' := if o.data != [] then BodyPut(t.expected, t.fpos, t.got + |o.data|, o.data, false)
              else Firing(BodyRole, if userData.bytesDownloaded == t.expected then Finished else ErrorRaised);
      }
    }

    /** its writes and counts */
    method WriteBody(t: Worker, o: Outcome) returns (t': Worker)
      requires t.BodyPut? || t.BodyCount?
      modifies userData, userData.file
      ensures (View(), t') == RunWorker(old(View()), t, o)
    {
      t' := t;
      if o.Proceed? && t.BodyPut? {
        userData.file.Write(t.fpos, t.data);
        t' := BodyCount(t.expected, t.fpos + |t.data|, t.got, |t.data|, t.first);
      } else if o.Proceed? {
        userData.bytesDownloaded := userData.bytesDownloaded + t.k;
        t' := if t.first then BodyRead(t.expected, Seek(t.fpos, userData.lowByte + userData.bytesDownloaded), t.got)
              else if userData.bytesDownloaded == t.expected then Firing(BodyRole, Finished)
              else BodyRead(t.expected, t.fpos, t.got);
      }
    }

    /** One step of whatever thread stands at `t`. */
    method RunThread(t: Worker, o: Outcome) returns (t': Worker)
      modifies `pipe, `log, userData, userData.file
      ensures (View(), t') == RunWorker(old(View()), t, o)
    {
      if t.CallSocket? || t.ResolveHost? || t.TryConnect? {
        t' := RunConnector(t, o);
      } else if t.HeadWrite? || t.HeadRead? {
        t' := RunHead(t, o);
      } else if t.BodySend? || t.BodyOpen? {
        t' := OpenBody(t, o);
      } else if t.BodyFirst? || t.BodyRead? {
        t' := ReadBody(t, o);
      } else if t.BodyPut? || t.BodyCount? {
        t' := WriteBody(t, o);
      } else if t.Firing? && o.Proceed? {
        FireEvent(t.event, Thread(t.role, userData.Model().Number(t.role)));
        t' := Done;
      } else {
        t' := t;
      }
    }

    /** Whatever happens next: a turn of the listener, a step of a thread, or an event
        written by somebody else. */
    method Next(l: Label)
      requires Valid() && fault == NoFault
      modifies this, userData, userData.file
      ensures Valid()
      ensures fault == Step(true, old(View()), l).d.fault
      ensures fault != NullEntry ==> View() == Step(true, old(View()), l)
    {
      match l {
        case Turn =>
          var _ := Turn();
        case ConnectorStep(o) =>
          if userData.connectorThread.Some? {
            var t' := RunThread(userData.connectorThread.value, o);
            userData.connectorThread := Some(t');
          }
        case DownloaderStep(o) =>
          if userData.downloaderThread.Some? {
            var t' := RunThread(userData.downloaderThread.value, o);
            userData.downloaderThread := Some(t');
          }
        case Inject(e) => FireEvent(e, Outside);
      }
    }

    /** The whole machine, for any interleaving a disciplined user leaves possible: it
        ends where the transition system does, without a failed assert, or has called a
        null entry. */
    method Drive(ls: seq<Label>)
      requires Valid() && I.Inv(Model()) && Disciplined(View(), ls)
      modifies this, userData, userData.file
      ensures Valid()
      ensures fault == NullEntry
              || (fault == NoFault && View() == Run(false, old(View()), ls) && I.Inv(Model()))
    {
      var i := 0;
      while i < |ls| && fault == NoFault
        invariant i <= |ls| && Valid() && (fault == NoFault || fault == NullEntry)
        invariant fault == NoFault ==> I.Inv(Model()) && Disciplined(View(), ls[i..])
        invariant fault == NoFault ==> Run(false, View(), ls[i..]) == Run(false, old(View()), ls)
      {
        I.StrictStep(View(), ls[i]);
        I.StepKeeps(View(), ls[i]);
        assert ls[i..][1..] == ls[i + 1..];
        Next(ls[i]);
        i := i + 1;
      }
    }
  }

  lemma StrictTurnKeepsInv(w: World)
    requires w.d.fault == NoFault
    ensures I.Inv(w.d) ==> Listen(true, w).d.fault == NullEntry
                           || (Listen(true, w).d.fault == NoFault && I.Inv(Listen(true, w).d))
  {
    if I.Inv(w.d) {
      I.StrictStep(w, Downloaders.Turn);
      I.StepKeeps(w, Downloaders.Turn);
    }
  }

  lemma TurnStaysAuto(w: World)
    requires A.Auto(w.d)
    ensures Listen(true, w).d.fault == NoFault && A.Auto(Listen(true, w).d)
    ensures if w.d.queue == [] then Listen(true, w) == w else A.Pending(Listen(true, w).d) < A.Pending(w.d)
  {
    if w.d.queue != [] {
      A.TurnKeepsAuto(w);
      A.TurnShortens(w);
    }
  }

  ghost function ListenTimes(w: World, n: nat): World
    decreases n
  {
    if n == 0 then w else ListenTimes(Listen(true, w), n - 1)
  }

  lemma {:induction false} ListenOnceMore(w: World, n: nat)
    ensures ListenTimes(w, n + 1) == Listen(true, ListenTimes(w, n))
    decreases n
  {
    if n > 0 {
      ListenOnceMore(Listen(true, w), n - 1);
    }
  }

  /** A listener that blocks stays where it is. */
  lemma {:induction false} StaysBlocked(w: World, n: nat, m: nat)
    requires n <= m && (n == m || ListenTimes(w, n).d.queue == [])
    ensures ListenTimes(w, m) == ListenTimes(w, n)
    decreases m - n
  {
    if n < m {
      ListenOnceMore(w, n);
      StaysBlocked(w, n + 1, m);
    }
  }
}
