/**
 One downloader as a labelled transition system: the FD object, its event queue,
 its worker threads and the output file.

 A step is one listener activation, one step of a worker thread, or one event
 written by somebody else. A listener activation (dequeue, state change, action)
 is atomic with respect to worker steps. What the operating system and the
 server answer is carried by the label, so a run is a sequence of labels and
 every theorem quantifies over all of them.
 */
module Downloaders {
  import opened Wrappers
  import opened Fsm

  newtype byte = x: int | 0 <= x < 256

  /** The output file; `None` when no such file exists. */
  type Disk = Option<seq<byte>>

  const HEAD_CONNECT_TRIES: nat := 5
  const HTTP_READ_BUFFER_SIZE: nat := 4096
  const PARTIAL_REQ: bv32 := 2

  /** What a worker thread is for. */
  datatype Role = ConnectorRole | HeadRole | BodyRole

  /** Where a worker thread stands in its body. */
  datatype Worker =
    // server_head_connect_fn
    | CallSocket
    | ResolveHost
    | TryConnect(tries: nat)
    // http_send_head_request
    | HeadWrite
    | HeadRead
    // http_file_download_thread_fn; `got` counts the body bytes read on this connection
    | BodySend
    | BodyOpen(expected: int, partial: bool)
    | BodyFirst(expected: int, partial: bool, fpos: nat)
    | BodyRead(expected: int, fpos: nat, got: nat)
    | BodyPut(expected: int, fpos: nat, got: nat, data: seq<byte>, first: bool)
    | BodyCount(expected: int, fpos: nat, got: nat, k: nat, first: bool)
    // all three
    | Firing(role: Role, event: Event)
    | Done

  /** What sscanf finds after "Content-Length:". */
  datatype Length = Absent | NotANumber | Number(n: int)

  datatype Outcome =
    | SocketOk(n: nat) | SocketFail
    | HostFound | HostMissing
    | ConnectOk | ConnectRefused
    | WriteOk | WriteFail
    | ReadFail
    | HeadReply(ok: bool, length: Length)
    | OpenOk | OpenFail
    | FirstReply(headerEnd: bool, badRequest: bool, partialContent: bool, body: seq<byte>)
    | Bytes(data: seq<byte>)  // empty at end of stream
    | Proceed                 // a step that asks nothing of the environment

  /** History kept beside the object: the system calls that open, close, spawn and
      join, the number each pointer's thread got at its spawn, and the last length
      parsed from a HEAD reply. */
  datatype Ledger = Ledger(
    opens: nat, closes: nat, spawns: nat, joins: nat,
    connectorNo: nat, downloaderNo: nat, announced: int)

  /** The FD object; a thread pointer that is not null points to its thread. */
  datatype Fd = Fd(
    sock: int,
    connector: Option<Worker>,
    downloader: Option<Worker>,
    bytes: nat,
    fileSize: int,
    low: int,
    high: int,
    flags: bv32,
    serverName: string,
    ledger: Ledger)
  {
    predicate IsPartial() { flags & PARTIAL_REQ != 0 }

    predicate WholeFile() { low == 0 && high == 0 }

    function GetFileSize(): int {
      if WholeFile() then fileSize else high - low + 1
    }

    /** The spawn number of the thread that plays this role. */
    function Number(role: Role): nat {
      if role == ConnectorRole then ledger.connectorNo else ledger.downloaderNo
    }

    predicate Clean() {
      sock == -1 && connector.None? && downloader.None?
    }
  }

  datatype Fault = NoFault | NullEntry | AssertFailed

  /** Who wrote an event: somebody else, the listener's own action, or the thread
      that was spawned as number `spawn`. */
  datatype Origin = Outside | Listener | Thread(role: Role, spawn: nat)

  /** Every event written, by whom, and every event executed, in order. */
  datatype Log = Log(fired: seq<Event>, origins: seq<Origin>, executed: seq<Event>)

  datatype Downloader = Downloader(
    state: State,
    queue: seq<Event>,
    fd: Fd,
    fault: Fault,
    log: Log)

  datatype World = World(d: Downloader, disk: Disk)

  /** A freshly constructed FD bound to a new state machine. */
  predicate Initial(d: Downloader) {
    && d.state == Init
    && d.queue == []
    && d.fd.Clean()
    && d.fd.bytes == 0
    && |d.fd.serverName| > 0
    && d.fault == NoFault
    && d.fd.ledger == Ledger(0, 0, 0, 0, 0, 0, d.fd.fileSize)
    && d.log == Log([], [], [])
  }

  // ---------- the output file ----------

  /** fwrite of `data` at position `pos`: overwrites, extends, and fills a gap with zeros. */
  function Overwrite(s: seq<byte>, pos: nat, data: seq<byte>): seq<byte> {
    if data == [] then s
    else if pos + |data| <= |s| then s[..pos] + data + s[pos + |data|..]
    else if pos <= |s| then s[..pos] + data
    else s + seq(pos - |s|, _ => 0) + data
  }

  function Put(disk: Disk, pos: nat, data: seq<byte>): Disk {
    match disk
    case None => None  // the name is gone; the bytes reach no file
    case Some(s) => Some(Overwrite(s, pos, data))
  }

  /** An absolute seek; a negative target fails and leaves the position. */
  function Seek(from: nat, to: int): nat {
    if to < 0 then from else to
  }

  // ---------- steps of the worker threads ----------

  /** fd->sockfd = socket(...) */
  function OpenSock(fd: Fd, n: nat): Fd {
    fd.(sock := n, ledger := fd.ledger.(opens := fd.ledger.opens + 1))
  }

  function With(w: World, fd: Fd): World {
    w.(d := w.d.(fd := fd))
  }

  function Fire(d: Downloader, e: Event, source: Origin): Downloader {
    d.(queue := d.queue + [e], log := d.log.(fired := d.log.fired + [e], origins := d.log.origins + [source]))
  }

  /** One step of a thread standing at `t`: its effect on the world, and where it
      stands next. An outcome the thread is not waiting for changes nothing. */
  function RunWorker(w: World, t: Worker, o: Outcome): (World, Worker) {
    match (t, o)
    case (CallSocket, SocketOk(n)) => (With(w, OpenSock(w.d.fd, n)), ResolveHost)
    case (CallSocket, SocketFail) => (With(w, w.d.fd.(sock := -1)), Firing(ConnectorRole, ErrorRaised))
    case (ResolveHost, HostFound) => (w, TryConnect(HEAD_CONNECT_TRIES))
    case (ResolveHost, HostMissing) => (w, Firing(ConnectorRole, ErrorRaised))
    case (TryConnect(_), ConnectOk) => (w, Firing(ConnectorRole, ConnectSuccess))
    case (TryConnect(n), ConnectRefused) =>
      (w, if n <= 1 then Firing(ConnectorRole, ConnectFailed) else TryConnect(n - 1))

    case (HeadWrite, WriteOk) => (w, HeadRead)
    case (HeadWrite, WriteFail) => (w, Firing(HeadRole, LostConnection))
    case (HeadRead, ReadFail) => (w, Firing(HeadRole, LostConnection))
    case (HeadRead, HeadReply(ok, length)) =>
      if !ok || length.Absent? then (w, Firing(HeadRole, ErrorRaised))
      else if length.NotANumber? then (w, Firing(HeadRole, Finished))
      else (With(w, w.d.fd.(fileSize := length.n,
                            ledger := w.d.fd.ledger.(announced := length.n))),
            Firing(HeadRole, Finished))

    case (BodySend, WriteOk) => (w, BodyOpen(w.d.fd.GetFileSize(), w.d.fd.IsPartial()))
    case (BodySend, WriteFail) => (w, Firing(BodyRole, LostConnection))
    case (BodyOpen(x, partial), OpenOk) =>
      if partial && w.disk.None? then (w, Firing(BodyRole, ErrorRaised))  // "r+b" needs the file
      else
        var fpos := Seek(0, w.d.fd.low);
        (if partial then w else w.(disk := Some([])),           // "wb" truncates
         if w.d.fd.bytes == 0 then BodyFirst(x, partial, fpos)
         else BodyRead(x, Seek(fpos, w.d.fd.low + w.d.fd.bytes), 0))
    case (BodyOpen(_, _), OpenFail) => (w, Firing(BodyRole, ErrorRaised))
    case (BodyFirst(_, _, _), ReadFail) => (w, Firing(BodyRole, LostConnection))
    case (BodyFirst(x, partial, fpos), FirstReply(headerEnd, bad, is206, body)) =>
      if !headerEnd || bad || (partial && !is206) then (w, Firing(BodyRole, ErrorRaised))
      else (w, BodyPut(x, fpos, |body|, body, true))
    case (BodyPut(x, fpos, got, data, first), Proceed) =>
      (w.(disk := Put(w.disk, fpos, data)), BodyCount(x, fpos + |data|, got, |data|, first))
    case (BodyCount(x, fpos, got, k, first), Proceed) =>
      var bytes := w.d.fd.bytes + k;
      (With(w, w.d.fd.(bytes := bytes)),
       if first then BodyRead(x, Seek(fpos, w.d.fd.low + bytes), got)
       else if bytes == x then Firing(BodyRole, Finished)
       else BodyRead(x, fpos, got))
    case (BodyRead(_, _, _), ReadFail) => (w, Firing(BodyRole, ErrorRaised))
    case (BodyRead(x, fpos, got), Bytes(data)) =>
      if data == [] then (w, Firing(BodyRole, if w.d.fd.bytes == x then Finished else ErrorRaised))
      else (w, BodyPut(x, fpos, got + |data|, data, false))

    case (Firing(role, e), Proceed) => (w.(d := Fire(w.d, e, Thread(role, w.d.fd.Number(role)))), Done)
    case _ => (w, t)
  }

  // ---------- the listener's actions ----------

  /** close(sockfd); sockfd = -1 */
  function CloseSock(fd: Fd): Fd {
    fd.(sock := -1, ledger := fd.ledger.(closes := fd.ledger.closes + 1))
  }

  /** Cancel, join and free the connector. */
  function JoinConnector(fd: Fd): Fd {
    fd.(connector := None, ledger := fd.ledger.(joins := fd.ledger.joins + 1))
  }

  /** Cancel, join and free the downloader. */
  function JoinDownloader(fd: Fd): Fd {
    fd.(downloader := None, ledger := fd.ledger.(joins := fd.ledger.joins + 1))
  }

  /** HTTP_FD::Pause: close the socket if it is open, cancel and join whatever runs. */
  function Release(fd: Fd): Fd {
    fd.(sock := -1, connector := None, downloader := None,
        ledger := fd.ledger.(
          closes := fd.ledger.closes + (if fd.sock != -1 then 1 else 0),
          joins := fd.ledger.joins + (if fd.connector.Some? then 1 else 0)
                                   + (if fd.downloader.Some? then 1 else 0)))
  }

  /** HTTP_FD::CleanupDnloadResources, which also removes the file unless it is shared. */
  function CleanupDisk(fd: Fd, disk: Disk): Disk {
    if fd.IsPartial() then disk else None
  }

  /** HTTP_FD::HeadConnectServer; `None` when one of its asserts fails. */
  function ConnectServer(fd: Fd): Option<Fd> {
    if fd.Clean() && |fd.serverName| > 0 then
      var n := fd.ledger.spawns + 1;
      Some(fd.(connector := Some(CallSocket), ledger := fd.ledger.(spawns := n, connectorNo := n)))
    else None
  }

  /** HTTP_FD::HeadSendGetRequest and HTTP_FD::FileDownload, which differ in the thread body. */
  function SpawnDownloader(fd: Fd, body: Worker): Option<Fd> {
    if fd.sock != -1 && fd.connector.None? && fd.downloader.None? then
      var n := fd.ledger.spawns + 1;
      Some(fd.(downloader := Some(body), ledger := fd.ledger.(spawns := n, downloaderNo := n)))
    else None
  }

  function Abort(w: World): World {
    w.(d := w.d.(fault := AssertFailed))
  }

  function WithOrAbort(w: World, fd: Option<Fd>): World {
    if fd.Some? then With(w, fd.value) else Abort(w)
  }

  function CleanedUp(w: World): World {
    World(w.d.(fd := Release(w.d.fd)), CleanupDisk(w.d.fd, w.disk))
  }

  function Fired(w: World, e: Event): World {
    w.(d := Fire(w.d, e, Listener))
  }

  function Act(a: Action, w: World): World {
    match a
    case Connect => WithOrAbort(w, ConnectServer(w.d.fd))
    case Cleanup => CleanedUp(w)
    case ConnectionUp =>
      if w.d.fd.connector.None? then Abort(w)
      else Fired(With(w, JoinConnector(w.d.fd)), Start)
    case SendHeadRequest => WithOrAbort(w, SpawnDownloader(w.d.fd, HeadWrite))
    case LeaveRunning => w
    case HandOver =>
      var c := CleanedUp(w);
      WithOrAbort(c, ConnectServer(c.d.fd.(fileSize := w.d.fd.fileSize)))
    case HeadLost => Fired(CleanedUp(w), Reconnect)
    case StartDownload => WithOrAbort(w, SpawnDownloader(w.d.fd, BodySend))
    case CleanupAndConnect =>
      var c := CleanedUp(w);
      WithOrAbort(c, ConnectServer(c.d.fd))
    case PauseTransfer => With(w, Release(w.d.fd))
    case Finish =>
      var c := With(w, CloseSock(w.d.fd));
      if c.d.fd.downloader.None? then Abort(c) else With(c, JoinDownloader(c.d.fd))
    case BodyLost =>
      if w.d.fd.downloader.None? then Abort(w)
      else
        var c := With(w, JoinDownloader(w.d.fd));
        if c.d.fd.sock == -1 then Abort(c) else Fired(With(c, CloseSock(c.d.fd)), Reconnect)
  }

  // ---------- the transition system ----------

  /** efsm_execute. A NA entry is a fault when `strict`, as in the code, and is
      consumed without effect otherwise, as the header's "NA" intends. */
  function Execute(strict: bool, w: World, e: Event): World {
    match Table(w.d.state, e)
    case NA => if strict then w.(d := w.d.(fault := NullEntry)) else w
    case Go(a, next) => Act(a, w.(d := w.d.(state := next)))
  }

  /** One turn of event_listen_fn: it blocks on an empty queue. */
  function Listen(strict: bool, w: World): World {
    if w.d.queue == [] then w
    else
      var e := w.d.queue[0];
      Execute(strict,
              w.(d := w.d.(queue := w.d.queue[1..],
                           log := w.d.log.(executed := w.d.log.executed + [e]))),
              e)
  }

  datatype Label =
    | Turn                       // the listener takes an event
    | ConnectorStep(o: Outcome)
    | DownloaderStep(o: Outcome)
    | Inject(e: Event)           // an event written by the user or the launcher

  /** The world after a thread step, with the thread at its new place. */
  function ConnectorAt(r: (World, Worker)): World {
    With(r.0, r.0.d.fd.(connector := Some(r.1)))
  }

  function DownloaderAt(r: (World, Worker)): World {
    With(r.0, r.0.d.fd.(downloader := Some(r.1)))
  }

  function Step(strict: bool, w: World, l: Label): World {
    if w.d.fault != NoFault then w
    else match l
      case Turn => Listen(strict, w)
      case ConnectorStep(o) =>
        if w.d.fd.connector.None? then w else ConnectorAt(RunWorker(w, w.d.fd.connector.value, o))
      case DownloaderStep(o) =>
        if w.d.fd.downloader.None? then w else DownloaderAt(RunWorker(w, w.d.fd.downloader.value, o))
      case Inject(e) => w.(d := Fire(w.d, e, Outside))
  }

  lemma ConnectorMoves(strict: bool, w: World, t: Worker, o: Outcome)
    requires w.d.fault == NoFault && w.d.fd.connector == Some(t)
    ensures Step(strict, w, ConnectorStep(o)) == ConnectorAt(RunWorker(w, t, o))
  {
  }

  lemma DownloaderMoves(strict: bool, w: World, t: Worker, o: Outcome)
    requires w.d.fault == NoFault && w.d.fd.downloader == Some(t)
    ensures Step(strict, w, DownloaderStep(o)) == DownloaderAt(RunWorker(w, t, o))
  {
  }

  function Run(strict: bool, w: World, ls: seq<Label>): World
    decreases ls
  {
    if ls == [] then w else Run(strict, Step(strict, w, ls[0]), ls[1..])
  }

  lemma RunOne(strict: bool, w: World, l: Label, ls: seq<Label>)
    ensures Run(strict, w, [l] + ls) == Run(strict, Step(strict, w, l), ls)
  {
    assert ([l] + ls)[1..] == ls;
  }

  lemma RunThree(w: World, a: Label, b: Label, c: Label, rest: seq<Label>)
    ensures Run(false, w, [a, b, c] + rest) == Run(false, Step(false, Step(false, Step(false, w, a), b), c), rest)
  {
    assert [a, b, c] + rest == [a] + ([b] + ([c] + rest));
    RunOne(false, w, a, [b] + ([c] + rest));
    RunOne(false, Step(false, w, a), b, [c] + rest);
    RunOne(false, Step(false, Step(false, w, a), b), c, rest);
  }

  lemma {:induction false} RunConcat(strict: bool, w: World, a: seq<Label>, b: seq<Label>)
    ensures Run(strict, w, a + b) == Run(strict, Run(strict, w, a), b)
    decreases a
  {
    if a == [] {
      assert a + b == b;
    } else {
      assert (a + b)[1..] == a[1..] + b;
      RunConcat(strict, Step(strict, w, a[0]), a[1..], b);
    }
  }

  // ---------- who may write which event ----------

  /** Events other than CANCEL and PAUSE move the protocol on. */
  predicate IsDriver(e: Event) {
    e != Cancel && e != Pause
  }

  function DriversIn(q: seq<Event>): seq<Event> {
    if q == [] then []
    else (if IsDriver(q[0]) then [q[0]] else []) + DriversIn(q[1..])
  }

  function Live(t: Option<Worker>): nat {
    if t.Some? && !t.value.Done? then 1 else 0
  }

  /** Live workers that have not fired, plus queued driver events. */
  function Drivers(d: Downloader): nat {
    Live(d.fd.connector) + Live(d.fd.downloader) + |DriversIn(d.queue)|
  }

  /** The user's discipline: CANCEL and PAUSE at any moment, anything else only
      while no worker is live and no driver event is queued. */
  predicate Allowed(d: Downloader, l: Label) {
    l.Inject? && IsDriver(l.e) ==> Drivers(d) == 0
  }

  predicate Disciplined(w: World, ls: seq<Label>)
    decreases ls
  {
    ls == [] || (Allowed(w.d, ls[0]) && Disciplined(Step(false, w, ls[0]), ls[1..]))
  }

  lemma {:induction false} DriversAppend(q: seq<Event>, e: Event)
    ensures DriversIn(q + [e]) == DriversIn(q) + (if IsDriver(e) then [e] else [])
  {
    if q != [] {
      assert (q + [e])[1..] == q[1..] + [e];
      DriversAppend(q[1..], e);
    }
  }
}
