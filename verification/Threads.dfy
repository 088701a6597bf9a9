/**
 The thread bodies run from start to end without interference, as values: what
 each returns for given answers of the environment, and that the step machine of
 `Downloaders` runs them.
 */
module Threads {
  import opened Wrappers
  import opened Fsm
  import opened Downloaders
  import opened Transfer

  // ---------- server_head_connect_fn ----------

  /** The retry loop from attempt `k` with `tries` left: the event it ends in and
      the number of the next attempt. `answers(k)` says whether attempt k connects. */
  function Attempts(answers: nat -> bool, k: nat, tries: nat): (Event, nat)
    decreases tries
  {
    if tries == 0 then (ConnectFailed, k)
    else if answers(k) then (ConnectSuccess, k + 1)
    else Attempts(answers, k + 1, tries - 1)
  }

  /** The loop succeeds exactly if one of its attempts would, and stops at the first. */
  lemma {:induction false} AttemptsIff(answers: nat -> bool, k: nat, tries: nat)
    ensures var (e, n) := Attempts(answers, k, tries);
            && (e == ConnectSuccess <==> exists i: nat :: k <= i < k + tries && answers(i))
            && (e == ConnectFailed <==> forall i: nat :: k <= i < k + tries ==> !answers(i))
            && (e == ConnectSuccess ==> k < n && answers(n - 1) && forall i: nat :: k <= i < n - 1 ==> !answers(i))
            && k <= n <= k + tries
    decreases tries
  {
    if tries != 0 && !answers(k) {
      AttemptsIff(answers, k + 1, tries - 1);
    }
  }

  function AttemptScript(answers: nat -> bool, k: nat, tries: nat): seq<Label>
    decreases tries
  {
    if tries == 0 then []
    else if answers(k) then [ConnectorStep(ConnectOk)]
    else [ConnectorStep(ConnectRefused)] + AttemptScript(answers, k + 1, tries - 1)
  }

  lemma ConnectorAttempts(w: World, t: Worker, o: Outcome)
    requires w.d.fault == NoFault && w.d.fd.connector == Some(t) && t.TryConnect?
    requires o == ConnectOk || o == ConnectRefused
    ensures Step(false, w, ConnectorStep(o)) ==
            With(w, w.d.fd.(connector := Some(RunWorker(w, t, o).1)))
  {
  }

  lemma {:induction false} StepsRunAttempts(w: World, answers: nat -> bool, k: nat, tries: nat)
    requires w.d.fault == NoFault && tries > 0 && w.d.fd.connector == Some(TryConnect(tries))
    ensures Run(false, w, AttemptScript(answers, k, tries)) ==
            With(w, w.d.fd.(connector := Some(Firing(ConnectorRole, Attempts(answers, k, tries).0))))
    decreases tries
  {
    var o := if answers(k) then ConnectOk else ConnectRefused;
    var w1 := Step(false, w, ConnectorStep(o));
    ConnectorAttempts(w, TryConnect(tries), o);
    if answers(k) {
      RunOne(false, w, ConnectorStep(o), []);
    } else {
      RunOne(false, w, ConnectorStep(o), AttemptScript(answers, k + 1, tries - 1));
      if tries > 1 {
        StepsRunAttempts(w1, answers, k + 1, tries - 1);
      }
    }
  }

  lemma {:induction false} AttemptsLength(answers: nat -> bool, k: nat, tries: nat)
    ensures |AttemptScript(answers, k, tries)| == Attempts(answers, k, tries).1 - k
    decreases tries
  {
    if tries != 0 && !answers(k) {
      AttemptsLength(answers, k + 1, tries - 1);
    }
  }

  /** What the environment answers the connector: socket(), gethostbyname(), connect(). */
  function ConnectorScript(socket: Option<nat>, resolved: bool, answers: nat -> bool): seq<Label> {
    if socket.None? then [ConnectorStep(SocketFail)]
    else [ConnectorStep(SocketOk(socket.value))] + ResolveScript(resolved, answers)
  }

  function ResolveScript(resolved: bool, answers: nat -> bool): seq<Label> {
    if !resolved then [ConnectorStep(HostMissing)]
    else [ConnectorStep(HostFound)] + AttemptScript(answers, 0, 5)
  }

  /** The world with the connector about to report. */
  function AboutToReport(w: World, fd: Fd, e: Event): World {
    With(w, fd.(connector := Some(Firing(ConnectorRole, e))))
  }

  lemma NoSocket(w: World)
    requires w.d.fault == NoFault && w.d.fd.connector == Some(CallSocket)
    ensures Run(false, w, [ConnectorStep(SocketFail)]) == AboutToReport(w, w.d.fd.(sock := -1), ErrorRaised)
  {
    ConnectorMoves(false, w, CallSocket, SocketFail);
    RunOne(false, w, ConnectorStep(SocketFail), []);
  }

  lemma SocketOpens(w: World, n: nat)
    requires w.d.fault == NoFault && w.d.fd.connector == Some(CallSocket)
    ensures Step(false, w, ConnectorStep(SocketOk(n))) == With(w, OpenSock(w.d.fd, n).(connector := Some(ResolveHost)))
  {
    ConnectorMoves(false, w, CallSocket, SocketOk(n));
  }

  lemma NoHost(w: World)
    requires w.d.fault == NoFault && w.d.fd.connector == Some(ResolveHost)
    ensures Run(false, w, [ConnectorStep(HostMissing)]) == AboutToReport(w, w.d.fd, ErrorRaised)
  {
    ConnectorMoves(false, w, ResolveHost, HostMissing);
    RunOne(false, w, ConnectorStep(HostMissing), []);
  }

  lemma HostResolves(w: World)
    requires w.d.fault == NoFault && w.d.fd.connector == Some(ResolveHost)
    ensures Step(false, w, ConnectorStep(HostFound)) == With(w, w.d.fd.(connector := Some(TryConnect(5))))
  {
    ConnectorMoves(false, w, ResolveHost, HostFound);
  }

  /** From the lookup on. */
  lemma StepsResolve(w: World, resolved: bool, answers: nat -> bool)
    requires w.d.fault == NoFault && w.d.fd.connector == Some(ResolveHost)
    ensures Run(false, w, ResolveScript(resolved, answers))
            == AboutToReport(w, w.d.fd, if resolved then Attempts(answers, 0, 5).0 else ErrorRaised)
  {
    if resolved {
      HostResolves(w);
      RunOne(false, w, ConnectorStep(HostFound), AttemptScript(answers, 0, 5));
      StepsRunAttempts(With(w, w.d.fd.(connector := Some(TryConnect(5)))), answers, 0, 5);
    } else {
      NoHost(w);
    }
  }

  /** Run without interference, for every answer of socket(), gethostbyname() and
      connect(): the connector reports ERROR exactly if there is no socket or no host,
      CONNECT_SUCCESS exactly if one of five attempts connects, after the first that
      does, and CONNECT_FAILED exactly if all five are refused. */
  lemma StepsRunConnector(w: World, socket: Option<nat>, resolved: bool, answers: nat -> bool)
    returns (e: Event, attempts: nat)
    requires w.d.fault == NoFault && w.d.fd.connector == Some(CallSocket)
    ensures Run(false, w, ConnectorScript(socket, resolved, answers))
            == AboutToReport(w, if socket.Some? then OpenSock(w.d.fd, socket.value) else w.d.fd.(sock := -1), e)
    ensures e == ErrorRaised <==> socket.None? || !resolved
    ensures e == ConnectSuccess <==> socket.Some? && resolved && exists i: nat :: i < 5 && answers(i)
    ensures e == ConnectFailed <==> socket.Some? && resolved && forall i: nat :: i < 5 ==> !answers(i)
    ensures e == ConnectSuccess
            ==> 0 < attempts <= 5 && answers(attempts - 1) && forall i: nat :: i < attempts - 1 ==> !answers(i)
    ensures e == ConnectFailed ==> attempts == 5
    ensures e != ErrorRaised ==> |ConnectorScript(socket, resolved, answers)| == 2 + attempts
  {
    attempts := 0;
    if socket.None? {
      NoSocket(w);
      e := ErrorRaised;
    } else {
      var tail := ResolveScript(resolved, answers);
      SocketOpens(w, socket.value);
      RunOne(false, w, ConnectorStep(SocketOk(socket.value)), tail);
      StepsResolve(Step(false, w, ConnectorStep(SocketOk(socket.value))), resolved, answers);
      if resolved {
        AttemptsIff(answers, 0, 5);
        AttemptsAll(answers, 0, 5);
        AttemptsLength(answers, 0, 5);
        e, attempts := Attempts(answers, 0, 5).0, Attempts(answers, 0, 5).1;
      } else {
        e := ErrorRaised;
      }
    }
  }

  lemma {:induction false} AttemptsAll(answers: nat -> bool, k: nat, tries: nat)
    ensures var (e, n) := Attempts(answers, k, tries);
            (e == ConnectFailed ==> n == k + tries) && (e == ConnectFailed || e == ConnectSuccess)
    decreases tries
  {
    if tries != 0 && !answers(k) {
      AttemptsAll(answers, k + 1, tries - 1);
    }
  }

  // ---------- http_send_head_request ----------

  /** What the environment answers the HEAD requester: write() and read(), the reply
      with whether it is a 200 and what length it carries. */
  function HeadScript(sent: bool, reply: Option<(bool, Length)>): seq<Label> {
    if !sent then [DownloaderStep(WriteFail)]
    else [DownloaderStep(WriteOk), DownloaderStep(HeadAnswer(reply))]
  }

  function HeadAnswer(reply: Option<(bool, Length)>): Outcome {
    if reply.None? then ReadFail else HeadReply(reply.value.0, reply.value.1)
  }

  function Learned(fd: Fd, n: int): Fd {
    fd.(fileSize := n, ledger := fd.ledger.(announced := n))
  }

  lemma HeadNotSent(w: World)
    requires w.d.fault == NoFault && w.d.fd.downloader == Some(HeadWrite)
    ensures Run(false, w, [DownloaderStep(WriteFail)]) == Standing(w, Firing(HeadRole, LostConnection))
  {
    DownloaderMoves(false, w, HeadWrite, WriteFail);
    RunOne(false, w, DownloaderStep(WriteFail), []);
  }

  lemma HeadSent(w: World)
    requires w.d.fault == NoFault && w.d.fd.downloader == Some(HeadWrite)
    ensures Step(false, w, DownloaderStep(WriteOk)) == Standing(w, HeadRead)
  {
    DownloaderMoves(false, w, HeadWrite, WriteOk);
  }

  lemma HeadAnswered(w: World, reply: Option<(bool, Length)>) returns (e: Event)
    requires w.d.fault == NoFault && w.d.fd.downloader == Some(HeadRead)
    ensures e == LostConnection <==> reply.None?
    ensures e == ErrorRaised <==> reply.Some? && (!reply.value.0 || reply.value.1.Absent?)
    ensures e == Finished <==> reply.Some? && reply.value.0 && !reply.value.1.Absent?
    ensures var fd := if e == Finished && reply.value.1.Number? then Learned(w.d.fd, reply.value.1.n) else w.d.fd;
            Step(false, w, DownloaderStep(HeadAnswer(reply))) == Standing(With(w, fd), Firing(HeadRole, e))
  {
    DownloaderMoves(false, w, HeadRead, HeadAnswer(reply));
    e := Step(false, w, DownloaderStep(HeadAnswer(reply))).d.fd.downloader.value.event;
  }

  /** Run without interference, for every answer of write() and read(): the HEAD
      requester reports LOST_CONNECTION exactly if one of them failed, ERROR exactly if
      the reply is no 200 or names no length, FINISHED otherwise, and stores the length
      exactly if it reports FINISHED and the length is a number. */
  lemma StepsRunHead(w: World, sent: bool, reply: Option<(bool, Length)>) returns (e: Event)
    requires w.d.fault == NoFault && w.d.fd.downloader == Some(HeadWrite)
    ensures e == LostConnection <==> !sent || reply.None?
    ensures e == ErrorRaised <==> sent && reply.Some? && (!reply.value.0 || reply.value.1.Absent?)
    ensures e == Finished <==> sent && reply.Some? && reply.value.0 && !reply.value.1.Absent?
    ensures var fd := if e == Finished && reply.value.1.Number? then Learned(w.d.fd, reply.value.1.n) else w.d.fd;
            Run(false, w, HeadScript(sent, reply)) == Standing(With(w, fd), Firing(HeadRole, e))
  {
    if sent {
      HeadSent(w);
      var w1 := Standing(w, HeadRead);
      e := HeadAnswered(w1, reply);
      RunOne(false, w, DownloaderStep(WriteOk), [DownloaderStep(HeadAnswer(reply))]);
      RunOne(false, w1, DownloaderStep(HeadAnswer(reply)), []);
      assert [DownloaderStep(WriteOk)] + [DownloaderStep(HeadAnswer(reply))] == HeadScript(sent, reply);
    } else {
      HeadNotSent(w);
      e := LostConnection;
    }
  }

  // ---------- http_file_download_thread_fn ----------

  /** The read that must contain the whole header. */
  datatype First =
    | FirstFailed
    | FirstData(headerEnd: bool, badRequest: bool, partialContent: bool, body: seq<byte>)

  predicate Rejected(fd: Fd, first: First)
    requires first.FirstData?
  {
    !first.headerEnd || first.badRequest || (fd.IsPartial() && !first.partialContent)
  }

  /** The body thread behind its fopen. */
  function Receive(fd: Fd, file: Disk, first: First, rs: seq<Read>): Received {
    var fpos := Seek(0, fd.low);
    if fd.bytes > 0 then
      Loop(fd.bytes, Seek(fpos, fd.low + fd.bytes), file, fd.GetFileSize(), rs)
    else if first.FirstFailed? then Received(0, file, LostConnection)
    else if Rejected(fd, first) then Received(0, file, ErrorRaised)
    else
      var n := |first.body|;
      Loop(n, Seek(fpos + n, fd.low + n), Put(file, fpos, first.body), fd.GetFileSize(), rs)
  }

  /** The body thread from start to end. */
  function BodyThread(fd: Fd, disk: Disk, sent: bool, openable: bool, first: First, rs: seq<Read>): Received {
    if !sent then Received(fd.bytes, disk, LostConnection)
    else if !openable || (fd.IsPartial() && disk.None?) then Received(fd.bytes, disk, ErrorRaised)
    else Receive(fd, if fd.IsPartial() then disk else Some([]), first, rs)
  }

  /** A fresh range download with an accepted header and a body within the range:
      the file, the counter and the event are those of the stream, however read. */
  lemma RangeThreadOnStream(fd: Fd, disk: Disk, first: First, rs: seq<Read>)
    requires fd.bytes == 0 && 0 <= fd.low && fd.IsPartial() && disk.Some?
    requires first.FirstData? && !Rejected(fd, first)
    requires |first.body| + |Stream(rs)| <= fd.GetFileSize()
    ensures var s := first.body + Stream(rs);
            BodyThread(fd, disk, true, true, first, rs) ==
            Received(|s|, Put(disk, fd.low, s),
                     if |s| == fd.GetFileSize() && (!Broken(rs) || |first.body| < |s|)
                     then Finished else ErrorRaised)
  {
    BodyOnStream(fd.low, disk, fd.GetFileSize(), first.body, rs);
  }

  /** A lower bound so far below zero that every seek fails: what is read is written one
      behind the other from the start of the file. */
  lemma NegativeLowWritesAtStart(fd: Fd, disk: Disk, first: First, rs: seq<Read>)
    requires fd.bytes == 0 && fd.IsPartial() && disk.Some?
    requires first.FirstData? && !Rejected(fd, first)
    requires fd.low < 0 && fd.low + |first.body| < 0 && |first.body| + |Stream(rs)| <= fd.GetFileSize()
    ensures BodyThread(fd, disk, true, true, first, rs).disk == Put(disk, 0, first.body + Stream(rs))
  {
    BodyOnStream(0, disk, fd.GetFileSize(), first.body, rs);
  }

  /** Whether the thread comes to read: its request is written and its file open. */
  predicate ComesToRead(fd: Fd, disk: Disk, sent: bool, openable: bool) {
    sent && openable && (fd.IsPartial() ==> disk.Some?)
  }

  /** The reply that a fresh thread accepts: a complete header, no 400, and, if a range
      was asked for, a 206. */
  predicate Acceptable(fd: Fd, first: First) {
    && first.FirstData? && first.headerEnd && !first.badRequest
    && (fd.IsPartial() ==> first.partialContent)
  }

  /** Which event the body thread reports, for all answers. LOST_CONNECTION: the write
      failed, or the first read of a fresh thread. ERROR without touching a byte: the
      file did not open, or a fresh thread's reply is not acceptable. FINISHED: only
      with the counter at the size asked for; for a body no longer than that, if and
      only if its length is that and it did not break after a first read that held
      all of it. */
  lemma BodyThreadEvents(fd: Fd, disk: Disk, sent: bool, openable: bool, first: First, rs: seq<Read>)
    ensures var r := BodyThread(fd, disk, sent, openable, first, rs);
            var ready := ComesToRead(fd, disk, sent, openable);
            var start := if fd.bytes > 0 then fd.bytes else if first.FirstData? then |first.body| else 0;
            var receives := ready && (fd.bytes > 0 || Acceptable(fd, first));
            && (r.event == LostConnection <==> !sent || (ready && fd.bytes == 0 && first.FirstFailed?))
            && (sent && !receives && r.event != LostConnection ==> r.event == ErrorRaised)
            && (!receives ==> r.bytes == fd.bytes && r.disk == if ready && !fd.IsPartial() then Some([]) else disk)
            && (r.event == Finished ==> receives && r.bytes == fd.GetFileSize())
            && (receives && start + |Stream(rs)| <= fd.GetFileSize()
                ==> r.bytes == start + |Stream(rs)|
                    && (r.event == Finished
                        <==> r.bytes == fd.GetFileSize() && (!Broken(rs) || Stream(rs) != [])))
  {
    var file := if fd.IsPartial() then disk else Some([]);
    if ComesToRead(fd, disk, sent, openable) {
      if fd.bytes > 0 {
        LoopReports(fd.bytes, Seek(Seek(0, fd.low), fd.low + fd.bytes), file, fd.GetFileSize(), rs);
      } else if Acceptable(fd, first) {
        var n := |first.body|;
        var fpos := Seek(0, fd.low);
        LoopReports(n, Seek(fpos + n, fd.low + n), Put(file, fpos, first.body), fd.GetFileSize(), rs);
      }
    }
  }

  lemma LoopReports(bytes: nat, fpos: nat, disk: Disk, expected: int, rs: seq<Read>)
    ensures var r := Loop(bytes, fpos, disk, expected, rs);
            && (r.event == Finished || r.event == ErrorRaised) && (r.event == Finished ==> r.bytes == expected)
            && (bytes + |Stream(rs)| <= expected
                ==> r.bytes == bytes + |Stream(rs)|
                    && (r.event == Finished <==> r.bytes == expected && (!Broken(rs) || Stream(rs) != [])))
  {
    LoopEvents(bytes, fpos, disk, expected, rs);
    if bytes + |Stream(rs)| <= expected {
      LoopOnStream(bytes, fpos, disk, expected, rs);
    }
  }

  lemma {:induction false} LoopEvents(bytes: nat, fpos: nat, disk: Disk, expected: int, rs: seq<Read>)
    ensures var r := Loop(bytes, fpos, disk, expected, rs);
            (r.event == Finished || r.event == ErrorRaised) && (r.event == Finished ==> r.bytes == expected)
    decreases rs
  {
    if rs != [] && rs[0].Data? && rs[0].bytes != [] && bytes + |rs[0].bytes| != expected {
      LoopUnfolds(bytes, fpos, disk, expected, rs);
      LoopEvents(bytes + |rs[0].bytes|, fpos + |rs[0].bytes|, Put(disk, fpos, rs[0].bytes), expected, rs[1..]);
    }
  }

  /** Without a range, 200 and 206 are the same to the thread, as a whole and step by step. */
  lemma PartialContentIrrelevant(w: World, sent: bool, openable: bool, first: First, rs: seq<Read>,
                                 is206: bool, x: int, fpos: nat)
    requires !w.d.fd.IsPartial() && first.FirstData?
    ensures BodyThread(w.d.fd, w.disk, sent, openable, first.(partialContent := is206), rs)
            == BodyThread(w.d.fd, w.disk, sent, openable, first, rs)
    ensures RunWorker(w, BodyFirst(x, false, fpos), FirstOutcome(first.(partialContent := is206)))
            == RunWorker(w, BodyFirst(x, false, fpos), FirstOutcome(first))
    ensures first.headerEnd && !first.badRequest
            ==> RunWorker(w, BodyFirst(x, false, fpos), FirstOutcome(first))
                == (w, BodyPut(x, fpos, |first.body|, first.body, true))
  {
  }

  function FirstOutcome(first: First): Outcome {
    match first
    case FirstFailed => ReadFail
    case FirstData(h, b, p, body) => FirstReply(h, b, p, body)
  }

  /** What the environment answers the body thread behind its fopen. */
  function ReceiveScript(fd: Fd, first: First, rs: seq<Read>): seq<Label> {
    if fd.bytes > 0 then Script(fd.bytes, fd.GetFileSize(), rs)
    else if first.FirstFailed? || Rejected(fd, first) then [DownloaderStep(FirstOutcome(first))]
    else [DownloaderStep(FirstOutcome(first)), DownloaderStep(Proceed), DownloaderStep(Proceed)]
         + Script(|first.body|, fd.GetFileSize(), rs)
  }

  function OpenScript(fd: Fd, disk: Disk, openable: bool, first: First, rs: seq<Read>): seq<Label> {
    [DownloaderStep(if openable then OpenOk else OpenFail)]
    + if !openable || (fd.IsPartial() && disk.None?) then [] else ReceiveScript(fd, first, rs)
  }

  function BodyScript(fd: Fd, disk: Disk, sent: bool, openable: bool, first: First, rs: seq<Read>): seq<Label> {
    if !sent then [DownloaderStep(WriteFail)]
    else [DownloaderStep(WriteOk)] + OpenScript(fd, disk, openable, first, rs)
  }

  /** Where the thread stands behind its fopen. */
  function Opened(fd: Fd, x: int): Worker {
    if fd.bytes == 0 then BodyFirst(x, fd.IsPartial(), Seek(0, fd.low))
    else BodyRead(x, Seek(Seek(0, fd.low), fd.low + fd.bytes), 0)
  }

  lemma Sends(w: World, sent: bool)
    requires w.d.fault == NoFault && w.d.fd.downloader == Some(BodySend)
    ensures Step(false, w, DownloaderStep(if sent then WriteOk else WriteFail)) ==
            Standing(w, if sent then BodyOpen(w.d.fd.GetFileSize(), w.d.fd.IsPartial())
                        else Firing(BodyRole, LostConnection))
  {
  }

  lemma Opens(w: World, x: int, openable: bool)
    requires w.d.fault == NoFault && w.d.fd.downloader == Some(BodyOpen(x, w.d.fd.IsPartial()))
    ensures var fd := w.d.fd;
            var file := if fd.IsPartial() then w.disk else Some([]);
            Step(false, w, DownloaderStep(if openable then OpenOk else OpenFail)) ==
            if !openable || (fd.IsPartial() && w.disk.None?) then Standing(w, Firing(BodyRole, ErrorRaised))
            else Standing(w.(disk := file), Opened(fd, x))
  {
  }

  lemma FirstRejected(w: World, x: int, fpos: nat, first: First)
    requires w.d.fault == NoFault && w.d.fd.downloader == Some(BodyFirst(x, w.d.fd.IsPartial(), fpos))
    requires first.FirstFailed? || Rejected(w.d.fd, first)
    ensures Run(false, w, [DownloaderStep(FirstOutcome(first))]) ==
            Standing(w, Firing(BodyRole, if first.FirstFailed? then LostConnection else ErrorRaised))
  {
    DownloaderMoves(false, w, BodyFirst(x, w.d.fd.IsPartial(), fpos), FirstOutcome(first));
    RunOne(false, w, DownloaderStep(FirstOutcome(first)), []);
  }

  /** The world after an accepted first read, its write and its count. */
  function FirstTaken(w: World, x: int, fpos: nat, body: seq<byte>): World {
    var n := |body|;
    World(w.d.(fd := w.d.fd.(bytes := n, downloader := Some(BodyRead(x, Seek(fpos + n, w.d.fd.low + n), n)))),
          Put(w.disk, fpos, body))
  }

  lemma FirstArrives(w: World, x: int, fpos: nat, first: First)
    requires w.d.fault == NoFault && w.d.fd.downloader == Some(BodyFirst(x, w.d.fd.IsPartial(), fpos))
    requires first.FirstData? && !Rejected(w.d.fd, first)
    ensures Step(false, w, DownloaderStep(FirstOutcome(first)))
            == Standing(w, BodyPut(x, fpos, |first.body|, first.body, true))
  {
    DownloaderMoves(false, w, BodyFirst(x, w.d.fd.IsPartial(), fpos), FirstOutcome(first));
  }

  lemma FirstAccepted(w: World, x: int, fpos: nat, first: First)
    requires w.d.fault == NoFault && w.d.fd.downloader == Some(BodyFirst(x, w.d.fd.IsPartial(), fpos))
    requires first.FirstData? && !Rejected(w.d.fd, first) && w.d.fd.bytes == 0
    ensures var w1 := Step(false, w, DownloaderStep(FirstOutcome(first)));
            var w2 := Step(false, w1, DownloaderStep(Proceed));
            Step(false, w2, DownloaderStep(Proceed)) == FirstTaken(w, x, fpos, first.body)
  {
    var n := |first.body|;
    FirstArrives(w, x, fpos, first);
    var w1 := Standing(w, BodyPut(x, fpos, n, first.body, true));
    PutsData(w1, x, fpos, n, first.body, true);
    CountsData(Step(false, w1, DownloaderStep(Proceed)), x, fpos + n, n, n, true);
  }

  lemma AfterFirst(w: World, x: int, fpos: nat, first: First, rest: seq<Label>)
    requires w.d.fault == NoFault && w.d.fd.downloader == Some(BodyFirst(x, w.d.fd.IsPartial(), fpos))
    requires first.FirstData? && !Rejected(w.d.fd, first) && w.d.fd.bytes == 0
    ensures Run(false, w,
                [DownloaderStep(FirstOutcome(first)), DownloaderStep(Proceed), DownloaderStep(Proceed)] + rest)
            == Run(false, FirstTaken(w, x, fpos, first.body), rest)
  {
    FirstAccepted(w, x, fpos, first);
    RunThree(w, DownloaderStep(FirstOutcome(first)), DownloaderStep(Proceed), DownloaderStep(Proceed), rest);
  }

  predicate ReceiveRuns(w: World, first: First, rs: seq<Read>) {
    Run(false, w, ReceiveScript(w.d.fd, first, rs)) == Ended(w, Receive(w.d.fd, w.disk, first, rs))
  }

  predicate Receiving(w: World, x: int) {
    w.d.fault == NoFault && x == w.d.fd.GetFileSize() && w.d.fd.downloader == Some(Opened(w.d.fd, x))
  }

  lemma ResumedRuns(w: World, first: First, rs: seq<Read>, x: int)
    requires Receiving(w, x) && w.d.fd.bytes > 0
    ensures ReceiveRuns(w, first, rs)
  {
    StepsRunLoop(w, x, Seek(Seek(0, w.d.fd.low), w.d.fd.low + w.d.fd.bytes), 0, rs);
  }

  lemma RejectedRuns(w: World, first: First, rs: seq<Read>, x: int)
    requires Receiving(w, x) && w.d.fd.bytes == 0 && (first.FirstFailed? || Rejected(w.d.fd, first))
    ensures ReceiveRuns(w, first, rs)
  {
    FirstRejected(w, x, Seek(0, w.d.fd.low), first);
  }

  lemma AcceptedRuns(w: World, first: First, rs: seq<Read>, x: int)
    requires Receiving(w, x) && w.d.fd.bytes == 0 && first.FirstData? && !Rejected(w.d.fd, first)
    ensures ReceiveRuns(w, first, rs)
  {
    var fpos := Seek(0, w.d.fd.low);
    var n := |first.body|;
    AfterFirst(w, x, fpos, first, Script(n, x, rs));
    StepsRunLoop(FirstTaken(w, x, fpos, first.body), x, Seek(fpos + n, w.d.fd.low + n), n, rs);
  }

  lemma StepsReceive(w: World, first: First, rs: seq<Read>, x: int)
    requires Receiving(w, x)
    ensures ReceiveRuns(w, first, rs)
  {
    if w.d.fd.bytes > 0 {
      ResumedRuns(w, first, rs, x);
    } else if first.FirstFailed? || Rejected(w.d.fd, first) {
      RejectedRuns(w, first, rs, x);
    } else {
      AcceptedRuns(w, first, rs, x);
    }
  }

  /** Run without interference, the concurrent body thread ends with the counter,
      the file and the event of `BodyThread`, and changes nothing else. */
  lemma StepsRunBodyThread(w: World, sent: bool, openable: bool, first: First, rs: seq<Read>)
    requires w.d.fault == NoFault && w.d.fd.downloader == Some(BodySend)
    ensures var r := BodyThread(w.d.fd, w.disk, sent, openable, first, rs);
            Run(false, w, BodyScript(w.d.fd, w.disk, sent, openable, first, rs)) == Ended(w, r)
  {
    if !sent {
      SendFails(w);
    } else {
      var tail := OpenScript(w.d.fd, w.disk, openable, first, rs);
      var w1 := SendSucceeds(w, tail);
      PlaceIsIrrelevant(w.d.fd, w1.d.fd.downloader, w.disk, openable, first, rs);
      StepsOpen(w1, openable, first, rs, w.d.fd.GetFileSize());
    }
  }

  /** Where the thread stands is no input of its body. */
  lemma PlaceIsIrrelevant(fd: Fd, t: Option<Worker>, disk: Disk, openable: bool, first: First, rs: seq<Read>)
    ensures var fd' := fd.(downloader := t);
            && OpenScript(fd', disk, openable, first, rs) == OpenScript(fd, disk, openable, first, rs)
            && ReceiveScript(fd', first, rs) == ReceiveScript(fd, first, rs)
            && BodyThread(fd', disk, true, openable, first, rs) == BodyThread(fd, disk, true, openable, first, rs)
            && (forall file :: Receive(fd', file, first, rs) == Receive(fd, file, first, rs))
  {
  }

  lemma SendFails(w: World)
    requires w.d.fault == NoFault && w.d.fd.downloader == Some(BodySend)
    ensures Run(false, w, [DownloaderStep(WriteFail)]) == Standing(w, Firing(BodyRole, LostConnection))
  {
    Sends(w, false);
    RunOne(false, w, DownloaderStep(WriteFail), []);
  }

  lemma SendSucceeds(w: World, tail: seq<Label>) returns (w1: World)
    requires w.d.fault == NoFault && w.d.fd.downloader == Some(BodySend)
    ensures w1 == Standing(w, BodyOpen(w.d.fd.GetFileSize(), w.d.fd.IsPartial()))
    ensures Run(false, w, [DownloaderStep(WriteOk)] + tail) == Run(false, w1, tail)
  {
    Sends(w, true);
    RunOne(false, w, DownloaderStep(WriteOk), tail);
    w1 := Step(false, w, DownloaderStep(WriteOk));
  }

  predicate OpenRuns(w: World, openable: bool, first: First, rs: seq<Read>) {
    Run(false, w, OpenScript(w.d.fd, w.disk, openable, first, rs))
    == Ended(w, BodyThread(w.d.fd, w.disk, true, openable, first, rs))
  }

  lemma StepsOpen(w: World, openable: bool, first: First, rs: seq<Read>, x: int)
    requires w.d.fault == NoFault && x == w.d.fd.GetFileSize()
    requires w.d.fd.downloader == Some(BodyOpen(x, w.d.fd.IsPartial()))
    ensures OpenRuns(w, openable, first, rs)
  {
    if !openable || (w.d.fd.IsPartial() && w.disk.None?) {
      OpenFails(w, x, openable);
    } else {
      OpenedRuns(w, first, rs, x);
    }
  }

  lemma OpenedRuns(w: World, first: First, rs: seq<Read>, x: int)
    requires w.d.fault == NoFault && x == w.d.fd.GetFileSize()
    requires w.d.fd.downloader == Some(BodyOpen(x, w.d.fd.IsPartial()))
    requires !(w.d.fd.IsPartial() && w.disk.None?)
    ensures OpenRuns(w, true, first, rs)
  {
    var w1 := OpenSucceeds(w, x, ReceiveScript(w.d.fd, first, rs));
    PlaceIsIrrelevant(w.d.fd, w1.d.fd.downloader, w.disk, true, first, rs);
    StepsReceive(w1, first, rs, x);
  }

  lemma OpenFails(w: World, x: int, openable: bool)
    requires w.d.fault == NoFault && w.d.fd.downloader == Some(BodyOpen(x, w.d.fd.IsPartial()))
    requires !openable || (w.d.fd.IsPartial() && w.disk.None?)
    ensures Run(false, w, [DownloaderStep(if openable then OpenOk else OpenFail)])
            == Standing(w, Firing(BodyRole, ErrorRaised))
  {
    Opens(w, x, openable);
    RunOne(false, w, DownloaderStep(if openable then OpenOk else OpenFail), []);
  }

  lemma OpenSucceeds(w: World, x: int, tail: seq<Label>) returns (w1: World)
    requires w.d.fault == NoFault && w.d.fd.downloader == Some(BodyOpen(x, w.d.fd.IsPartial()))
    requires !(w.d.fd.IsPartial() && w.disk.None?)
    ensures w1 == Standing(w.(disk := if w.d.fd.IsPartial() then w.disk else Some([])), Opened(w.d.fd, x))
    ensures Run(false, w, [DownloaderStep(OpenOk)] + tail) == Run(false, w1, tail)
  {
    Opens(w, x, true);
    RunOne(false, w, DownloaderStep(OpenOk), tail);
    w1 := Step(false, w, DownloaderStep(OpenOk));
  }
}
