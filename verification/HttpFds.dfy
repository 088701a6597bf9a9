/**
 The FD object of FileDownLoader.cpp and HTTP_FileDownLoader.cpp: its fields are
 updated in place, and every method is tied to the value functions of
 `Downloaders`, `Transfer` and `Threads`. A method whose asserts can fail reports
 it and then leaves the object alone.
 */
module HttpFds {
  import opened Wrappers
  import opened Fsm
  import opened Downloaders
  import opened Transfer
  import opened Threads

  /** The output file, shared by all downloaders of one URL. */
  class OutputFile {
    var content: Disk

    constructor ()
      ensures content == None
    {
      content := None;
    }

    /** fopen "wb" followed by ftruncate. */
    method Create(size: nat)
      modifies this
      ensures content.Some? && |content.value| == size && forall i | 0 <= i < size :: content.value[i] == 0
    {
      content := Some(seq(size, _ => 0));
    }

    method Write(pos: nat, data: seq<byte>)
      modifies this
      ensures content == Put(old(content), pos, data)
    {
      content := Put(content, pos, data);
    }

    method Remove()
      modifies this
      ensures content == None
    {
      content := None;
    }
  }

  /** FD::SetByteRange on values. */
  function RangeSet(fd: Fd, low: int, high: int): Fd {
    fd.(low := low, high := high,
        flags := if low != 0 || high != 0 then fd.flags | PARTIAL_REQ else fd.flags)
  }

  /** A range set on a fresh object has the size of its bytes, and is flagged as
      partial, exactly when it is not the one-byte range [0, 0], which the object
      cannot tell from "the whole file". */
  lemma RangeAgreesIff(fd: Fd, low: int, high: int)
    requires 0 <= low <= high && fd.flags == 0 && fd.fileSize == 0
    ensures var r := RangeSet(fd, low, high);
            && (r.GetFileSize() == high - low + 1 <==> !(low == 0 && high == 0))
            && (r.IsPartial() <==> !(low == 0 && high == 0))
            && r.flags == (if low == 0 && high == 0 then 0 else 2)
            && (r.IsPartial() <==> !r.WholeFile())
  {
    assert (0 as bv32 | PARTIAL_REQ) & PARTIAL_REQ != 0;
  }

  lemma FlagAdded(flags: bv32)
    ensures (flags | 2) & 2 != 0
  {
  }

  /** For any two bounds and any object: the flag with value 2 is added unless both are
      zero, and never taken away; the size is that of the range unless both are zero. */
  lemma RangeOnAnyObject(fd: Fd, low: int, high: int)
    ensures var r := RangeSet(fd, low, high);
            && r.flags == (if low == 0 && high == 0 then fd.flags else fd.flags | 2)
            && (r.IsPartial() <==> fd.IsPartial() || low != 0 || high != 0)
            && r.GetFileSize() == (if low == 0 && high == 0 then fd.fileSize else high - low + 1)
            && r.low == low && r.high == high && r.bytes == fd.bytes && r.fileSize == fd.fileSize
  {
    FlagAdded(fd.flags);
  }

  class HttpFd {
    var sockfd: int
    var connectorThread: Option<Worker>
    var downloaderThread: Option<Worker>
    var bytesDownloaded: nat
    var fileSize: int
    var lowByte: int
    var highByte: int
    var flags: bv32
    const serverName: string
    const file: OutputFile
    ghost var ledger: Ledger

    ghost function Model(): Fd
      reads this
    {
      Fd(sockfd, connectorThread, downloaderThread, bytesDownloaded, fileSize, lowByte, highByte, flags,
         serverName, ledger)
    }

    constructor (serverName: string, file: OutputFile)
      ensures Model() == Fd(-1, None, None, 0, 0, 0, 0, 0, serverName, Ledger(0, 0, 0, 0, 0, 0, 0))
      ensures this.file == file
    {
      this.sockfd := -1;
      this.bytesDownloaded := 0;
      this.fileSize := 0;
      this.lowByte := 0;
      this.highByte := 0;
      this.flags := 0;
      this.serverName := serverName;
      this.connectorThread := None;
      this.downloaderThread := None;
      this.file := file;
      this.ledger := Ledger(0, 0, 0, 0, 0, 0, 0);
    }

    method SetByteRange(low: int, high: int)
      modifies this
      ensures Model() == RangeSet(old(Model()), low, high)
    {
      lowByte := low;
      highByte := high;
      if low != 0 || high != 0 {
        flags := flags | PARTIAL_REQ;
      }
    }

    method GetFileSize() returns (n: int)
      ensures n == Model().GetFileSize()
    {
      n := if lowByte == 0 && highByte == 0 then fileSize else highByte - lowByte + 1;
    }

    method CloseSocket()
      modifies this
      ensures Model() == CloseSock(old(Model()))
    {
      ledger := ledger.(closes := ledger.closes + 1);
      sockfd := -1;
    }

    method CancelConnector()
      modifies this
      ensures Model() == JoinConnector(old(Model()))
    {
      ledger := ledger.(joins := ledger.joins + 1);
      connectorThread := None;
    }

    method CancelDownloader()
      modifies this
      ensures Model() == JoinDownloader(old(Model()))
    {
      ledger := ledger.(joins := ledger.joins + 1);
      downloaderThread := None;
    }

    method Pause()
      modifies this
      ensures Model() == Release(old(Model()))
    {
      if sockfd != -1 {
        CloseSocket();
      }
      if connectorThread.Some? {
        CancelConnector();
      }
      if downloaderThread.Some? {
        CancelDownloader();
      }
    }

    method CleanupDnloadResources()
      modifies this, file
      ensures Model() == Release(old(Model()))
      ensures file.content == CleanupDisk(old(Model()), old(file.content))
    {
      if sockfd != -1 {
        CloseSocket();
      }
      if connectorThread.Some? {
        CancelConnector();
      }
      if downloaderThread.Some? {
        CancelDownloader();
      }
      if flags & PARTIAL_REQ == 0 {
        file.Remove();
      }
    }

    /** `ok` says that the four asserts hold. */
    method HeadConnectServer() returns (ok: bool)
      modifies this
      ensures ok <==> old(sockfd) == -1 && old(connectorThread) == None && old(downloaderThread) == None
                      && |serverName| > 0
      ensures ok <==> ConnectServer(old(Model())).Some?
      ensures Model() == if ok then ConnectServer(old(Model())).value else old(Model())
    {
      ok := sockfd == -1 && connectorThread == None && downloaderThread == None && |serverName| > 0;
      if ok {
        connectorThread := Some(CallSocket);
        ledger := ledger.(spawns := ledger.spawns + 1, connectorNo := ledger.spawns + 1);
      }
    }

    method FileDownloadConnectServer() returns (ok: bool)
      modifies this
      ensures ok <==> ConnectServer(old(Model())).Some?
      ensures Model() == if ok then ConnectServer(old(Model())).value else old(Model())
    {
      ok := HeadConnectServer();
    }

    method HeadSendGetRequest() returns (ok: bool)
      modifies this
      ensures ok <==> old(sockfd) != -1 && old(connectorThread) == None && old(downloaderThread) == None
      ensures ok <==> SpawnDownloader(old(Model()), HeadWrite).Some?
      ensures Model() == if ok then SpawnDownloader(old(Model()), HeadWrite).value else old(Model())
    {
      ok := sockfd != -1 && connectorThread == None && downloaderThread == None;
      if ok {
        downloaderThread := Some(HeadWrite);
        ledger := ledger.(spawns := ledger.spawns + 1, downloaderNo := ledger.spawns + 1);
      }
    }

    method FileDownload() returns (ok: bool)
      modifies this
      ensures ok <==> old(sockfd) != -1 && old(connectorThread) == None && old(downloaderThread) == None
      ensures ok <==> SpawnDownloader(old(Model()), BodySend).Some?
      ensures Model() == if ok then SpawnDownloader(old(Model()), BodySend).value else old(Model())
    {
      ok := sockfd != -1 && connectorThread == None && downloaderThread == None;
      if ok {
        downloaderThread := Some(BodySend);
        ledger := ledger.(spawns := ledger.spawns + 1, downloaderNo := ledger.spawns + 1);
      }
    }

    // ---------- thread bodies, run alone ----------

    /** The body of server_head_connect_fn: `socket` and `resolved` are the answers
        of socket() and gethostbyname(), `answers` those of connect(). */
    method ServerHeadConnect(socket: Option<nat>, resolved: bool, answers: nat -> bool)
      returns (e: Event, attempts: nat)
      modifies this
      ensures Model() == if socket.Some? then OpenSock(old(Model()), socket.value) else old(Model()).(sock := -1)
      ensures e == ErrorRaised <==> socket.None? || !resolved
      ensures e == ConnectSuccess <==>
              socket.Some? && resolved && exists i: nat :: i < 5 && answers(i)
      ensures e == ConnectFailed <==>
              socket.Some? && resolved && forall i: nat :: i < 5 ==> !answers(i)
      ensures attempts <= 5 && (e == ConnectFailed ==> attempts == 5)
      ensures e == ConnectSuccess ==> attempts > 0 && answers(attempts - 1)
      ensures e == ConnectSuccess ==> forall i: nat :: i < attempts - 1 ==> !answers(i)
    {
      attempts := 0;
      if socket.None? {
        sockfd := -1;
        return ErrorRaised, attempts;
      }
      sockfd := socket.value;
      ledger := ledger.(opens := ledger.opens + 1);
      if !resolved {
        return ErrorRaised, attempts;
      }
      AttemptsIff(answers, 0, HEAD_CONNECT_TRIES);
      var tries: nat := HEAD_CONNECT_TRIES;
      var connected := false;
      while tries > 0 && !connected
        invariant attempts + tries == HEAD_CONNECT_TRIES + if connected then 1 else 0
        invariant connected ==> tries > 0 && Attempts(answers, 0, HEAD_CONNECT_TRIES) == (ConnectSuccess, attempts)
        invariant !connected ==> Attempts(answers, 0, HEAD_CONNECT_TRIES) == Attempts(answers, attempts, tries)
        decreases tries, !connected
      {
        connected := answers(attempts);
        attempts := attempts + 1;
        if !connected {
          tries := tries - 1;
        }
      }
      e := if tries == 0 then ConnectFailed else ConnectSuccess;
    }

    /** The body of http_send_head_request: `sent` is the answer of write(), `reply`
        that of read(), with whether it is a 200 and what length it carries. */
    method HttpSendHeadRequest(sent: bool, reply: Option<(bool, Length)>) returns (e: Event)
      modifies `fileSize, `ledger
      ensures e == LostConnection <==> !sent || reply.None?
      ensures e == ErrorRaised <==> sent && reply.Some? && (!reply.value.0 || reply.value.1.Absent?)
      ensures e == Finished || e == ErrorRaised || e == LostConnection
      ensures Model() == if e == Finished && reply.value.1.Number?
                         then old(Model()).(fileSize := reply.value.1.n,
                                            ledger := old(Model()).ledger.(announced := reply.value.1.n))
                         else old(Model())
    {
      if !sent || reply.None? {
        return LostConnection;
      }
      var (ok, length) := reply.value;
      if !ok || length.Absent? {
        return ErrorRaised;
      }
      if length.Number? {
        fileSize := length.n;
        ledger := ledger.(announced := length.n);
      }
      e := Finished;
    }

    /** The body of http_file_download_thread_fn: `sent` and `openable` are the
        answers of write() and fopen(), `first` and `rs` those of read(). */
    method HttpFileDownload(sent: bool, openable: bool, first: First, rs: seq<Read>) returns (e: Event)
      modifies `bytesDownloaded, file
      ensures var r := BodyThread(old(Model()), old(file.content), sent, openable, first, rs);
              e == r.event && file.content == r.disk && Model() == old(Model()).(bytes := r.bytes)
    {
      var expected := GetFileSize();
      var partial := flags & PARTIAL_REQ != 0;
      if !sent {
        return LostConnection;
      }
      if !openable || (partial && file.content.None?) {
        return ErrorRaised;
      }
      if !partial {
        file.Create(0);
      }
      var fpos := Seek(0, lowByte);
      if bytesDownloaded == 0 {
        if first.FirstFailed? {
          return LostConnection;
        }
        if !first.headerEnd || first.badRequest || (partial && !first.partialContent) {
          return ErrorRaised;
        }
        file.Write(fpos, first.body);
        fpos := fpos + |first.body|;
        bytesDownloaded := |first.body|;
      }
      fpos := Seek(fpos, lowByte + bytesDownloaded);
      e := ReadLoop(expected, fpos, rs);
    }

    /** The read loop and the checks behind it. */
    method ReadLoop(expected: int, start: nat, rs: seq<Read>) returns (e: Event)
      modifies `bytesDownloaded, file
      ensures Received(bytesDownloaded, file.content, e)
              == Loop(old(bytesDownloaded), start, old(file.content), expected, rs)
    {
      var fpos: nat := start;
      var i := 0;
      var n := ReadResult(rs, i);
      while n > 0
        invariant 0 <= i <= |rs| && n == ReadResult(rs, i)
        invariant Loop(bytesDownloaded, fpos, file.content, expected, rs[i..])
                  == Loop(old(bytesDownloaded), start, old(file.content), expected, rs)
        decreases |rs| - i
      {
        file.Write(fpos, rs[i].bytes);
        fpos := fpos + n;
        bytesDownloaded := bytesDownloaded + n;
        if bytesDownloaded == expected {
          break;
        }
        i := i + 1;
        n := ReadResult(rs, i);
      }
      if n < 0 {
        return ErrorRaised;
      }
      if bytesDownloaded != expected {
        return ErrorRaised;
      }
      e := Finished;
    }
  }

  /** The result of the i-th read(): its length, 0 at end of stream, -1 on error. */
  function ReadResult(rs: seq<Read>, i: nat): int {
    if i >= |rs| then 0 else if rs[i].Failed? then -1 else |rs[i].bytes|
  }
}
