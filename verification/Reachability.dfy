/**
 The theorems about FD_FINISHED are not empty. However a server cuts what it was asked
 for into reads of at most one buffer, every downloader, with a range or without, has a
 disciplined run that takes these reads one by one and ends in FD_FINISHED; and the
 parallel download has a fair run in which every chunk finishes.
 */
module Reachability {
  import opened Wrappers
  import opened Fsm
  import opened Downloaders
  import opened Transfer
  import opened Threads
  import opened Servers
  import opened Paths

  predicate RealisticRun(w: World, ls: seq<Label>, remote: seq<byte>)
    decreases ls
  {
    ls == [] || (!ls[0].Inject? && Realistic(w.d, ls[0], remote)
                 && RealisticRun(Step(false, w, ls[0]), ls[1..], remote))
  }

  lemma RealOne(w: World, l: Label, ls: seq<Label>, remote: seq<byte>)
    requires !l.Inject? && Realistic(w.d, l, remote) && RealisticRun(Step(false, w, l), ls, remote)
    ensures RealisticRun(w, [l] + ls, remote)
  {
    assert ([l] + ls)[1..] == ls;
  }

  lemma {:induction false} RealConcat(w: World, a: seq<Label>, b: seq<Label>, remote: seq<byte>)
    requires RealisticRun(w, a, remote) && RealisticRun(Run(false, w, a), b, remote)
    ensures RealisticRun(w, a + b, remote)
    decreases a
  {
    if a == [] {
      assert a + b == b;
    } else {
      assert (a + b)[1..] == a[1..] + b;
      RealConcat(Step(false, w, a[0]), a[1..], b, remote);
    }
  }

  /** Only the threads that read can be lied to. */
  predicate Silent(l: Label) {
    l.Turn? || l.ConnectorStep? || (l.DownloaderStep? && !l.o.HeadReply? && !l.o.FirstReply? && !l.o.Bytes?)
  }

  lemma {:induction false} SilentIsReal(w: World, ls: seq<Label>, remote: seq<byte>)
    requires forall l | l in ls :: Silent(l)
    ensures RealisticRun(w, ls, remote)
    decreases ls
  {
    if ls != [] {
      assert ls[0] in ls;
      SilentIsReal(Step(false, w, ls[0]), ls[1..], remote);
    }
  }

  // ---------- the HEAD phase ----------

  function HeadLabels(remote: seq<byte>): seq<Label> {
    [DownloaderStep(WriteOk), DownloaderStep(HeadReply(true, Number(|remote|))), DownloaderStep(Proceed)]
  }

  lemma WritesHead(w: World, fd: Fd)
    requires At(w.d, HeadGetResponseAwait, fd.(downloader := Some(HeadWrite)), [])
    ensures var w' := Step(false, w, DownloaderStep(WriteOk));
            w'.disk == w.disk && At(w'.d, HeadGetResponseAwait, fd.(downloader := Some(HeadRead)), [])
  {
    DownloaderMoves(false, w, HeadWrite, WriteOk);
  }

  lemma ReadsHead(w: World, fd: Fd, n: nat)
    requires At(w.d, HeadGetResponseAwait, fd.(downloader := Some(HeadRead)), [])
    ensures var w' := Step(false, w, DownloaderStep(HeadReply(true, Number(n))));
            w'.disk == w.disk
            && At(w'.d, HeadGetResponseAwait,
                  fd.(fileSize := n, downloader := Some(Firing(HeadRole, Finished))), [])
  {
    DownloaderMoves(false, w, HeadRead, HeadReply(true, Number(n)));
  }

  lemma ReportsFinished(w: World, s: State, fd: Fd, role: Role)
    requires At(w.d, s, fd.(downloader := Some(Firing(role, Finished))), [])
    ensures var w' := Step(false, w, DownloaderStep(Proceed));
            w'.disk == w.disk && At(w'.d, s, fd.(downloader := Some(Done)), [Finished])
  {
    DownloaderMoves(false, w, Firing(role, Finished), Proceed);
    assert [] + [Finished] == [Finished];
  }

  lemma AsksForHead(w: World, fd: Fd, remote: seq<byte>)
    requires At(w.d, HeadGetResponseAwait, fd.(downloader := Some(HeadWrite)), [])
    ensures Leads(w, HeadLabels(remote), HeadGetResponseAwait,
                  fd.(fileSize := |remote|, downloader := Some(Done)), [Finished])
    ensures RealisticRun(w, HeadLabels(remote), remote)
  {
    WritesHead(w, fd);
    var w1 := Step(false, w, DownloaderStep(WriteOk));
    ReadsHead(w1, fd, |remote|);
    var w2 := Step(false, w1, DownloaderStep(HeadReply(true, Number(|remote|))));
    ReportsFinished(w2, HeadGetResponseAwait, fd.(fileSize := |remote|), HeadRole);
    RunsThree(w, DownloaderStep(WriteOk), DownloaderStep(HeadReply(true, Number(|remote|))), DownloaderStep(Proceed));
    HeadIsReal(w, w1, remote);
  }

  lemma HeadIsReal(w: World, w1: World, remote: seq<byte>)
    requires w1 == Step(false, w, DownloaderStep(WriteOk)) && w1.d.fd.downloader == Some(HeadRead)
    ensures RealisticRun(w, HeadLabels(remote), remote)
  {
    var reply := DownloaderStep(HeadReply(true, Number(|remote|)));
    SilentIsReal(Step(false, w1, reply), [DownloaderStep(Proceed)], remote);
    RealOne(w1, reply, [DownloaderStep(Proceed)], remote);
    SilentWrite(w, [reply, DownloaderStep(Proceed)], remote);
    assert HeadLabels(remote) == [DownloaderStep(WriteOk)] + [reply, DownloaderStep(Proceed)];
    assert [reply] + [DownloaderStep(Proceed)] == [reply, DownloaderStep(Proceed)];
  }

  lemma SilentWrite(w: World, ls: seq<Label>, remote: seq<byte>)
    requires RealisticRun(Step(false, w, DownloaderStep(WriteOk)), ls, remote)
    ensures RealisticRun(w, [DownloaderStep(WriteOk)] + ls, remote)
  {
    RealOne(w, DownloaderStep(WriteOk), ls, remote);
  }

  /** FINISHED hands over to the body phase, keeping the size; an object without a
      range removes the file. */
  lemma TurnsOver(w: World, fd: Fd)
    requires fd.Clean() && |fd.serverName| > 0
    requires At(w.d, HeadGetResponseAwait, fd.(sock := 3, downloader := Some(Done)), [Finished])
    ensures var w' := Step(false, w, Turn);
            (fd.IsPartial() ==> w'.disk == w.disk)
            && At(w'.d, FdConnectInProgress, fd.(connector := Some(CallSocket)), [])
  {
  }

  // ---------- the body phase ----------

  /** The stream that is left brings the next bytes of what was asked for. */
  lemma PrefixIsSent(remote: seq<byte>, low: int, size: int, got: nat, data: seq<byte>, rest: seq<byte>)
    requires Sent(remote, low, size, got, data + rest)
    ensures Sent(remote, low, size, got, data) && Sent(remote, low, size, got + |data|, rest)
  {
    var s := data + rest;
    assert data == s[..|data|] && rest == s[|data|..];
  }

  lemma EndIsReal(w: World, x: int, fpos: nat, got: nat, o: Outcome, remote: seq<byte>)
    requires w.d.fd.downloader == Some(BodyRead(x, fpos, got)) && (o == Bytes([]) || o == ReadFail)
    requires Sent(remote, WantedLow(w.d.fd), WantedSize(w.d.fd, remote), got, [])
    ensures RealisticRun(w, [DownloaderStep(o)], remote)
  {
    RealOne(w, DownloaderStep(o), [], remote);
    assert [DownloaderStep(o)] + [] == [DownloaderStep(o)];
  }

  predicate LoopReal(w: World, x: int, rs: seq<Read>, remote: seq<byte>) {
    RealisticRun(w, Script(w.d.fd.bytes, x, rs), remote)
  }

  /** The next read is an honest one. */
  predicate NextReal(w: World, x: int, fpos: nat, got: nat, rs: seq<Read>, remote: seq<byte>) {
    && w.d.fault == NoFault && w.d.fd.downloader == Some(BodyRead(x, fpos, got))
    && rs != [] && rs[0].Data? && 0 < |rs[0].bytes| <= HTTP_READ_BUFFER_SIZE
    && Sent(remote, WantedLow(w.d.fd), WantedSize(w.d.fd, remote), got, rs[0].bytes)
  }

  lemma CompletingIsReal(w: World, x: int, fpos: nat, got: nat, rs: seq<Read>, remote: seq<byte>)
    requires NextReal(w, x, fpos, got, rs, remote) && w.d.fd.bytes + |rs[0].bytes| == x
    ensures LoopReal(w, x, rs, remote)
  {
    RoundIsReal(w, x, fpos, got, rs[0].bytes, [], remote);
  }

  /** One more round in front of a loop that is realistic. */
  lemma LongerIsReal(w: World, x: int, fpos: nat, got: nat, rs: seq<Read>, remote: seq<byte>)
    requires NextReal(w, x, fpos, got, rs, remote) && w.d.fd.bytes + |rs[0].bytes| != x
    requires LoopReal(Advanced(w, x, fpos, got, rs[0].bytes), x, rs[1..], remote)
    ensures LoopReal(w, x, rs, remote)
  {
    ScriptStep(w.d.fd.bytes, x, rs);
    RoundIsReal(w, x, fpos, got, rs[0].bytes, Script(w.d.fd.bytes + |rs[0].bytes|, x, rs[1..]), remote);
  }

  lemma {:induction false} LoopIsReal(w: World, x: int, fpos: nat, got: nat, rs: seq<Read>, remote: seq<byte>)
    requires w.d.fault == NoFault && w.d.fd.downloader == Some(BodyRead(x, fpos, got))
    requires Fits(rs, HTTP_READ_BUFFER_SIZE)
    requires Sent(remote, WantedLow(w.d.fd), WantedSize(w.d.fd, remote), got, Stream(rs))
    ensures LoopReal(w, x, rs, remote)
    decreases rs
  {
    if rs == [] || rs[0] == Data([]) || rs[0].Failed? {
      EndIsReal(w, x, fpos, got, if rs != [] && rs[0].Failed? then ReadFail else Bytes([]), remote);
    } else {
      var data := rs[0].bytes;
      PrefixIsSent(remote, WantedLow(w.d.fd), WantedSize(w.d.fd, remote), got, data, Stream(rs[1..]));
      if w.d.fd.bytes + |data| == x {
        CompletingIsReal(w, x, fpos, got, rs, remote);
      } else {
        AdvancedWants(w, x, fpos, got, data, remote);
        LoopIsReal(Advanced(w, x, fpos, got, data), x, fpos + |data|, got + |data|, rs[1..], remote);
        LongerIsReal(w, x, fpos, got, rs, remote);
      }
    }
  }

  lemma AdvancedWants(w: World, x: int, fpos: nat, got: nat, data: seq<byte>, remote: seq<byte>)
    ensures var fd := Advanced(w, x, fpos, got, data).d.fd;
            WantedLow(fd) == WantedLow(w.d.fd) && WantedSize(fd, remote) == WantedSize(w.d.fd, remote)
  {
  }

  lemma RoundIsReal(w: World, x: int, fpos: nat, got: nat, data: seq<byte>, rest: seq<Label>, remote: seq<byte>)
    requires w.d.fault == NoFault && w.d.fd.downloader == Some(BodyRead(x, fpos, got))
    requires 0 < |data| <= HTTP_READ_BUFFER_SIZE
    requires Sent(remote, WantedLow(w.d.fd), WantedSize(w.d.fd, remote), got, data)
    requires RealisticRun(Advanced(w, x, fpos, got, data), rest, remote)
    ensures RealisticRun(w, [DownloaderStep(Bytes(data)), DownloaderStep(Proceed),
                             DownloaderStep(Proceed)] + rest, remote)
  {
    OneRound(w, x, fpos, got, data);
    ProceedsTwice(Step(false, w, DownloaderStep(Bytes(data))), rest, remote);
    RealOne(w, DownloaderStep(Bytes(data)), [DownloaderStep(Proceed), DownloaderStep(Proceed)] + rest, remote);
    assert [DownloaderStep(Bytes(data))] + ([DownloaderStep(Proceed), DownloaderStep(Proceed)] + rest)
           == [DownloaderStep(Bytes(data)), DownloaderStep(Proceed), DownloaderStep(Proceed)] + rest;
  }

  lemma ProceedsTwice(w: World, rest: seq<Label>, remote: seq<byte>)
    requires RealisticRun(Step(false, Step(false, w, DownloaderStep(Proceed)), DownloaderStep(Proceed)), rest, remote)
    ensures RealisticRun(w, [DownloaderStep(Proceed), DownloaderStep(Proceed)] + rest, remote)
  {
    var p := DownloaderStep(Proceed);
    RealOne(Step(false, w, p), p, rest, remote);
    RealOne(w, p, [p] + rest, remote);
    assert [p] + ([p] + rest) == [p, p] + rest;
  }

  /** The object asks for something the remote file has, and can open the file. */
  predicate Wants(fd: Fd, disk: Disk, remote: seq<byte>) {
    && fd.bytes == 0
    && (if fd.WholeFile() then !fd.IsPartial() && fd.fileSize == |remote|
        else fd.IsPartial() && disk.Some? && 0 <= fd.low <= fd.high < |remote|)
  }

  function Wanted(fd: Fd, remote: seq<byte>): seq<byte>
    requires fd.WholeFile() || 0 <= fd.low <= fd.high < |remote|
  {
    if fd.WholeFile() then remote else remote[fd.low..fd.high + 1]
  }

  /** What is wanted, cut into a first read behind the header and further reads. */
  predicate Serves(fd: Fd, remote: seq<byte>, first: seq<byte>, rs: seq<Read>)
    requires fd.WholeFile() || 0 <= fd.low <= fd.high < |remote|
  {
    && first + Stream(rs) == Wanted(fd, remote) && !Broken(rs)
    && |first| < 4096 && Fits(rs, 4096)
  }

  /** The reply that was asked for: 206 with a range, 200 without. */
  function Accepted(fd: Fd, first: seq<byte>): First {
    FirstData(true, false, fd.IsPartial(), first)
  }

  /** The file once everything wanted is there. */
  function Fetched(fd: Fd, disk: Disk, remote: seq<byte>): Disk
    requires fd.WholeFile() || 0 <= fd.low <= fd.high < |remote|
  {
    if fd.WholeFile() then Some(remote) else Put(disk, fd.low, Wanted(fd, remote))
  }

  /** The thread body on such an answer. */
  lemma ThreadFetches(fd: Fd, disk: Disk, remote: seq<byte>, first: seq<byte>, rs: seq<Read>)
    requires Wants(fd, disk, remote) && Serves(fd, remote, first, rs)
    ensures BodyThread(fd, disk, true, true, Accepted(fd, first), rs)
            == Received(|Wanted(fd, remote)|, Fetched(fd, disk, remote), Finished)
    ensures |Wanted(fd, remote)| == fd.GetFileSize()
  {
    if fd.WholeFile() {
      BodyOnStream(0, Some([]), fd.GetFileSize(), first, rs);
      assert Overwrite([], 0, remote) == remote;
    } else {
      RangeThreadOnStream(fd, disk, Accepted(fd, first), rs);
    }
  }

  lemma ScriptIsReal(w: World, remote: seq<byte>, first: seq<byte>, rs: seq<Read>)
    requires w.d.fault == NoFault && w.d.fd.downloader == Some(BodySend)
    requires Wants(w.d.fd, w.disk, remote) && Serves(w.d.fd, remote, first, rs)
    ensures RealisticRun(w, BodyScript(w.d.fd, w.disk, true, true, Accepted(w.d.fd, first), rs), remote)
  {
    var fd := w.d.fd;
    var x := fd.GetFileSize();
    var received := ReceiveScript(fd, Accepted(fd, first), rs);
    Sends(w, true);
    var w1 := Standing(w, BodyOpen(x, fd.IsPartial()));
    Opens(w1, x, true);
    var w2 := Standing(w1.(disk := if fd.IsPartial() then w.disk else Some([])),
                       BodyFirst(x, fd.IsPartial(), Seek(0, fd.low)));
    ReceiveIsReal(w2, x, remote, first, rs);
    assert Step(false, w1, DownloaderStep(OpenOk)) == w2;
    RealOne(w1, DownloaderStep(OpenOk), received, remote);
    RealOne(w, DownloaderStep(WriteOk), [DownloaderStep(OpenOk)] + received, remote);
  }

  lemma WantedIsSent(fd: Fd, remote: seq<byte>)
    requires fd.WholeFile() || 0 <= fd.low <= fd.high < |remote|
    ensures Sent(remote, WantedLow(fd), WantedSize(fd, remote), 0, Wanted(fd, remote))
  {
    assert remote[0..|remote|] == remote;
  }

  lemma FirstIsReal(w: World, x: int, fpos: nat, first: seq<byte>, rest: seq<Label>, remote: seq<byte>)
    requires w.d.fault == NoFault && w.d.fd.bytes == 0
    requires w.d.fd.downloader == Some(BodyFirst(x, w.d.fd.IsPartial(), fpos))
    requires |first| < HTTP_READ_BUFFER_SIZE
    requires Sent(remote, WantedLow(w.d.fd), WantedSize(w.d.fd, remote), 0, first)
    requires RealisticRun(FirstTaken(w, x, fpos, first), rest, remote)
    ensures RealisticRun(w, [DownloaderStep(FirstOutcome(Accepted(w.d.fd, first))), DownloaderStep(Proceed),
                             DownloaderStep(Proceed)] + rest, remote)
  {
    FirstAccepted(w, x, fpos, Accepted(w.d.fd, first));
    var l := DownloaderStep(FirstOutcome(Accepted(w.d.fd, first)));
    ProceedsTwice(Step(false, w, l), rest, remote);
    RealOne(w, l, [DownloaderStep(Proceed), DownloaderStep(Proceed)] + rest, remote);
    assert [l] + ([DownloaderStep(Proceed), DownloaderStep(Proceed)] + rest)
           == [l, DownloaderStep(Proceed), DownloaderStep(Proceed)] + rest;
  }

  lemma FirstTakenWants(w: World, x: int, fpos: nat, first: seq<byte>, remote: seq<byte>)
    ensures var fd := FirstTaken(w, x, fpos, first).d.fd;
            WantedLow(fd) == WantedLow(w.d.fd) && WantedSize(fd, remote) == WantedSize(w.d.fd, remote)
  {
  }

  lemma ReceiveIsReal(w: World, x: int, remote: seq<byte>, first: seq<byte>, rs: seq<Read>)
    requires w.d.fault == NoFault && w.d.fd.bytes == 0 && x == w.d.fd.GetFileSize()
    requires w.d.fd.downloader == Some(BodyFirst(x, w.d.fd.IsPartial(), Seek(0, w.d.fd.low)))
    requires w.d.fd.WholeFile() || 0 <= w.d.fd.low <= w.d.fd.high < |remote|
    requires Serves(w.d.fd, remote, first, rs)
    ensures RealisticRun(w, [DownloaderStep(FirstOutcome(Accepted(w.d.fd, first))), DownloaderStep(Proceed),
                             DownloaderStep(Proceed)] + Script(|first|, x, rs), remote)
  {
    var fpos := Seek(0, w.d.fd.low);
    WantedIsSent(w.d.fd, remote);
    PrefixIsSent(remote, WantedLow(w.d.fd), WantedSize(w.d.fd, remote), 0, first, Stream(rs));
    FirstTakenWants(w, x, fpos, first, remote);
    LoopIsReal(FirstTaken(w, x, fpos, first), x, Seek(fpos + |first|, w.d.fd.low + |first|), |first|, rs, remote);
    FirstIsReal(w, x, fpos, first, Script(|first|, x, rs), remote);
  }

  // ---------- from START to FD_FINISHED ----------

  lemma ConnectIsReal(w: World, remote: seq<byte>)
    ensures RealisticRun(w, CONNECT + REPORT, remote) && RealisticRun(w, [Turn], remote)
  {
    SilentIsReal(w, CONNECT + REPORT, remote);
    SilentIsReal(w, [Turn], remote);
  }

  function AskLabels(remote: seq<byte>): seq<Label> {
    (CONNECT + REPORT) + (HeadLabels(remote) + [Turn])
  }

  /** From a fresh connector to the connector of the body phase, with the size known. */
  lemma LearnsSize(w: World, fd: Fd, remote: seq<byte>)
    requires fd.Clean() && |fd.serverName| > 0
    requires At(w.d, HeadConnectInProgress, fd.(connector := Some(CallSocket)), [])
    ensures RealisticRun(w, AskLabels(remote), remote)
    ensures var w' := Run(false, w, AskLabels(remote));
            (fd.IsPartial() ==> w'.disk == w.disk)
            && At(w'.d, FdConnectInProgress, fd.(fileSize := |remote|, connector := Some(CallSocket)), [])
  {
    var w1 := Run(false, w, CONNECT + REPORT);
    ConnectsAndReports(w, HeadConnectInProgress, fd);
    AsksForHead(w1, fd.(sock := 3), remote);
    var w2 := Run(false, w1, HeadLabels(remote));
    TurnsOver(w2, fd.(fileSize := |remote|));
    RunOne(false, w2, Turn, []);
    ConnectIsReal(w, remote);
    ConnectIsReal(w2, remote);
    RunConcat(false, w1, HeadLabels(remote), [Turn]);
    RunConcat(false, w, CONNECT + REPORT, HeadLabels(remote) + [Turn]);
    RealConcat(w1, HeadLabels(remote), [Turn], remote);
    RealConcat(w, CONNECT + REPORT, HeadLabels(remote) + [Turn], remote);
  }

  const FINISH: seq<Label> := [DownloaderStep(Proceed), Turn]

  predicate Finishes(w: World, ls: seq<Label>, n: int, disk: Disk) {
    var w' := Run(false, w, ls);
    w'.d.state == FdFinished && w'.d.fault == NoFault && w'.d.fd.bytes == n && w'.disk == disk
  }

  lemma TurnsToFinished(w: World, fd: Fd)
    requires fd.sock == 3 && At(w.d, FdInProgress, fd.(downloader := Some(Done)), [Finished])
    ensures Finishes(w, [Turn], fd.bytes, w.disk)
  {
    RunOne(false, w, Turn, []);
  }

  lemma ReportsAndFinishes(w: World, fd: Fd)
    requires fd.sock == 3 && At(w.d, FdInProgress, fd.(downloader := Some(Firing(BodyRole, Finished))), [])
    ensures Finishes(w, FINISH, fd.bytes, w.disk)
  {
    ReportsFinished(w, FdInProgress, fd, BodyRole);
    TurnsToFinished(Step(false, w, DownloaderStep(Proceed)), fd);
    RunOne(false, w, DownloaderStep(Proceed), [Turn]);
  }

  lemma ThreadRuns(w: World, remote: seq<byte>, first: seq<byte>, rs: seq<Read>)
    requires w.d.fault == NoFault && w.d.fd.downloader == Some(BodySend)
    requires Wants(w.d.fd, w.disk, remote) && Serves(w.d.fd, remote, first, rs)
    ensures var fd := w.d.fd;
            Run(false, w, BodyScript(fd, w.disk, true, true, Accepted(fd, first), rs))
            == Ended(w, Received(fd.GetFileSize(), Fetched(fd, w.disk, remote), Finished))
  {
    ThreadFetches(w.d.fd, w.disk, remote, first, rs);
    StepsRunBodyThread(w, true, true, Accepted(w.d.fd, first), rs);
  }

  /** What is wanted does not depend on the ledger or the threads. */
  lemma WantsAlike(fd: Fd, fd': Fd, disk: Disk, remote: seq<byte>, first: seq<byte>, rs: seq<Read>)
    requires Wants(fd, disk, remote) && Serves(fd, remote, first, rs)
    requires fd'.(ledger := fd.ledger, downloader := fd.downloader) == fd
    ensures Wants(fd', disk, remote) && Serves(fd', remote, first, rs)
    ensures fd'.GetFileSize() == fd.GetFileSize() && Fetched(fd', disk, remote) == Fetched(fd, disk, remote)
  {
  }

  /** The thread of the body phase fetches what is wanted. */
  lemma FetchesBody(w: World, fd: Fd, remote: seq<byte>, first: seq<byte>, rs: seq<Read>) returns (ls: seq<Label>)
    requires fd.sock == 3 && fd.downloader.None? && Wants(fd, w.disk, remote) && Serves(fd, remote, first, rs)
    requires At(w.d, FdInProgress, fd.(downloader := Some(BodySend)), [])
    ensures RealisticRun(w, ls, remote)
    ensures Finishes(w, ls, fd.GetFileSize(), Fetched(fd, w.disk, remote))
  {
    var script := BodyScript(w.d.fd, w.disk, true, true, Accepted(w.d.fd, first), rs);
    ls := script + FINISH;
    WantsAlike(fd, w.d.fd, w.disk, remote, first, rs);
    ThreadRuns(w, remote, first, rs);
    ScriptIsReal(w, remote, first, rs);
    var w1 := Run(false, w, script);
    ReportsAndFinishes(w1, fd.(bytes := w1.d.fd.bytes));
    SilentIsReal(w1, FINISH, remote);
    RunConcat(false, w, script, FINISH);
    RealConcat(w, script, FINISH, remote);
  }

  lemma Fetches(w: World, fd: Fd, remote: seq<byte>, first: seq<byte>, rs: seq<Read>) returns (ls: seq<Label>)
    requires fd.Clean() && Wants(fd, w.disk, remote) && Serves(fd, remote, first, rs)
    requires At(w.d, FdConnectInProgress, fd.(connector := Some(CallSocket)), [])
    ensures RealisticRun(w, ls, remote)
    ensures Finishes(w, ls, fd.GetFileSize(), Fetched(fd, w.disk, remote))
  {
    ConnectsAndReports(w, FdConnectInProgress, fd);
    var w1 := Run(false, w, CONNECT + REPORT);
    var rest := FetchesBody(w1, fd.(sock := 3), remote, first, rs);
    ls := (CONNECT + REPORT) + rest;
    ConnectIsReal(w, remote);
    RunConcat(false, w, CONNECT + REPORT, rest);
    RealConcat(w, CONNECT + REPORT, rest, remote);
  }

  /** A fresh object that asks for something the remote file has. */
  predicate Eligible(fd: Fd, disk: Disk, remote: seq<byte>) {
    && fd.Clean() && |fd.serverName| > 0 && fd.bytes == 0
    && (if fd.WholeFile() then !fd.IsPartial()
        else fd.IsPartial() && disk.Some? && 0 <= fd.low <= fd.high < |remote|)
  }

  lemma Downloads(w: World, fd: Fd, remote: seq<byte>, first: seq<byte>, rs: seq<Read>) returns (ls: seq<Label>)
    requires Eligible(fd, w.disk, remote) && Serves(fd, remote, first, rs)
    requires At(w.d, HeadConnectInProgress, fd.(connector := Some(CallSocket)), [])
    ensures RealisticRun(w, ls, remote)
    ensures Finishes(w, ls, |Wanted(fd, remote)|, Fetched(fd, w.disk, remote))
  {
    LearnsSize(w, fd, remote);
    var w1 := Run(false, w, AskLabels(remote));
    var known := fd.(fileSize := |remote|);
    var rest := Fetches(w1, known, remote, first, rs);
    ls := AskLabels(remote) + rest;
    RunConcat(false, w, AskLabels(remote), rest);
    RealConcat(w, AskLabels(remote), rest, remote);
  }

  /** From START in the queue. */
  lemma DownloadsFromStart(w: World, fd: Fd, remote: seq<byte>, first: seq<byte>, rs: seq<Read>)
    returns (ls: seq<Label>)
    requires Eligible(fd, w.disk, remote) && Serves(fd, remote, first, rs)
    requires At(w.d, Init, fd, [Start])
    ensures RealisticRun(w, ls, remote)
    ensures Finishes(w, ls, |Wanted(fd, remote)|, Fetched(fd, w.disk, remote))
  {
    TakesStart(w, fd);
    var w1 := Step(false, w, Turn);
    var rest := Downloads(w1, fd, remote, first, rs);
    ls := [Turn] + rest;
    RunOne(false, w, Turn, rest);
    RealOne(w, Turn, rest, remote);
  }

  lemma {:induction false} RealIsDisciplined(w: World, ls: seq<Label>, remote: seq<byte>)
    requires RealisticRun(w, ls, remote)
    ensures Disciplined(w, ls)
    decreases ls
  {
    if ls != [] {
      RealIsDisciplined(Step(false, w, ls[0]), ls[1..], remote);
    }
  }

  /** From a fresh object, by START and realistic answers, for every way in which the
      server's bytes are cut into reads: to everything wanted on disk. Without a range
      that is the whole remote file. */
  lemma FinishesHoweverCut(w: World, remote: seq<byte>, first: seq<byte>, rs: seq<Read>) returns (ls: seq<Label>)
    requires Initial(w.d) && Eligible(w.d.fd, w.disk, remote) && Serves(w.d.fd, remote, first, rs)
    ensures RealisticRun(Step(false, w, Inject(Start)), ls, remote)
    ensures Disciplined(w, [Inject(Start)] + ls)
    ensures Finishes(w, [Inject(Start)] + ls, |Wanted(w.d.fd, remote)|, Fetched(w.d.fd, w.disk, remote))
  {
    var w1 := Step(false, w, Inject(Start));
    StartsUp(w);
    ls := DownloadsFromStart(w1, w.d.fd, remote, first, rs);
    RunOne(false, w, Inject(Start), ls);
    RealIsDisciplined(w1, ls, remote);
    assert ([Inject(Start)] + ls)[1..] == ls;
  }

  /** There is such a run for every fresh object: the header alone in the first read,
      then full buffers. */
  lemma CanFinish(w: World, remote: seq<byte>) returns (ls: seq<Label>)
    requires Initial(w.d) && Eligible(w.d.fd, w.disk, remote)
    ensures RealisticRun(Step(false, w, Inject(Start)), ls, remote)
    ensures Disciplined(w, [Inject(Start)] + ls)
    ensures Finishes(w, [Inject(Start)] + ls, |Wanted(w.d.fd, remote)|, Fetched(w.d.fd, w.disk, remote))
  {
    var rs := Cut(Wanted(w.d.fd, remote), HTTP_READ_BUFFER_SIZE);
    CutServes(w.d.fd, remote);
    ls := FinishesHoweverCut(w, remote, [], rs);
  }

  lemma CutServes(fd: Fd, remote: seq<byte>)
    requires fd.WholeFile() || 0 <= fd.low <= fd.high < |remote|
    ensures Serves(fd, remote, [], Cut(Wanted(fd, remote), HTTP_READ_BUFFER_SIZE))
  {
    CutAlone(Wanted(fd, remote), HTTP_READ_BUFFER_SIZE);
    assert [] + Wanted(fd, remote) == Wanted(fd, remote);
  }
}
