/**
 The parallel range download: n downloaders, each a full state machine with its own
 queue and threads, write to one shared file in any interleaving, with connection
 losses, reconnects, errors and cancellations, against a server that honours
 inclusive byte ranges (sections 14.1.2 and 15.3.7 of RFC 9110).
 */
module Parallel {
  import opened Wrappers
  import opened Fsm
  import opened Downloaders
  import opened Invariant
  import opened FreshStart
  import opened Servers
  import opened Transfer

  // ---------- what one downloader keeps ----------

  predicate Match(a: seq<byte>, b: seq<byte>, from: int, to: int) {
    forall p | 0 <= p < |a| && p < |b| && from <= p < to :: a[p] == b[p]
  }

  /** Where the body thread stands, and the bytes it holds but has not counted. */
  predicate RangeThread(fd: Fd, t: Worker, s: seq<byte>, remote: seq<byte>) {
    match t
    case BodyFirst(_, _, fpos) => fpos == fd.low
    case BodyRead(_, fpos, got) => fpos == fd.low + fd.bytes && got == fd.bytes
    case BodyPut(_, fpos, got, data, _) =>
      fpos == fd.low + fd.bytes && got == fd.bytes + |data|
      && Sent(remote, fd.low, fd.GetFileSize(), fd.bytes, data)
    case BodyCount(_, fpos, got, k, _) =>
      fpos == fd.low + fd.bytes + k && got == fd.bytes + k && got <= fd.GetFileSize()
      && Match(s, remote, fd.low, fd.low + got)
    case _ => true
  }

  /** The shared file keeps its length, and its first `bytes` bytes of this range
      are the remote ones. */
  predicate RangeContent(d: Downloader, disk: Disk, remote: seq<byte>) {
    var fd := d.fd;
    && 0 <= fd.low <= fd.high < |remote| && !fd.WholeFile() && fd.IsPartial()
    && disk.Some? && |disk.value| == |remote|
    && fd.bytes <= fd.GetFileSize()
    && Match(disk.value, remote, fd.low, fd.low + fd.bytes)
    && (d.state == FdInProgress && fd.downloader.Some?
        ==> RangeThread(fd, fd.downloader.value, disk.value, remote))
  }

  lemma WriteMatches(s: seq<byte>, pos: nat, data: seq<byte>, remote: seq<byte>, low: nat, bytes: nat)
    requires |s| == |remote| && pos == low + bytes && pos + |data| <= |remote|
    requires data == remote[pos..pos + |data|] && Match(s, remote, low, pos)
    ensures Match(Overwrite(s, pos, data), remote, low, pos + |data|)
  {
    OverwriteInside(s, pos, data);
  }

  lemma TurnKeepsRange(w: World, remote: seq<byte>)
    requires Shape(w.d) && RangeContent(w.d, w.disk, remote) && w.d.queue != []
    ensures var w' := Listen(false, w);
            w'.disk == w.disk && RangeContent(w'.d, w'.disk, remote)
  {
    match Table(w.d.state, w.d.queue[0]) {
      case NA =>
      case Go(a, next) =>
        var w1 := Entered(w, next);
        ActWrites(a, w1);
        ActKeepsTransfer(a, w1);
        ActKeepsSharedFile(a, w1);
        if next == FdInProgress {
          assert a == StartDownload;
        }
    }
  }

  /** With the partial flag, no action touches the file. */
  lemma ActKeepsSharedFile(a: Action, w: World)
    requires w.d.fd.IsPartial()
    ensures Act(a, w).disk == w.disk
  {
  }

  /** What a body step may do to the file and the counter. */
  predicate ContentAfter(fd: Fd, before: seq<byte>, w': World, t': Worker, remote: seq<byte>) {
    && w'.disk.Some? && |w'.disk.value| == |remote|
    && w'.d.fd.bytes <= fd.GetFileSize()
    && Match(w'.disk.value, remote, fd.low, fd.low + w'.d.fd.bytes)
    && RangeThread(w'.d.fd, t', w'.disk.value, remote)
    && (forall p | 0 <= p < |remote| && p < |before| && !(fd.low <= p <= fd.high) :: w'.disk.value[p] == before[p])
  }

  lemma WriteKeepsRange(w: World, t: Worker, remote: seq<byte>)
    requires w.d.state == FdInProgress && w.d.fd.downloader == Some(t) && t.BodyPut?
    requires RangeContent(w.d, w.disk, remote)
    ensures var (w', t') := RunWorker(w, t, Proceed); ContentAfter(w.d.fd, w.disk.value, w', t', remote)
  {
    OverwriteInside(w.disk.value, t.fpos, t.data);
    WriteMatches(w.disk.value, t.fpos, t.data, remote, w.d.fd.low, w.d.fd.bytes);
  }

  lemma OpenKeepsRange(w: World, t: Worker, o: Outcome, remote: seq<byte>)
    requires w.d.state == FdInProgress && w.d.fd.downloader == Some(t) && (t.BodySend? || t.BodyOpen? || t.Done?)
    requires BodyWorker(w.d.fd, t) && (BeforeCount(t) ==> w.d.fd.bytes == 0)
    requires RangeContent(w.d, w.disk, remote)
    ensures var (w', t') := RunWorker(w, t, o); ContentAfter(w.d.fd, w.disk.value, w', t', remote)
  {
  }

  lemma ReadKeepsRange(w: World, t: Worker, o: Outcome, remote: seq<byte>)
    requires w.d.state == FdInProgress && w.d.fd.downloader == Some(t) && (t.BodyFirst? || t.BodyRead?)
    requires BodyWorker(w.d.fd, t) && (BeforeCount(t) ==> w.d.fd.bytes == 0)
    requires RangeContent(w.d, w.disk, remote) && RangeHonest(w.d, DownloaderStep(o), remote)
    ensures var (w', t') := RunWorker(w, t, o); ContentAfter(w.d.fd, w.disk.value, w', t', remote)
  {
  }

  lemma CountKeepsRange(w: World, t: Worker, o: Outcome, remote: seq<byte>)
    requires w.d.state == FdInProgress && w.d.fd.downloader == Some(t) && t.BodyCount?
    requires BodyWorker(w.d.fd, t) && RangeContent(w.d, w.disk, remote)
    ensures var (w', t') := RunWorker(w, t, o); ContentAfter(w.d.fd, w.disk.value, w', t', remote)
  {
  }

  lemma ThreadKeepsRange(w: World, t: Worker, o: Outcome, remote: seq<byte>)
    requires w.d.state == FdInProgress && w.d.fd.downloader == Some(t) && !t.Firing?
    requires BodyWorker(w.d.fd, t) && (BeforeCount(t) ==> w.d.fd.bytes == 0)
    requires RangeContent(w.d, w.disk, remote) && RangeHonest(w.d, DownloaderStep(o), remote)
    ensures var (w', t') := RunWorker(w, t, o); ContentAfter(w.d.fd, w.disk.value, w', t', remote)
  {
    match t {
      case BodySend => OpenKeepsRange(w, t, o, remote);
      case BodyOpen(_, _) => OpenKeepsRange(w, t, o, remote);
      case BodyFirst(_, _, _) => ReadKeepsRange(w, t, o, remote);
      case BodyRead(_, _, _) => ReadKeepsRange(w, t, o, remote);
      case BodyPut(_, _, _, _, _) => if o == Proceed { WriteKeepsRange(w, t, remote); }
      case BodyCount(_, _, _, _, _) => CountKeepsRange(w, t, o, remote);
      case Done => OpenKeepsRange(w, t, o, remote);
    }
  }

  /** The other bytes of the file, which belong to the other chunks. */
  predicate SameOutside(a: Disk, b: Disk, low: int, high: int) {
    a.Some? && b.Some? && |a.value| == |b.value|
    && forall p | 0 <= p < |a.value| && !(low <= p <= high) :: b.value[p] == a.value[p]
  }

  lemma MovedKeepsRange(w: World, r: (World, Worker), remote: seq<byte>)
    requires RangeContent(w.d, w.disk, remote) && ContentAfter(w.d.fd, w.disk.value, r.0, r.1, remote)
    requires r.0.d.fd.low == w.d.fd.low && r.0.d.fd.high == w.d.fd.high && r.0.d.fd.flags == w.d.fd.flags
    ensures var w' := DownloaderAt(r);
            SameOutside(w.disk, w'.disk, w.d.fd.low, w.d.fd.high) && RangeContent(w'.d, w'.disk, remote)
  {
  }

  lemma BodyStepKeepsRange(w: World, o: Outcome, remote: seq<byte>)
    requires Shape(w.d) && Fresh(w.d) && RangeContent(w.d, w.disk, remote)
    requires RangeHonest(w.d, DownloaderStep(o), remote)
    requires w.d.state == FdInProgress && !w.d.fd.downloader.value.Firing?
    ensures var w' := Step(false, w, DownloaderStep(o));
            SameOutside(w.disk, w'.disk, w.d.fd.low, w.d.fd.high) && RangeContent(w'.d, w'.disk, remote)
  {
    var t := w.d.fd.downloader.value;
    DownloaderMoves(false, w, t, o);
    WorkerFrame(w, t, o);
    ThreadKeepsRange(w, t, o, remote);
    MovedKeepsRange(w, RunWorker(w, t, o), remote);
  }

  /** Whoever leaves file, counter and range alone, keeps the content, unless a body
      thread is moved. */
  lemma OthersKeepRange(d: Downloader, d': Downloader, disk: Disk, remote: seq<byte>)
    requires RangeContent(d, disk, remote)
    requires d'.fd.bytes == d.fd.bytes && d'.fd.low == d.fd.low && d'.fd.high == d.fd.high && d'.fd.flags == d.fd.flags
    requires d'.state == FdInProgress && d'.fd.downloader.Some? ==> !BodyPosition(d'.fd.downloader.value)
    ensures RangeContent(d', disk, remote)
  {
  }

  /** A head thread and a thread that only fires leave file and counter alone. */
  lemma IdleStepKeepsRange(w: World, o: Outcome, remote: seq<byte>)
    requires Shape(w.d) && RangeContent(w.d, w.disk, remote)
    requires w.d.state == FdInProgress ==> w.d.fd.downloader.value.Firing?
    ensures var w' := Step(false, w, DownloaderStep(o));
            w'.disk == w.disk && RangeContent(w'.d, w'.disk, remote)
  {
    if w.d.fd.downloader.Some? {
      var t := w.d.fd.downloader.value;
      DownloaderMoves(false, w, t, o);
      OthersKeepTransfer(w, t, o);
      FiringStaysOut(w, t, o);
      OthersKeepRange(w.d, DownloaderAt(RunWorker(w, t, o)).d, w.disk, remote);
    } else {
      DownloaderIdle(false, w, o);
    }
  }

  lemma FiringStaysOut(w: World, t: Worker, o: Outcome)
    requires !BodyPosition(t)
    ensures !BodyPosition(RunWorker(w, t, o).1)
  {
  }

  lemma ConnectorStepKeepsRange(w: World, o: Outcome, remote: seq<byte>)
    requires Shape(w.d) && RangeContent(w.d, w.disk, remote)
    ensures var w' := Step(false, w, ConnectorStep(o));
            w'.disk == w.disk && RangeContent(w'.d, w'.disk, remote)
  {
    if w.d.fd.connector.Some? {
      var t := w.d.fd.connector.value;
      ConnectorMoves(false, w, t, o);
      OthersKeepTransfer(w, t, o);
      OthersKeepRange(w.d, ConnectorAt(RunWorker(w, t, o)).d, w.disk, remote);
    } else {
      ConnectorIdle(false, w, o);
    }
  }

  lemma StepKeepsRange(w: World, l: Label, remote: seq<byte>)
    requires Shape(w.d) && Fresh(w.d) && RangeContent(w.d, w.disk, remote) && RangeHonest(w.d, l, remote)
    ensures var w' := Step(false, w, l);
            SameOutside(w.disk, w'.disk, w.d.fd.low, w.d.fd.high) && RangeContent(w'.d, w'.disk, remote)
  {
    match l {
      case Turn => if w.d.queue != [] { TurnKeepsRange(w, remote); }
      case ConnectorStep(o) => ConnectorStepKeepsRange(w, o, remote);
      case DownloaderStep(o) =>
        if w.d.state == FdInProgress && !w.d.fd.downloader.value.Firing? {
          BodyStepKeepsRange(w, o, remote);
        } else {
          IdleStepKeepsRange(w, o, remote);
        }
      case Inject(_) =>
    }
  }
}
