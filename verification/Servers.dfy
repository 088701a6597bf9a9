/**
 What an honest server may answer: the next bytes of what was asked for, in pieces of
 any size, stopping or breaking anywhere.
 */
module Servers {
  import opened Downloaders

  /** `data` is what follows the first `got` bytes of the `size` bytes from `low` on. */
  predicate Sent(remote: seq<byte>, low: int, size: int, got: nat, data: seq<byte>) {
    && 0 <= low && got + |data| <= size && low + got + |data| <= |remote|
    && data == remote[low + got..low + got + |data|]
  }

  /** A 206 reply, and every read behind it, carries the next bytes of the
      requested range; how many at a time, and how it ends, is open. */
  predicate RangeHonest(d: Downloader, l: Label, remote: seq<byte>) {
    l.DownloaderStep? && d.fd.downloader.Some? ==>
      match d.fd.downloader.value
      case BodyFirst(_, _, _) =>
        l.o.FirstReply? && l.o.headerEnd && l.o.partialContent && !l.o.badRequest
        ==> Sent(remote, d.fd.low, d.fd.GetFileSize(), 0, l.o.body)
      case BodyRead(_, _, got) =>
        l.o.Bytes? ==> Sent(remote, d.fd.low, d.fd.GetFileSize(), got, l.o.data)
      case _ => true
  }

  /** Without a range: the server announces the true length and then sends the file. */
  predicate WholeHonest(d: Downloader, l: Label, remote: seq<byte>) {
    l.DownloaderStep? && d.fd.downloader.Some? ==>
      match d.fd.downloader.value
      case HeadRead => l.o.HeadReply? && l.o.ok && !l.o.length.Absent? ==> l.o.length == Number(|remote|)
      case BodyFirst(_, _, _) =>
        l.o.FirstReply? && l.o.headerEnd && !l.o.badRequest ==> Sent(remote, 0, |remote|, 0, l.o.body)
      case BodyRead(_, _, got) => l.o.Bytes? ==> Sent(remote, 0, |remote|, got, l.o.data)
      case _ => true
  }

  /** No read delivers more than the buffer, which in the first one also holds the header. */
  predicate Buffered(l: Label) {
    l.DownloaderStep? ==>
      match l.o
      case FirstReply(_, _, _, body) => |body| < 4096
      case Bytes(data) => |data| <= 4096
      case _ => true
  }

  /** The part of the remote file that the object asks for. */
  function WantedLow(fd: Fd): int {
    if fd.WholeFile() then 0 else fd.low
  }

  function WantedSize(fd: Fd, remote: seq<byte>): int {
    if fd.WholeFile() then |remote| else fd.high - fd.low + 1
  }

  /** What a real environment can do: HEAD is answered with the length in digits, GET
      with 206 if a range was asked for and with 200 if not, and every read brings the
      next bytes of what was asked for, at most one buffer of them. */
  predicate Realistic(d: Downloader, l: Label, remote: seq<byte>) {
    && Buffered(l)
    && (l.DownloaderStep? && d.fd.downloader.Some? ==>
          match d.fd.downloader.value
          case HeadRead => l.o.HeadReply? ==> l.o == HeadReply(true, Number(|remote|))
          case BodyFirst(_, _, _) =>
            l.o.FirstReply? && l.o.headerEnd && !l.o.badRequest
            ==> l.o.partialContent == d.fd.IsPartial()
                && Sent(remote, WantedLow(d.fd), WantedSize(d.fd, remote), 0, l.o.body)
          case BodyRead(_, _, got) =>
            l.o.Bytes? ==> Sent(remote, WantedLow(d.fd), WantedSize(d.fd, remote), got, l.o.data)
          case _ => true)
  }

  lemma RealisticIsHonest(d: Downloader, l: Label, remote: seq<byte>)
    requires Realistic(d, l, remote)
    ensures !d.fd.WholeFile() ==> RangeHonest(d, l, remote)
    ensures d.fd.WholeFile() ==> WholeHonest(d, l, remote)
  {
  }
}
