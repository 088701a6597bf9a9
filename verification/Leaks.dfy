/**
 A disciplined run that leaks: CANCEL while the answer to HEAD is awaited.
 */
module Leaks {
  import opened Wrappers
  import opened Fsm
  import opened Downloaders
  import opened Invariant
  import opened Paths

  /** Up to the HEAD request under way. */
  const ASKED: seq<Label> := START + (CONNECT + REPORT)
  const CANCELS: seq<Label> := [Inject(Cancel), Turn]

  lemma ReachesAwait(w: World)
    requires Initial(w.d)
    ensures Leads(w, ASKED, HeadGetResponseAwait, w.d.fd.(sock := 3, downloader := Some(HeadWrite)), [])
    ensures Disciplined(w, ASKED)
  {
    Starts(w);
    var w1 := Run(false, w, START);
    ConnectsAndReports(w1, HeadConnectInProgress, w.d.fd);
    LeadsOn(w, START, CONNECT + REPORT, HeadGetResponseAwait, w.d.fd.(sock := 3, downloader := Some(HeadWrite)), []);
    InternalIsDisciplined(w1, CONNECT + REPORT);
    DisciplinedConcat(w, START, CONNECT + REPORT);
  }

  lemma CancelQueued(w: World, fd: Fd)
    requires At(w.d, HeadGetResponseAwait, fd.(downloader := Some(HeadWrite)), [])
    ensures var d := Step(false, w, Inject(Cancel)).d;
            At(d, HeadGetResponseAwait, fd.(downloader := Some(HeadWrite)), [Cancel])
            && d.log.executed == w.d.log.executed
  {
    assert w.d.queue + [Cancel] == [Cancel];
  }

  lemma CancelTaken(w: World, fd: Fd)
    requires TallyOf(w.d.log.executed).state == HeadGetResponseAwait && fd.connector.None? && fd.sock != -1
    requires At(w.d, HeadGetResponseAwait, fd.(downloader := Some(HeadWrite)), [Cancel])
    ensures var d := Step(false, w, Turn).d;
            Leaking(d) && TallyOf(d.log.executed).awaitCancels == TallyOf(w.d.log.executed).awaitCancels + 1
  {
    TakenTurn(false, w, LeaveRunning, FdCancelled);
    TallyAppend(w.d.log.executed, Cancel);
  }

  lemma Cancels(w: World, fd: Fd)
    requires Conserved(w.d) && fd.connector.None? && fd.sock != -1
    requires At(w.d, HeadGetResponseAwait, fd.(downloader := Some(HeadWrite)), [])
    ensures var w' := Run(false, w, CANCELS);
            Leaking(w'.d) && TallyOf(w'.d.log.executed).awaitCancels == TallyOf(w.d.log.executed).awaitCancels + 1
    ensures Disciplined(w, CANCELS)
  {
    var w1 := Step(false, w, Inject(Cancel));
    CancelQueued(w, fd);
    CancelTaken(w1, fd);
    RunOne(false, w, Inject(Cancel), [Turn]);
    RunOne(false, w1, Turn, []);
    InternalIsDisciplined(w1, [Turn]);
    assert CANCELS[1..] == [Turn];
  }

  /** The destructor's asserts can fail: from every fresh object, a disciplined run in
      which one CANCEL is taken in HEAD_GET_RESPONSE_AWAIT ends, for good, with an
      open socket and a running thread. */
  lemma CancelInAwaitLeaks(w: World, more: seq<Label>)
    requires Initial(w.d)
    ensures var w' := Run(false, w, ASKED + CANCELS);
            && Disciplined(w, ASKED + CANCELS)
            && TallyOf(w'.d.log.executed).awaitCancels == 1
            && Leaking(w'.d) && Leaking(Run(false, w', more).d)
  {
    ReachesAwait(w);
    var w1 := Run(false, w, ASKED);
    ReachableInv(w, ASKED);
    Cancels(w1, w.d.fd.(sock := 3));
    RunConcat(false, w, ASKED, CANCELS);
    DisciplinedConcat(w, ASKED, CANCELS);
    PausesAndCancels(Run(false, w, ASKED + CANCELS).d.log.executed);
    LeakStays(Run(false, w, ASKED + CANCELS), more);
  }
}
