/**
 An autonomous run ends. Steps that change nothing aside, the listener and the threads
 together take at most 33 steps, 19 more for each lost connection, and 3 for each byte
 counted: a potential falls with every step and is raised only by those two.
 */
module Termination {
  import opened Wrappers
  import opened Fsm
  import opened Downloaders
  import opened Invariant
  import opened FreshStart
  import opened Autonomous
  import opened Servers
  import opened Parallel

  /** The steps of a run that change the world. */
  function Effective(strict: bool, w: World, ls: seq<Label>): nat
    decreases ls
  {
    if ls == [] then 0
    else (if Step(strict, w, ls[0]) == w then 0 else 1) + Effective(strict, Step(strict, w, ls[0]), ls[1..])
  }

  /** Steps left for a thread standing at `t` if it reads nothing more; what it read in
      the loop but did not count yet is paid for by the count. */
  function Left(t: Worker): nat {
    match t
    case CallSocket => 8
    case ResolveHost => 7
    case TryConnect(n) => n + 1
    case HeadWrite => 3
    case HeadRead => 2
    case BodySend => 7
    case BodyOpen(_, _) => 6
    case BodyFirst(_, _, _) => 5
    case BodyRead(_, _, _) => 2
    case BodyPut(_, _, _, _, first) => if first then 4 else 1
    case BodyCount(_, _, _, _, first) => if first then 3 else 0
    case Firing(_, _) => 1
    case Done => 0
  }

  function LeftOf(t: Option<Worker>): nat {
    if t.Some? then Left(t.value) else 0
  }

  /** Steps left once an event is queued in this state, its own turn included. */
  function Base(s: State): nat {
    match s
    case Init => 33
    case HeadConnectInProgress => 24
    case HeadConnected => 23
    case HeadConnectionFailed => 33
    case HeadGetResponseAwait => 19
    case FdConnectInProgress => 10
    case FdConnected => 9
    case FdConnectionFailed => 19
    case FdInProgress => 1
    case _ => 0
  }

  function Potential(d: Downloader): nat {
    if d.queue == [] && !Active(d.state) then 0
    else Base(d.state) + LeftOf(d.fd.connector) + LeftOf(d.fd.downloader)
  }

  function Lost(d: Downloader): nat {
    TallyOf(d.log.executed).lost
  }

  /** What the loop holds is never empty. */
  predicate Productive(t: Worker) {
    && (t.BodyPut? && !t.first ==> t.data != [])
    && (t.BodyCount? && !t.first ==> t.k > 0)
  }

  predicate ProductiveFd(fd: Fd) {
    && (fd.connector.Some? ==> Productive(fd.connector.value))
    && (fd.downloader.Some? ==> Productive(fd.downloader.value))
  }

  // ---------- thread steps ----------

  lemma WorkerFalls(w: World, t: Worker, o: Outcome)
    requires Productive(t) && (t.TryConnect? ==> t.tries > 0)
    ensures var (w', t') := RunWorker(w, t, o);
            && Productive(t') && w'.d.fd.bytes >= w.d.fd.bytes
            && ((w', t') == (w, t) || Left(t') + 1 <= Left(t) + 3 * (w'.d.fd.bytes - w.d.fd.bytes))
  {
    match t {
      case CallSocket =>
      case ResolveHost =>
      case TryConnect(_) =>
      case HeadWrite =>
      case HeadRead =>
      case BodySend =>
      case BodyOpen(_, _) =>
      case BodyFirst(_, _, _) =>
      case BodyRead(_, _, _) =>
      case BodyPut(_, _, _, _, _) =>
      case BodyCount(_, _, _, _, _) =>
      case Firing(_, _) =>
      case Done =>
    }
  }

  /** What a thread step leaves alone, for the potential. */
  lemma WorkerStays(w: World, t: Worker, o: Outcome)
    ensures var d := RunWorker(w, t, o).0.d;
            && d.state == w.d.state && d.log.executed == w.d.log.executed
            && d.fd.connector == w.d.fd.connector && d.fd.downloader == w.d.fd.downloader
            && (w.d.queue != [] ==> d.queue != [])
  {
  }

  /** The account of one step. */
  predicate Pays(w: World, w': World) {
    && w'.d.fd.bytes >= w.d.fd.bytes && Lost(w'.d) >= Lost(w.d) && ProductiveFd(w'.d.fd)
    && (w' == w || Potential(w'.d) + 1
                   <= Potential(w.d) + 19 * (Lost(w'.d) - Lost(w.d)) + 3 * (w'.d.fd.bytes - w.d.fd.bytes))
  }

  lemma ConnectorPays(w: World, o: Outcome)
    requires Auto(w.d) && ProductiveFd(w.d.fd) && w.d.fd.connector.Some?
    ensures Pays(w, Step(false, w, ConnectorStep(o)))
  {
    var t := w.d.fd.connector.value;
    ConnectorMoves(false, w, t, o);
    WorkerFalls(w, t, o);
    WorkerStays(w, t, o);
  }

  /** A thread behind the downloader's pointer is at work in an active state. */
  lemma DownloaderPays(w: World, o: Outcome)
    requires Auto(w.d) && ProductiveFd(w.d.fd) && w.d.fd.downloader.Some?
    ensures Pays(w, Step(false, w, DownloaderStep(o)))
  {
    var t := w.d.fd.downloader.value;
    DownloaderMoves(false, w, t, o);
    WorkerFalls(w, t, o);
    WorkerStays(w, t, o);
  }

  // ---------- turns ----------

  /** What the action leaves to be done: what it spawned, or the event it fired. */
  lemma ActLeaves(a: Action, w: World)
    requires Before(a, w.d) && w.d.queue == [] && a != LeaveRunning && a != PauseTransfer
    ensures var d := Act(a, w).d;
            && d.state == w.d.state && ProductiveFd(d.fd) && d.fd.bytes == w.d.fd.bytes
            && d.log.executed == w.d.log.executed
            && Potential(d) == match a
                               case Connect => Base(d.state) + 8
                               case Cleanup => 0
                               case ConnectionUp => Base(d.state)
                               case SendHeadRequest => Base(d.state) + 3
                               case HandOver => Base(d.state) + 8
                               case HeadLost => Base(d.state)
                               case StartDownload => Base(d.state) + 7
                               case CleanupAndConnect => Base(d.state) + 8
                               case Finish => 0
                               case BodyLost => Base(d.state)
  {
    match a {
      case Connect =>
      case Cleanup =>
      case ConnectionUp =>
      case SendHeadRequest =>
      case HandOver =>
      case HeadLost =>
      case StartDownload =>
      case CleanupAndConnect =>
      case Finish =>
      case BodyLost =>
    }
  }

  /** The numbers of `Base`, entry by entry. */
  lemma EntryPays(s: State, e: Event, a: Action, next: State)
    requires Table(s, e) == Go(a, next) && e != Cancel && e != Pause && s != FdSuspended
    ensures Base(s) + (if e == LostConnection then 19 else 0)
            >= 1 + match a
                   case Connect => Base(next) + 8
                   case ConnectionUp => Base(next)
                   case SendHeadRequest => Base(next) + 3
                   case HandOver => Base(next) + 8
                   case HeadLost => Base(next)
                   case StartDownload => Base(next) + 7
                   case CleanupAndConnect => Base(next) + 8
                   case BodyLost => Base(next)
                   case _ => 0
  {
  }

  lemma TurnPays(w: World)
    requires Auto(w.d) && Conserved(w.d) && ProductiveFd(w.d.fd) && w.d.queue != []
    ensures Pays(w, Step(false, w, Turn))
  {
    HeadIsTaken(w.d);
    var e := w.d.queue[0];
    var Go(a, next) := Table(w.d.state, e);
    var w1 := Entered(w, next);
    TakenTurn(false, w, a, next);
    TurnFinds(w, a, next);
    EntriesWithoutUser(w.d.state, e, a, next);
    EntryPays(w.d.state, e, a, next);
    assert w1.d.queue == [];
    ActLeaves(a, w1);
    TallyAppend(w.d.log.executed, e);
    LossIsCounted(w.d, e);
  }

  lemma LossIsCounted(d: Downloader, e: Event)
    requires Conserved(d) && Table(d.state, e).Go?
    ensures TallyOf(d.log.executed + [e]).lost == Lost(d) + if e == LostConnection then 1 else 0
  {
    TallyAppend(d.log.executed, e);
  }

  lemma StepPays(w: World, l: Label)
    requires Auto(w.d) && Conserved(w.d) && ProductiveFd(w.d.fd) && !l.Inject?
    ensures Pays(w, Step(false, w, l))
  {
    match l {
      case Turn => if w.d.queue != [] { TurnPays(w); }
      case ConnectorStep(o) => if w.d.fd.connector.Some? { ConnectorPays(w, o); }
      case DownloaderStep(o) => if w.d.fd.downloader.Some? { DownloaderPays(w, o); }
    }
  }

  // ---------- runs ----------

  lemma {:induction false} RunPays(w: World, ls: seq<Label>)
    requires Auto(w.d) && Conserved(w.d) && ProductiveFd(w.d.fd) && Internal(ls)
    ensures var w' := Run(true, w, ls);
            Effective(true, w, ls) + Potential(w'.d) + 19 * Lost(w.d) + 3 * w.d.fd.bytes
            <= Potential(w.d) + 19 * Lost(w'.d) + 3 * w'.d.fd.bytes
    decreases ls
  {
    if ls != [] {
      assert ls[0] in ls;
      StepKeepsAuto(w, ls[0]);
      StepConserves(false, w, ls[0]);
      StepPays(w, ls[0]);
      RunPays(Step(false, w, ls[0]), ls[1..]);
    }
  }

  /** After one START and without a user, however the threads and the listener take
      turns: every run of the engine as written, from a fresh object, takes no more
      effective steps than its losses and its counted bytes allow. */
  lemma AutonomousRunsEnd(w: World, ls: seq<Label>)
    requires Initial(w.d) && Internal(ls)
    ensures var w1 := Step(true, w, Inject(Start));
            var d := Run(true, w1, ls).d;
            Effective(true, w1, ls) + Potential(d) <= 33 + 19 * Lost(d) + 3 * d.fd.bytes
  {
    var w1 := Step(true, w, Inject(Start));
    AfterStart(w, ls);
    StepConserves(true, w, Inject(Start));
    assert w.d.queue + [Start] == [Start];
    RunPays(w1, ls);
  }

  /** No step of the listener or a thread changes anything. */
  ghost predicate Stuck(w: World) {
    forall l: Label | !l.Inject? :: Step(true, w, l) == w
  }

  /** And where such a run can go no further, no event is queued and no thread is live:
      it has come to rest, in one of the states of `Autonomous.RestsOnlyAtTheEnd`. */
  lemma StuckIsAtRest(w: World, ls: seq<Label>)
    requires Initial(w.d) && Internal(ls)
    requires Stuck(Run(true, w, [Inject(Start)] + ls))
    ensures Drivers(Run(true, w, [Inject(Start)] + ls).d) == 0
  {
    AfterStart(w, ls);
    AutoRuns(Step(true, w, Inject(Start)), ls);
    StuckHasNoDriver(Run(true, w, [Inject(Start)] + ls));
  }

  lemma StuckHasNoDriver(w: World)
    requires Auto(w.d) && Stuck(w)
    ensures Drivers(w.d) == 0
  {
    if Drivers(w.d) != 0 {
      var l := DriverMoves(w);
      assert false;
    }
  }

  lemma DriverMoves(w: World) returns (l: Label)
    requires Auto(w.d) && Drivers(w.d) != 0
    ensures !l.Inject? && Step(true, w, l) != w
  {
    if w.d.queue != [] {
      TurnShortens(w);
      l := Turn;
    } else if Live(w.d.fd.connector) == 1 {
      var t := w.d.fd.connector.value;
      LiveThreadMoves(w, t);
      ConnectorMoves(true, w, t, Answer(t));
      l := ConnectorStep(Answer(t));
    } else {
      var t := w.d.fd.downloader.value;
      LiveThreadMoves(w, t);
      DownloaderMoves(true, w, t, Answer(t));
      l := DownloaderStep(Answer(t));
    }
  }

  // ---------- with an honest server ----------

  predicate HonestRun(w: World, ls: seq<Label>, remote: seq<byte>)
    decreases ls
  {
    ls == [] || (!ls[0].Inject? && RangeHonest(w.d, ls[0], remote)
                 && HonestRun(Step(false, w, ls[0]), ls[1..], remote))
  }

  lemma {:induction false} HonestKeepsRange(w: World, ls: seq<Label>, remote: seq<byte>)
    requires Inv(w.d) && Fresh(w.d) && NoPauseQueued(w.d) && RangeContent(w.d, w.disk, remote)
    requires HonestRun(w, ls, remote)
    ensures RangeContent(Run(false, w, ls).d, Run(false, w, ls).disk, remote) && Internal(ls)
    decreases ls
  {
    if ls != [] {
      StepKeeps(w, ls[0]);
      StepKeepsFresh(w, ls[0]);
      StepWritesNoPause(w, ls[0]);
      StepKeepsRange(w, ls[0], remote);
      HonestKeepsRange(Step(false, w, ls[0]), ls[1..], remote);
    }
  }

  /** Against an honest server the size of the range bounds the bytes: a downloader with
      a range, left alone, comes to rest within a number of steps fixed by that size
      and by the connections it loses. */
  lemma RangeRunsEnd(w: World, ls: seq<Label>, remote: seq<byte>)
    requires Initial(w.d) && w.d.fd.IsPartial() && !w.d.fd.WholeFile()
    requires 0 <= w.d.fd.low <= w.d.fd.high < |remote| && w.disk.Some? && |w.disk.value| == |remote|
    requires HonestRun(Step(true, w, Inject(Start)), ls, remote)
    ensures var w1 := Step(true, w, Inject(Start));
            Effective(true, w1, ls) <= 33 + 19 * Lost(Run(true, w1, ls).d) + 3 * (w.d.fd.high - w.d.fd.low + 1)
  {
    var w1 := Step(true, w, Inject(Start));
    InitialInv(w.d);
    StepKeeps(w, Inject(Start));
    HonestKeepsRange(w1, ls, remote);
    AutonomousRunsEnd(w, ls);
    AfterStart(w, ls);
    AutoRuns(w1, ls);
    RangeStays(w1, ls);
  }

  lemma {:induction false} RangeStays(w: World, ls: seq<Label>)
    ensures var fd := Run(false, w, ls).d.fd; fd.low == w.d.fd.low && fd.high == w.d.fd.high
    decreases ls
  {
    if ls != [] {
      StepKeepsBounds(w, ls[0]);
      RangeStays(Step(false, w, ls[0]), ls[1..]);
    }
  }
}
