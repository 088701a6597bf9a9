/**
 Stretches of runs that several results walk along: from START to a connected
 socket, and from there to a thread under way.
 */
module Paths {
  import opened Wrappers
  import opened Fsm
  import opened Downloaders

  /** The ledger aside, `d` stands here. */
  predicate At(d: Downloader, s: State, fd: Fd, q: seq<Event>) {
    d.fault == NoFault && d.state == s && d.fd.(ledger := fd.ledger) == fd && d.queue == q
  }

  /** The labels lead there and leave the file alone. */
  predicate Leads(w: World, ls: seq<Label>, s: State, fd: Fd, q: seq<Event>) {
    var w' := Run(false, w, ls);
    w'.disk == w.disk && At(w'.d, s, fd, q)
  }

  lemma LeadsOne(w: World, l: Label, s: State, fd: Fd, q: seq<Event>)
    requires Step(false, w, l).disk == w.disk && At(Step(false, w, l).d, s, fd, q)
    ensures Leads(w, [l], s, fd, q)
  {
    RunOne(false, w, l, []);
    assert [l] + [] == [l];
  }

  lemma LeadsOn(w: World, a: seq<Label>, b: seq<Label>, s: State, fd: Fd, q: seq<Event>)
    requires Run(false, w, a).disk == w.disk && Leads(Run(false, w, a), b, s, fd, q)
    ensures Leads(w, a + b, s, fd, q)
  {
    RunConcat(false, w, a, b);
  }

  lemma {:induction false} InternalIsDisciplined(w: World, ls: seq<Label>)
    requires forall l | l in ls :: !l.Inject?
    ensures Disciplined(w, ls)
    decreases ls
  {
    if ls != [] {
      assert ls[0] in ls;
      InternalIsDisciplined(Step(false, w, ls[0]), ls[1..]);
    }
  }

  // ---------- START ----------

  const START: seq<Label> := [Inject(Start), Turn]

  lemma StartsUp(w: World)
    requires Initial(w.d)
    ensures Step(false, w, Inject(Start)).disk == w.disk
    ensures At(Step(false, w, Inject(Start)).d, Init, w.d.fd, [Start])
  {
    assert w.d.queue + [Start] == [Start];
  }

  lemma TakesStart(w: World, fd: Fd)
    requires fd.Clean() && |fd.serverName| > 0 && At(w.d, Init, fd, [Start])
    ensures Step(false, w, Turn).disk == w.disk
    ensures At(Step(false, w, Turn).d, HeadConnectInProgress, fd.(connector := Some(CallSocket)), [])
  {
  }

  lemma Starts(w: World)
    requires Initial(w.d)
    ensures Leads(w, START, HeadConnectInProgress, w.d.fd.(connector := Some(CallSocket)), [])
    ensures Disciplined(w, START)
  {
    StartsUp(w);
    var w1 := Step(false, w, Inject(Start));
    TakesStart(w1, w.d.fd);
    LeadsOne(w1, Turn, HeadConnectInProgress, w.d.fd.(connector := Some(CallSocket)), []);
    RunOne(false, w, Inject(Start), [Turn]);
    StartIsDisciplined(w);
  }

  lemma StartIsDisciplined(w: World)
    requires Initial(w.d)
    ensures Disciplined(w, START)
  {
    InternalIsDisciplined(Step(false, w, Inject(Start)), [Turn]);
    assert START[1..] == [Turn];
  }

  // ---------- connecting, in either phase ----------

  const CONNECT: seq<Label> := [ConnectorStep(SocketOk(3)), ConnectorStep(HostFound), ConnectorStep(ConnectOk)]
  const REPORT: seq<Label> := [ConnectorStep(Proceed), Turn, Turn]

  lemma GetsSocket(w: World, s: State, fd: Fd)
    requires fd.Clean() && At(w.d, s, fd.(connector := Some(CallSocket)), [])
    ensures var w' := Step(false, w, ConnectorStep(SocketOk(3)));
            w'.disk == w.disk && At(w'.d, s, fd.(sock := 3, connector := Some(ResolveHost)), [])
  {
    ConnectorMoves(false, w, CallSocket, SocketOk(3));
  }

  lemma FindsHost(w: World, s: State, fd: Fd)
    requires At(w.d, s, fd.(connector := Some(ResolveHost)), [])
    ensures var w' := Step(false, w, ConnectorStep(HostFound));
            w'.disk == w.disk && At(w'.d, s, fd.(connector := Some(TryConnect(HEAD_CONNECT_TRIES))), [])
  {
    ConnectorMoves(false, w, ResolveHost, HostFound);
  }

  lemma GetsThrough(w: World, s: State, fd: Fd)
    requires At(w.d, s, fd.(connector := Some(TryConnect(HEAD_CONNECT_TRIES))), [])
    ensures var w' := Step(false, w, ConnectorStep(ConnectOk));
            w'.disk == w.disk && At(w'.d, s, fd.(connector := Some(Firing(ConnectorRole, ConnectSuccess))), [])
  {
    ConnectorMoves(false, w, TryConnect(HEAD_CONNECT_TRIES), ConnectOk);
  }

  lemma RunsThree(w: World, a: Label, b: Label, c: Label)
    ensures Run(false, w, [a, b, c]) == Step(false, Step(false, Step(false, w, a), b), c)
  {
    RunThree(w, a, b, c, []);
    assert [a, b, c] + [] == [a, b, c];
  }

  lemma Connects(w: World, s: State, fd: Fd)
    requires fd.Clean() && At(w.d, s, fd.(connector := Some(CallSocket)), [])
    ensures Leads(w, CONNECT, s, fd.(sock := 3, connector := Some(Firing(ConnectorRole, ConnectSuccess))), [])
  {
    var up := fd.(sock := 3);
    GetsSocket(w, s, fd);
    var w1 := Step(false, w, CONNECT[0]);
    FindsHost(w1, s, up);
    var w2 := Step(false, w1, CONNECT[1]);
    GetsThrough(w2, s, up);
    RunsThree(w, CONNECT[0], CONNECT[1], CONNECT[2]);
  }

  lemma ConnectorReports(w: World, s: State, fd: Fd)
    requires At(w.d, s, fd.(connector := Some(Firing(ConnectorRole, ConnectSuccess))), [])
    ensures var w' := Step(false, w, ConnectorStep(Proceed));
            w'.disk == w.disk && At(w'.d, s, fd.(connector := Some(Done)), [ConnectSuccess])
  {
    ConnectorMoves(false, w, Firing(ConnectorRole, ConnectSuccess), Proceed);
    assert [] + [ConnectSuccess] == [ConnectSuccess];
  }

  lemma TurnsUp(w: World, s: State, fd: Fd)
    requires IsConnecting(s) && fd.connector.None?
    requires At(w.d, s, fd.(connector := Some(Done)), [ConnectSuccess])
    ensures var w' := Step(false, w, Turn);
            w'.disk == w.disk && At(w'.d, ConnectedState(s), fd, [Start])
  {
    assert w.d.queue[1..] + [Start] == [Start];
  }

  /** The phase behind a connection: its state and its thread. */
  function Asking(s: State): (State, Worker) {
    if s == HeadConnectInProgress then (HeadGetResponseAwait, HeadWrite) else (FdInProgress, BodySend)
  }

  lemma TurnsOn(w: World, s: State, fd: Fd)
    requires IsConnecting(s) && fd.sock == 3 && fd.connector.None? && fd.downloader.None?
    requires At(w.d, ConnectedState(s), fd, [Start])
    ensures var w' := Step(false, w, Turn);
            w'.disk == w.disk && At(w'.d, Asking(s).0, fd.(downloader := Some(Asking(s).1)), [])
  {
  }

  lemma Reports(w: World, s: State, fd: Fd)
    requires IsConnecting(s) && fd.Clean()
    requires At(w.d, s, fd.(sock := 3, connector := Some(Firing(ConnectorRole, ConnectSuccess))), [])
    ensures Leads(w, REPORT, Asking(s).0, fd.(sock := 3, downloader := Some(Asking(s).1)), [])
  {
    var up := fd.(sock := 3);
    ConnectorReports(w, s, up);
    var w1 := Step(false, w, ConnectorStep(Proceed));
    TurnsUp(w1, s, up);
    TurnsOn(Step(false, w1, Turn), s, up);
    RunsThree(w, ConnectorStep(Proceed), Turn, Turn);
  }

  /** From a fresh connector to the thread of its phase. */
  lemma ConnectsAndReports(w: World, s: State, fd: Fd)
    requires IsConnecting(s) && fd.Clean() && At(w.d, s, fd.(connector := Some(CallSocket)), [])
    ensures Leads(w, CONNECT + REPORT, Asking(s).0, fd.(sock := 3, downloader := Some(Asking(s).1)), [])
  {
    Connects(w, s, fd);
    Reports(Run(false, w, CONNECT), s, fd);
    LeadsOn(w, CONNECT, REPORT, Asking(s).0, fd.(sock := 3, downloader := Some(Asking(s).1)), []);
  }

  lemma {:induction false} DisciplinedConcat(w: World, a: seq<Label>, b: seq<Label>)
    requires Disciplined(w, a)
    ensures Disciplined(w, a + b) <==> Disciplined(Run(false, w, a), b)
    decreases a
  {
    if a == [] {
      assert a + b == b;
    } else {
      assert (a + b)[1..] == a[1..] + b;
      DisciplinedConcat(Step(false, w, a[0]), a[1..], b);
    }
  }
}
