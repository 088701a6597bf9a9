/**
 Why the user's discipline is needed: a RECONNECT written while a connector is
 still live lets that connector's stale CONNECT_SUCCESS be taken for the new one.
 */
module Discipline {
  import opened Wrappers
  import opened Fsm
  import opened Downloaders
  import opened Paths
  import A = Asserts

  // The run, read backwards: each lemma takes the step or two that lead to the next.

  lemma SendsOnNoSocket(w: World, fd: Fd)
    requires fd.Clean() && At(w.d, HeadConnected, fd, [Start])
    ensures Run(false, w, [Turn]).d.fault == AssertFailed
  {
    RunOne(false, w, Turn, []);
  }

  lemma TakesStaleSuccess(w: World, fd: Fd)
    requires fd.Clean() && At(w.d, HeadConnectInProgress, fd.(connector := Some(CallSocket)), [ConnectSuccess])
    ensures Run(false, w, [Turn, Turn]).d.fault == AssertFailed
  {
    RunOne(false, w, Turn, [Turn]);
    assert w.d.queue[1..] + [Start] == [Start];
    SendsOnNoSocket(Step(false, w, Turn), fd);
  }

  lemma Reconnects(w: World, fd: Fd)
    requires fd.Clean() && |fd.serverName| > 0
    requires At(w.d, HeadConnectionFailed, fd, [Reconnect, ConnectSuccess])
    ensures Run(false, w, [Turn, Turn, Turn]).d.fault == AssertFailed
  {
    RunOne(false, w, Turn, [Turn, Turn]);
    TakesStaleSuccess(Step(false, w, Turn), fd);
  }

  lemma Pauses(w: World, fd: Fd)
    requires fd.Clean() && |fd.serverName| > 0
    requires At(w.d, HeadConnectInProgress, fd.(sock := 3, connector := Some(Done)),
                [Pause, Reconnect, ConnectSuccess])
    ensures Run(false, w, [Turn, Turn, Turn, Turn]).d.fault == AssertFailed
  {
    RunOne(false, w, Turn, [Turn, Turn, Turn]);
    assert w.d.queue[1..] == [Reconnect, ConnectSuccess];
    Reconnects(Step(false, w, Turn), fd);
  }

  lemma ReportsLate(w: World, fd: Fd)
    requires fd.Clean() && |fd.serverName| > 0
    requires At(w.d, HeadConnectInProgress, fd.(sock := 3, connector := Some(Firing(ConnectorRole, ConnectSuccess))),
                [Pause, Reconnect])
    ensures Run(false, w, [ConnectorStep(Proceed), Turn, Turn, Turn, Turn]).d.fault == AssertFailed
  {
    RunOne(false, w, ConnectorStep(Proceed), [Turn, Turn, Turn, Turn]);
    assert w.d.queue + [ConnectSuccess] == [Pause, Reconnect, ConnectSuccess];
    Pauses(Step(false, w, ConnectorStep(Proceed)), fd);
  }

  const EARLY: seq<Label> := [Inject(Reconnect), ConnectorStep(Proceed), Turn, Turn, Turn, Turn]

  lemma ReconnectsEarly(w: World, fd: Fd)
    requires fd.Clean() && |fd.serverName| > 0
    requires At(w.d, HeadConnectInProgress,
                fd.(sock := 3, connector := Some(Firing(ConnectorRole, ConnectSuccess))), [Pause])
    ensures Run(false, w, EARLY).d.fault == AssertFailed
  {
    var w1 := Step(false, w, Inject(Reconnect));
    assert w.d.queue + [Reconnect] == [Pause, Reconnect];
    ReportsLate(w1, fd);
    RunOne(false, w, Inject(Reconnect), [ConnectorStep(Proceed), Turn, Turn, Turn, Turn]);
  }

  const PAUSES: seq<Label> := [Inject(Pause)]

  lemma TooEarly(w: World, fd: Fd)
    requires At(w.d, HeadConnectInProgress,
                fd.(sock := 3, connector := Some(Firing(ConnectorRole, ConnectSuccess))), [Pause])
    ensures !Disciplined(w, [Inject(Reconnect)])
  {
    assert Live(w.d.fd.connector) == 1;
  }

  lemma PausesThen(w: World, fd: Fd)
    requires At(w.d, HeadConnectInProgress,
                fd.(sock := 3, connector := Some(Firing(ConnectorRole, ConnectSuccess))), [])
    ensures Disciplined(w, PAUSES)
    ensures At(Run(false, w, PAUSES).d, HeadConnectInProgress,
               fd.(sock := 3, connector := Some(Firing(ConnectorRole, ConnectSuccess))), [Pause])
  {
    assert w.d.queue + [Pause] == [Pause];
    RunOne(false, w, Inject(Pause), []);
  }

  /** HeadSendGetRequest finds sockfd == -1 and its first assert fails. The user
      starts, the connector reaches the server, the user pauses: the run is disciplined
      up to the RECONNECT, which is written too early. */
  lemma EarlyReconnectFailsAnAssert(w: World)
    requires Initial(w.d)
    ensures var before := START + CONNECT + PAUSES;
            && Run(false, w, before + EARLY).d.fault == AssertFailed
            && Disciplined(w, before)
            && !Disciplined(w, before + [Inject(Reconnect)])
            && !A.NoBareSuccess(false, w, before + EARLY)
  {
    A.AssertionSafety(false, w, START + CONNECT + PAUSES + EARLY);
    var fd := w.d.fd;
    var w1 := Run(false, w, START);
    var w2 := Run(false, w1, CONNECT);
    var w3 := Run(false, w2, PAUSES);
    Starts(w);
    Connects(w1, HeadConnectInProgress, fd);
    InternalIsDisciplined(w1, CONNECT);
    PausesThen(w2, fd);
    ReconnectsEarly(w3, fd);
    TooEarly(w3, fd);
    Joined(w);
  }

  /** The three stretches in one. */
  lemma Joined(w: World)
    ensures Run(false, w, START + CONNECT + PAUSES + EARLY)
            == Run(false, Run(false, Run(false, Run(false, w, START), CONNECT), PAUSES), EARLY)
    ensures Disciplined(w, START) && Disciplined(Run(false, w, START), CONNECT)
            && Disciplined(Run(false, Run(false, w, START), CONNECT), PAUSES)
            ==> Disciplined(w, START + CONNECT + PAUSES)
                && (Disciplined(w, START + CONNECT + PAUSES + [Inject(Reconnect)])
                    <==> Disciplined(Run(false, Run(false, Run(false, w, START), CONNECT), PAUSES),
                                     [Inject(Reconnect)]))
  {
    RunConcat(false, w, START, CONNECT);
    RunConcat(false, w, START + CONNECT, PAUSES);
    RunConcat(false, w, START + CONNECT + PAUSES, EARLY);
    if Disciplined(w, START) && Disciplined(Run(false, w, START), CONNECT)
       && Disciplined(Run(false, Run(false, w, START), CONNECT), PAUSES) {
      DisciplinedConcat(w, START, CONNECT);
      DisciplinedConcat(w, START + CONNECT, PAUSES);
      DisciplinedConcat(w, START + CONNECT + PAUSES, [Inject(Reconnect)]);
    }
  }
}
