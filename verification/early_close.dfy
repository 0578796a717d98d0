/** A close that overtakes the goroutine that opens its session is lost: the worker dials afterwards and keeps the
    connection, though the broker has forgotten the session. */
module EarlyClose {
  import opened Frames
  import opened Tunnel
  import opened TunnelEnds
  import opened TunnelGap
  import P = ProxyLink
  import W = WorkerLink
  import B = Broker
  import BP = BrokerProofs
  import R = Registry

  /** The worker has handled a close of the session, and yet the session is open there. */
  ghost predicate Outlives(y: W.State, id: Id) {
    && Has(y.recv, id, CMD_CLOSE)
    && id in y.sess && y.sess[id].life.listed && !y.sess[id].life.closed && y.sess[id].life.conn && y.sess[id].life.sock
  }

  /** The continuation in which the close is handled first, and then the session stored and dialled. */
  ghost function Overtaken(es: seq<Event>, w: nat, id: Id, target: Bytes, udp: bool): (r: seq<Event>)
    ensures es <= r
  {
    es + [WorkerReceives(w, W.TakeQueue)] + [WorkerStep(w, W.Store(id, target, udp))] + [WorkerStep(w, W.DialDone(id))]
  }

  /** From any run in which the next message of a worker is a close of a session whose open is still under way. */
  lemma CloseIsOvertaken(es: seq<Event>, w: nat, id: Id, target: Bytes, udp: bool)
    requires CloseIsNext(Run(es), w, id) && id !in Wk(Run(es), w).sess && (id, target, udp) in Wk(Run(es), w).opens
    ensures Outlives(Wk(Run(Overtaken(es, w, id, target, udp)), w), id)
    ensures Run(Overtaken(es, w, id, target, udp)).broker == Run(es).broker
  {
    var received := es + [WorkerReceives(w, W.TakeQueue)];
    var stored := received + [WorkerStep(w, W.Store(id, target, udp))];
    OneMore(es, WorkerReceives(w, W.TakeQueue));
    OneMore(received, WorkerStep(w, W.Store(id, target, udp)));
    OneMore(stored, WorkerStep(w, W.DialDone(id)));
    var m := At(Run(es).broker.toWorker, w)[|Wk(Run(es), w).recv|];
    WorkerMoves(Run(es), WorkerReceives(w, W.TakeQueue), w);
    WorkerMoves(Run(received), WorkerStep(w, W.Store(id, target, udp)), w);
    WorkerMoves(Run(stored), WorkerStep(w, W.DialDone(id)), w);
    LinkIsOvertaken(Wk(Run(es), w), m, id, target, udp);
  }

  lemma LinkIsOvertaken(y: W.State, m: Wire, id: Id, target: Bytes, udp: bool)
    requires Carries(m, id, CMD_CLOSE) && !W.IsBusy(y) && id !in y.sess && (id, target, udp) in y.opens
    ensures var y1 := W.Next(y, W.Receive(m, W.TakeQueue));
            var y2 := W.Next(y1, W.Store(id, target, udp));
            Outlives(W.Next(y2, W.DialDone(id)), id)
  {
    var y1 := W.Next(y, W.Receive(m, W.TakeQueue));
    assert y1.recv == y.recv + [m] && m in y1.recv && y1.opens == y.opens && id !in y1.sess;
    var y2 := W.Next(y1, W.Store(id, target, udp));
    assert y2.sess[id] == W.NewSession(target, udp) && y2.recv == y1.recv;
    assert W.Next(y2, W.DialDone(id)).recv == y1.recv;
  }

  // ---- such a run, from the start of the system ------------------------------------------------------

  /** The broker holds just the one session, and no proxy is closed. */
  ghost predicate HoldsOne(t: Tale, b: B.State) {
    b.sessions == map[t.id := B.Session(t.p, t.w, "tcp")] && b.asyncCloses == {} && b.closed == {}
  }

  lemma GrantedTable(t: Tale, b: B.State)
    requires Registered(t, b) && t.Ok()
    ensures HoldsOne(t, B.Next(b, B.ProxyMessage(t.p, t.Ask(), true, true, [], [])))
  {
    assert R.Pick(b.reg, "group").1.value == t.w;
  }

  lemma ConnectHandled(t: Tale)
    requires t.Ok()
    ensures Looks(t, Run(t.Script(4)), 0, 1, 1, 0) && HoldsOne(t, Run(t.Script(4)).broker)
  {
    ScriptStep(t, 0);
    ScriptStep(t, 1);
    ScriptStep(t, 2);
    ScriptStep(t, 3);
    AskIsSent(t);
    var s := Run(t.Script(2));
    GrantedTable(t, s.broker);
    assert BrokerEvent(s, t.EventAt(2)) == [B.ProxyMessage(t.p, t.Ask(), true, true, [], [])];
    WorkerStages(t, 4);
  }

  /** The proxy connection closes, and the goroutine it leaves behind sends the close to the worker. */
  function Hangup(t: Tale): seq<Event> {
    [BrokerStep(B.ProxyClose(t.p, [t.id])), BrokerStep(B.AsyncClose(t.id, t.w, true))]
  }

  lemma HangupSends(t: Tale, b: B.State)
    requires t.Ok() && HoldsOne(t, b) && At(b.toWorker, t.w) == [t.Connect()]
    ensures var close := Binary(Packet(t.id, CMD_CLOSE, []));
            var c := B.Next(B.Next(b, B.ProxyClose(t.p, [t.id])), B.AsyncClose(t.id, t.w, true));
            At(c.toWorker, t.w) == [t.Connect(), close] && c.sessions == map[] && t.p in c.closed
  {
    assert B.IsProxyOrder(b, [t.id], t.p);
    var b1 := b.(closed := b.closed + {t.p});
    assert B.DropAllForProxy(b1, []) == b1;
    assert [t.id][..0] == [];
    var b2 := B.Next(b, B.ProxyClose(t.p, [t.id]));
    assert b2 == B.DropForProxy(b1, t.id);
    assert (t.id, t.w) in b2.asyncCloses && At(b2.toWorker, t.w) == [t.Connect()];
  }

  lemma CloseIsOnTheWay(t: Tale)
    requires t.Ok()
    ensures var s := Run(t.Script(4) + [Hangup(t)[0]] + [Hangup(t)[1]]);
            && CloseIsNext(s, t.w, t.id) && t.id !in s.broker.sessions && t.p in s.broker.closed
            && t.id !in Wk(s, t.w).sess && (t.id, t.target, false) in Wk(s, t.w).opens
  {
    ConnectHandled(t);
    var es := t.Script(4);
    assert At(Run(es).broker.toWorker, t.w) == [t.Connect()];
    OneMore(es, Hangup(t)[0]);
    OneMore(es + [Hangup(t)[0]], Hangup(t)[1]);
    HangupSends(t, Run(es).broker);
    PacketParses(t.id, CMD_CLOSE, []);
  }

  /** A run from the start of the system in which the proxy connection closes just after the worker was asked to
      connect: the worker ends up with an open connection for a session that the broker has forgotten. */
  lemma OvertakingIsReachable(t: Tale)
    requires t.Ok()
    ensures exists es :: && Outlives(Wk(Run(es), t.w), t.id)
                         && t.id !in Run(es).broker.sessions && t.p in Run(es).broker.closed
  {
    var es := t.Script(4) + [Hangup(t)[0]] + [Hangup(t)[1]];
    CloseIsOnTheWay(t);
    CloseIsOvertaken(es, t.w, t.id, t.target, false);
    var all := Overtaken(es, t.w, t.id, t.target, false);
    assert Outlives(Wk(Run(all), t.w), t.id);
  }
}
