/** When the bytes written to a target are not a prefix of those read from the client, in runs of the whole
    system: exactly from states in which the worker's link or session has begun to close. */
module TunnelGap {
  import opened Frames
  import opened Tunnel
  import P = ProxyLink
  import W = WorkerLink
  import B = Broker
  import R = Registry
  import G = WorkerGap

  /** The message that the worker link handles next, and the one after it. */
  ghost predicate Pending(s: State, w: nat, a: Wire, b: Wire) {
    var queue, n := At(s.broker.toWorker, w), |Wk(s, w).recv|;
    n + 1 < |queue| && queue[n] == a && queue[n + 1] == b
  }

  /** In every run: the next data frame of a session that can still be written can be turned away if and
      only if the link or the session has begun to close. */
  lemma RefusedIffClosing(es: seq<Event>, w: nat, id: Id)
    requires G.Writable(Wk(Run(es), w), id)
    requires |Wk(Run(es), w).recv| < |At(Run(es).broker.toWorker, w)|
    requires IsData(At(Run(es).broker.toWorker, w)[|Wk(Run(es), w).recv|], id)
    ensures (exists choice :: Refuses(Run(es), w, choice, id)) <==> G.Closing(Wk(Run(es), w), id)
  {
    var s := Run(es);
    assert W.Inv(Wk(s, w), id) by { RunKeeps(es); }
    var m := At(s.broker.toWorker, w)[|Wk(s, w).recv|];
    G.RefusedIffClosing(Wk(s, w), m, id);
    forall choice ensures Refuses(s, w, choice, id) <==> LinkRefuses(Wk(s, w), m, choice, id) {
      ReceivesNext(s, w, choice);
    }
    assert forall choice :: LinkRefuses(Wk(s, w), m, choice, id) ==>
             W.Next(Wk(s, w), W.Receive(m, choice)).sess[id].inward.refused;
    if choice :| W.Next(Wk(s, w), W.Receive(m, choice)).sess[id].inward.refused {
      assert LinkRefuses(Wk(s, w), m, choice, id);
    }
  }

  lemma ReceivesNext(s: State, w: nat, choice: W.Choice)
    requires |Wk(s, w).recv| < |At(s.broker.toWorker, w)|
    ensures Wk(Next(s, WorkerReceives(w, choice)), w)
         == W.Next(Wk(s, w), W.Receive(At(s.broker.toWorker, w)[|Wk(s, w).recv|], choice))
  {
  }

  ghost predicate LinkRefuses(y: W.State, m: Wire, choice: W.Choice, id: Id) {
    var z := W.Next(y, W.Receive(m, choice));
    id in z.sess && z.sess[id].inward.refused
  }

  ghost predicate Refuses(s: State, w: nat, choice: W.Choice, id: Id) {
    var y := Wk(Next(s, WorkerReceives(w, choice)), w);
    id in y.sess && y.sess[id].inward.refused
  }

  /** The continuation in which the first of the two pending frames is lost and the second one written. */
  ghost function WithGap(es: seq<Event>, w: nat, id: Id): (r: seq<Event>)
    ensures es <= r
  {
    WithSecondQueued(es, w) + [WorkerStep(w, W.WriterTake(id))] + [WorkerStep(w, W.WriterWrite(id, 1))]
  }

  ghost function WithSecondQueued(es: seq<Event>, w: nat): seq<Event> {
    es + [WorkerReceives(w, G.Turning(Wk(Run(es), w)))] + [WorkerReceives(w, W.TakeQueue)]
  }

  /** From any run that ends with the link or the session closing, the connection still there and two
      frames pending, the run can go on so that the target holds no prefix of the client's bytes. */
  lemma GapFollows(es: seq<Event>, w: nat, id: Id, a: Wire, b: Wire)
    requires var y := Wk(Run(es), w); G.Writable(y, id) && G.Closing(y, id) && G.Idle(y, id)
    requires Pending(Run(es), w, a, b) && IsData(a, id) && IsData(b, id)
    requires PayloadOf(a) != [] && PayloadOf(b) != [] && PayloadOf(a)[0] != PayloadOf(b)[0]
    ensures HasGap(Run(WithGap(es, w, id)), w, id)
  {
    RunKeeps(es);
    LinkFollows(Run(es), w, id, a, b);
    GapStates(es, w, id, a, b);
    NoPrefix(WithGap(es, w, id), w, id);
  }

  lemma LinkFollows(s: State, w: nat, id: Id, a: Wire, b: Wire)
    requires WorkersOk(s) && G.Writable(Wk(s, w), id) && G.Closing(Wk(s, w), id) && G.Idle(Wk(s, w), id)
    requires IsData(a, id) && IsData(b, id)
    requires PayloadOf(a) != [] && PayloadOf(b) != [] && PayloadOf(a)[0] != PayloadOf(b)[0]
    ensures G.IsGapped(G.WithGap(Wk(s, w), a, b, id), id)
  {
    assert W.Inv(Wk(s, w), id);
    G.GapFollows(Wk(s, w), a, b, id);
  }

  /** The session is bound and its target holds bytes that are no prefix of those read from the client. */
  ghost predicate HasGap(s: State, w: nat, id: Id) {
    id in Wk(s, w).sess && id in Px(s, ClientOf(s, id)).sess && !TargetHasPrefix(s, w, id)
  }

  lemma OneMore(es: seq<Event>, e: Event)
    ensures Run(es + [e]) == Next(Run(es), e)
  {
    assert (es + [e])[..|es|] == es;
  }

  lemma GapStates(es: seq<Event>, w: nat, id: Id, a: Wire, b: Wire)
    requires G.Writable(Wk(Run(es), w), id) && G.Closing(Wk(Run(es), w), id)
    requires Pending(Run(es), w, a, b) && IsData(a, id)
    ensures Wk(Run(WithGap(es, w, id)), w) == G.WithGap(Wk(Run(es), w), a, b, id)
  {
    G.FirstIsRefused(Wk(Run(es), w), a, id);
    GapReceives(es, w, a, b);
    GapWrites(WithSecondQueued(es, w), w, id);
  }

  lemma GapReceives(es: seq<Event>, w: nat, a: Wire, b: Wire)
    requires Pending(Run(es), w, a, b)
    requires W.Next(Wk(Run(es), w), W.Receive(a, G.Turning(Wk(Run(es), w)))).recv == Wk(Run(es), w).recv + [a]
    ensures Wk(Run(WithSecondQueued(es, w)), w) == G.SecondQueued(Wk(Run(es), w), a, b)
  {
    ReceivesRun(es, w, G.Turning(Wk(Run(es), w)));
    ReceivesRun(es + [WorkerReceives(w, G.Turning(Wk(Run(es), w)))], w, W.TakeQueue);
  }

  lemma GapWrites(es: seq<Event>, w: nat, id: Id)
    ensures Wk(Run(es + [WorkerStep(w, W.WriterTake(id))] + [WorkerStep(w, W.WriterWrite(id, 1))]), w)
         == G.FirstByteWritten(Wk(Run(es), w), id)
  {
    StepsRun(es, w, W.WriterTake(id));
    StepsRun(es + [WorkerStep(w, W.WriterTake(id))], w, W.WriterWrite(id, 1));
  }

  lemma ReceivesRun(es: seq<Event>, w: nat, choice: W.Choice)
    requires |Wk(Run(es), w).recv| < |At(Run(es).broker.toWorker, w)|
    ensures var s, t := Run(es), Run(es + [WorkerReceives(w, choice)]);
            && Wk(t, w) == W.Next(Wk(s, w), W.Receive(At(s.broker.toWorker, w)[|Wk(s, w).recv|], choice))
            && t.broker == s.broker
  {
    OneMore(es, WorkerReceives(w, choice));
  }

  lemma StepsRun(es: seq<Event>, w: nat, e: W.Event)
    requires !e.Receive?
    ensures Wk(Run(es + [WorkerStep(w, e)]), w) == W.Next(Wk(Run(es), w), e)
  {
    OneMore(es, WorkerStep(w, e));
  }

  /** Fewer bytes than were received, and no prefix of them, are no prefix of what was read either. */
  lemma NoPrefix(es: seq<Event>, w: nat, id: Id)
    requires G.IsGapped(Wk(Run(es), w), id)
    ensures HasGap(Run(es), w, id)
  {
    var s := Run(es);
    RunKeeps(es);
    ReceivedWasRead(s, w, id);
    var received, read := Payloads(Wk(s, w).recv, id), Px(s, ClientOf(s, id)).sess[id].outward.read;
    FlattenPrefix(received, read);
    ShorterPrefix(Wk(s, w).sess[id].inward.toTarget, Flatten(received), Flatten(read));
  }

  lemma ShorterPrefix(a: Bytes, b: Bytes, c: Bytes)
    requires b <= c && |a| <= |b|
    ensures a <= c ==> a <= b
  {
  }

  // ---- such a run, from the start of the system ------------------------------------------------------

  /** What the run is about: one TCP session and the first two chunks its client sends. */
  datatype Tale = Tale(id: Id, p: nat, w: nat, target: Bytes, a: Bytes, b: Bytes) {
    predicate Ok() {
      |id| == ID_LEN && 0 < |a| <= P.READ_CHUNK && 0 < |b| <= P.READ_CHUNK && a[0] != b[0]
    }
    function Ask(): Wire { Text(Request(id, "group", target, "tcp")) }
    function Connect(): Wire { Binary(Packet(id, CMD_CONNECT, target)) }
    function Connected(): Wire { Binary(Packet(id, CMD_CONNECTED, [])) }
    function Data(chunk: Bytes): Wire { Binary(Packet(id, CMD_DATA, chunk)) }

    /** The proxy's session: asked for, told that it is connected, confirmed, and after each read. */
    function ProxyAt(stage: nat): P.State {
      var x := P.NewSession(target, false);
      var running := x.(phase := P.Running, confirmed := true);
      match stage
      case 0 => P.State(false, {id}, map[id := x], [], [Ask()])
      case 1 => P.State(false, {id}, map[id := x.(slot := P.Connected)], [Connected()], [Ask()])
      case 2 =>
        P.State(false, {id}, map[id := running.(outward := P.Outward(true, []))], [Connected()], [Ask()])
      case 3 =>
        P.State(false, {id}, map[id := running.(outward := P.Outward(true, [a]))],
                [Connected()], [Ask(), Data(a)])
      case _ =>
        P.State(false, {id}, map[id := running.(outward := P.Outward(true, [a, b]))],
                [Connected()], [Ask(), Data(a), Data(b)])
    }

    /** The worker's session: asked for, stored, dialled, announced, and after its target has ended. */
    function WorkerAt(stage: nat): W.State {
      var x := W.NewSession(target, false);
      var open := W.Life(W.Ready, true, false, true, true, false, true);
      var ready := x.(life := open, inward := x.inward.(on := true), outward := x.outward.(on := true));
      var told := ready.(outward := ready.outward.(announced := true));
      match stage
      case 0 => W.Init
      case 1 => W.State(false, [], {(id, target, false)}, map[], [Connect()], [])
      case 2 => W.State(false, [], {}, map[id := x], [Connect()], [])
      case 3 => W.State(false, [], {}, map[id := ready], [Connect()], [])
      case 4 => W.State(false, [], {}, map[id := told], [Connect()], [Connected()])
      case _ =>
        var ended := told.(life := open.(closed := true), outward := told.outward.(on := false));
        W.State(false, [], {}, map[id := ended], [Connect()], [Connected()])
    }

    function EventAt(n: nat): Event {
      match n
      case 0 => BrokerStep(B.WorkerRegister(w, "guid", "group", [], {}))
      case 1 => ProxyStep(p, P.Open(id, "group", target, "tcp", true))
      case 2 => BrokerFromProxy(p, true, true, [])
      case 3 => WorkerReceives(w, W.TakeQueue)
      case 4 => WorkerStep(w, W.Store(id, target, false))
      case 5 => WorkerStep(w, W.DialDone(id))
      case 6 => WorkerStep(w, W.SendConnected(id, true))
      case 7 => BrokerFromWorker(w, true)
      case 8 => ProxyReceives(p)
      case 9 => ProxyStep(p, P.Confirm(id, true, true))
      case 10 => ProxyStep(p, P.ClientRead(id, a, true))
      case 11 => ProxyStep(p, P.ClientRead(id, b, true))
      case 12 => BrokerFromProxy(p, true, true, [])
      case 13 => BrokerFromProxy(p, true, true, [])
      case _ => WorkerStep(w, W.ReaderExit(id))
    }

    function Script(n: nat): seq<Event> {
      if n == 0 then [] else Script(n - 1) + [EventAt(n - 1)]
    }

    /** What the proxy connection and the worker link are sent, in all. */
    function Up(): seq<Wire> { [Ask(), Data(a), Data(b)] }
    function Down(): seq<Wire> { [Connect(), Data(a), Data(b)] }
  }

  /** The proxy connection is at stage `i`, the worker link at stage `j`, the broker has handled `u` of the
      proxy's messages and `d` of the worker's, and it holds the session with its proxy open. */
  ghost predicate Looks(t: Tale, s: State, i: nat, j: nat, u: nat, d: nat) {
    && Px(s, t.p) == t.ProxyAt(i) && Wk(s, t.w) == t.WorkerAt(j)
    && t.id in s.broker.sessions && s.broker.sessions[t.id] == B.Session(t.p, t.w, "tcp") && t.p !in s.broker.closed
    && u <= 3 && d <= 1 && LogsAre(t, s.broker, u, d)
  }

  ghost predicate LogsAre(t: Tale, b: B.State, u: nat, d: nat)
    requires u <= 3 && d <= 1
  {
    && At(b.fromProxy, t.p) == t.Up()[..u] && At(b.toWorker, t.w) == t.Down()[..u]
    && At(b.fromWorker, t.w) == [t.Connected()][..d] && At(b.toProxy, t.p) == [t.Connected()][..d]
  }

  lemma Parses(t: Tale)
    requires t.Ok()
    ensures Carries(t.Connect(), t.id, CMD_CONNECT) && PayloadOf(t.Connect()) == t.target
    ensures Carries(t.Connected(), t.id, CMD_CONNECTED)
    ensures IsData(t.Data(t.a), t.id) && PayloadOf(t.Data(t.a)) == t.a
    ensures IsData(t.Data(t.b), t.id) && PayloadOf(t.Data(t.b)) == t.b
  {
    PacketParses(t.id, CMD_CONNECT, t.target);
    PacketParses(t.id, CMD_CONNECTED, []);
    PacketParses(t.id, CMD_DATA, t.a);
    PacketParses(t.id, CMD_DATA, t.b);
  }

  lemma ProxyOpens(t: Tale)
    requires t.Ok()
    ensures P.Next(P.Init, P.Open(t.id, "group", t.target, "tcp", true)) == t.ProxyAt(0)
  {
  }

  lemma ProxyHears(t: Tale)
    requires t.Ok()
    ensures P.Next(t.ProxyAt(0), P.Receive(t.Connected())) == t.ProxyAt(1)
  {
    Parses(t);
  }

  lemma ProxyConfirms(t: Tale)
    requires t.Ok()
    ensures P.Next(t.ProxyAt(1), P.Confirm(t.id, true, true)) == t.ProxyAt(2)
  {
  }

  lemma ProxyReads(t: Tale)
    requires t.Ok()
    ensures P.Next(t.ProxyAt(2), P.ClientRead(t.id, t.a, true)) == t.ProxyAt(3)
  {
    assert [] + [t.a] == [t.a];
    assert [t.Ask()] + [t.Data(t.a)] == [t.Ask(), t.Data(t.a)];
  }

  lemma ProxyReadsAgain(t: Tale)
    requires t.Ok()
    ensures P.Next(t.ProxyAt(3), P.ClientRead(t.id, t.b, true)) == t.ProxyAt(4)
  {
    assert [t.a] + [t.b] == [t.a, t.b];
    assert [t.Ask(), t.Data(t.a)] + [t.Data(t.b)] == [t.Ask(), t.Data(t.a), t.Data(t.b)];
  }

  lemma WorkerHears(t: Tale)
    requires t.Ok()
    ensures W.Next(t.WorkerAt(0), W.Receive(t.Connect(), W.TakeQueue)) == t.WorkerAt(1)
  {
    Parses(t);
  }

  lemma WorkerTale(t: Tale, j: nat)
    requires t.Ok() && 1 <= j <= 3
    ensures W.Next(t.WorkerAt(j), t.EventAt(j + 3).we) == t.WorkerAt(j + 1)
  {
  }

  lemma WorkerEnds(t: Tale)
    requires t.Ok()
    ensures W.Next(t.WorkerAt(4), W.ReaderExit(t.id)) == t.WorkerAt(5)
  {
  }

  lemma RegisterFirst(t: Tale)
    ensures var b := B.Next(B.Init, B.WorkerRegister(t.w, "guid", "group", [], {}));
            b == B.SetReg(B.Init, b.reg) && "group" in b.reg.groups && b.reg.groups["group"] == R.Group([t.w], 0)
  {
  }

  /** The registry lists the worker, and nothing else has happened to the broker. */
  predicate Registered(t: Tale, b: B.State) {
    b == B.SetReg(B.Init, b.reg) && "group" in b.reg.groups && b.reg.groups["group"] == R.Group([t.w], 0)
  }

  lemma BindsFirst(t: Tale, b: B.State)
    requires Registered(t, b) && t.Ok()
    ensures var c := B.Next(b, B.ProxyMessage(t.p, t.Ask(), true, true, [], []));
            && t.id in c.sessions && c.sessions[t.id] == B.Session(t.p, t.w, "tcp") && c.closed == {}
            && At(c.fromProxy, t.p) == [t.Ask()] && At(c.toWorker, t.w) == [t.Connect()]
            && At(c.fromWorker, t.w) == [] && At(c.toProxy, t.p) == []
  {
    assert R.Pick(b.reg, "group").1.value == t.w;
  }

  lemma AskIsSent(t: Tale)
    requires t.Ok()
    ensures var s := Next(Next(Init, t.EventAt(0)), t.EventAt(1));
            Registered(t, s.broker) && Px(s, t.p) == t.ProxyAt(0) && Wk(s, t.w) == W.Init
  {
    RegisterFirst(t);
    ProxyOpens(t);
  }

  lemma AskIsGranted(t: Tale, s: State)
    requires t.Ok() && Registered(t, s.broker) && Px(s, t.p) == t.ProxyAt(0) && Wk(s, t.w) == W.Init
    ensures Looks(t, Next(s, t.EventAt(2)), 0, 0, 1, 0)
  {
    BindsFirst(t, s.broker);
    assert BrokerEvent(s, t.EventAt(2)) == [B.ProxyMessage(t.p, t.Ask(), true, true, [], [])];
    assert t.Up()[..1] == [t.Ask()] && t.Down()[..1] == [t.Connect()];
  }

  lemma ProxyAdvances(t: Tale, s: State, i: nat, j: nat, u: nat, d: nat, e: P.Event)
    requires Looks(t, s, i, j, u, d) && !e.Receive? && !e.Open? && P.Next(t.ProxyAt(i), e) == t.ProxyAt(i + 1)
    ensures Looks(t, Next(s, ProxyStep(t.p, e)), i + 1, j, u, d)
  {
  }

  lemma ProxyIsTold(t: Tale, s: State, j: nat, u: nat)
    requires t.Ok() && Looks(t, s, 0, j, u, 1)
    ensures Looks(t, Next(s, ProxyReceives(t.p)), 1, j, u, 1)
  {
    assert At(s.broker.toProxy, t.p) == [t.Connected()];
    ProxyHears(t);
  }

  lemma WorkerAdvances(t: Tale, s: State, i: nat, j: nat, u: nat, d: nat, e: W.Event)
    requires Looks(t, s, i, j, u, d) && !e.Receive? && W.Next(t.WorkerAt(j), e) == t.WorkerAt(j + 1)
    ensures Looks(t, Next(s, WorkerStep(t.w, e)), i, j + 1, u, d)
  {
  }

  lemma WorkerIsAsked(t: Tale, s: State)
    requires t.Ok() && Looks(t, s, 0, 0, 1, 0)
    ensures Looks(t, Next(s, WorkerReceives(t.w, W.TakeQueue)), 0, 1, 1, 0)
  {
    assert At(s.broker.toWorker, t.w) == [t.Connect()];
    WorkerHears(t);
    ReceivesNext(s, t.w, W.TakeQueue);
  }

  lemma RelaysDown(b: B.State, p: nat, w: nat, id: Id, m: Wire)
    requires id in b.sessions && b.sessions[id] == B.Session(p, w, "tcp") && p !in b.closed
    requires Carries(m, id, CMD_CONNECTED)
    ensures B.Next(b, B.WorkerMessage(w, m, true))
         == b.(fromWorker := Append(b.fromWorker, w, m), toProxy := Append(b.toProxy, p, m))
  {
  }

  lemma ConnectedIsRelayed(t: Tale, s: State)
    requires t.Ok() && Looks(t, s, 0, 4, 1, 0)
    ensures Looks(t, Next(s, BrokerFromWorker(t.w, true)), 0, 4, 1, 1)
  {
    Parses(t);
    RelaysDown(s.broker, t.p, t.w, t.id, t.Connected());
    assert BrokerEvent(s, BrokerFromWorker(t.w, true)) == [B.WorkerMessage(t.w, t.Connected(), true)];
    assert [t.Connected()][..0] + [t.Connected()] == [t.Connected()][..1];
  }

  lemma RelaysUp(b: B.State, p: nat, w: nat, id: Id, m: Wire)
    requires id in b.sessions && b.sessions[id] == B.Session(p, w, "tcp") && IsData(m, id)
    ensures B.Next(b, B.ProxyMessage(p, m, true, true, [], []))
         == b.(fromProxy := Append(b.fromProxy, p, m), toWorker := Append(b.toWorker, w, m))
  {
    ReencodingIsIdentity(m);
  }

  lemma DataIsRelayed(t: Tale, s: State, u: nat)
    requires t.Ok() && Looks(t, s, 4, 4, u, 1) && 1 <= u < 3
    ensures Looks(t, Next(s, BrokerFromProxy(t.p, true, true, [])), 4, 4, u + 1, 1)
  {
    var m := t.Up()[u];
    assert IsData(m, t.id) by { Parses(t); }
    RelaysUp(s.broker, t.p, t.w, t.id, m);
    NextFromProxy(s, t.p, m);
    OneMoreLogged(t, s.broker, u);
  }

  lemma OneMoreLogged(t: Tale, b: B.State, u: nat)
    requires 1 <= u < 3 && LogsAre(t, b, u, 1)
    ensures var m := t.Up()[u];
            LogsAre(t, b.(fromProxy := Append(b.fromProxy, t.p, m), toWorker := Append(b.toWorker, t.w, m)), u + 1, 1)
  {
    var m := t.Up()[u];
    assert t.Up()[..u] + [m] == t.Up()[..u + 1] && t.Down()[..u] + [m] == t.Down()[..u + 1];
  }

  lemma NextFromProxy(s: State, p: nat, m: Wire)
    requires |At(s.broker.fromProxy, p)| < |Px(s, p).sent| && Px(s, p).sent[|At(s.broker.fromProxy, p)|] == m
    ensures Next(s, BrokerFromProxy(p, true, true, []))
         == s.(broker := B.Next(s.broker, B.ProxyMessage(p, m, true, true, [], [])))
  {
  }

  lemma ScriptStep(t: Tale, n: nat)
    ensures Run(t.Script(n + 1)) == Next(Run(t.Script(n)), t.EventAt(n))
  {
    OneMore(t.Script(n), t.EventAt(n));
  }

  /** The session is bound. */
  lemma BoundStage(t: Tale)
    requires t.Ok()
    ensures Looks(t, Run(t.Script(3)), 0, 0, 1, 0)
  {
    ScriptStep(t, 0);
    ScriptStep(t, 1);
    ScriptStep(t, 2);
    AskIsSent(t);
    AskIsGranted(t, Run(t.Script(2)));
  }

  /** The worker is asked, stores the session, dials and announces. */
  lemma {:induction false} WorkerStages(t: Tale, n: nat)
    requires t.Ok() && 4 <= n <= 7
    ensures Looks(t, Run(t.Script(n)), 0, n - 3, 1, 0)
  {
    ScriptStep(t, n - 1);
    var s := Run(t.Script(n - 1));
    if n == 4 {
      BoundStage(t);
      WorkerIsAsked(t, s);
    } else {
      WorkerStages(t, n - 1);
      WorkerTale(t, n - 4);
      WorkerAdvances(t, s, 0, n - 4, 1, 0, t.EventAt(n - 1).we);
    }
  }

  /** The proxy is told, confirms and reads twice from its client. */
  lemma {:induction false} ProxyStages(t: Tale, n: nat)
    requires t.Ok() && 9 <= n <= 12
    ensures Looks(t, Run(t.Script(n)), n - 8, 4, 1, 1)
  {
    ScriptStep(t, n - 1);
    if n == 9 {
      AnnouncedStage(t);
      ToldStage(t, Run(t.Script(8)));
    } else {
      ProxyStages(t, n - 1);
      ProxyStage(t, Run(t.Script(n - 1)), n - 9);
    }
  }

  lemma ToldStage(t: Tale, s: State)
    requires t.Ok() && Looks(t, s, 0, 4, 1, 1)
    ensures Looks(t, Next(s, t.EventAt(8)), 1, 4, 1, 1)
  {
    ProxyIsTold(t, s, 4, 1);
  }

  lemma ProxyStage(t: Tale, s: State, i: nat)
    requires t.Ok() && 1 <= i <= 3 && Looks(t, s, i, 4, 1, 1)
    ensures Looks(t, Next(s, t.EventAt(i + 8)), i + 1, 4, 1, 1)
  {
    ProxyTale(t, i);
    ProxyAdvances(t, s, i, 4, 1, 1, t.EventAt(i + 8).pe);
  }

  lemma ProxyTale(t: Tale, i: nat)
    requires t.Ok() && 1 <= i <= 3
    ensures P.Next(t.ProxyAt(i), t.EventAt(i + 8).pe) == t.ProxyAt(i + 1)
  {
    if i == 1 { ProxyConfirms(t); } else if i == 2 { ProxyReads(t); } else { ProxyReadsAgain(t); }
  }

  lemma AnnouncedStage(t: Tale)
    requires t.Ok()
    ensures Looks(t, Run(t.Script(8)), 0, 4, 1, 1)
  {
    ScriptStep(t, 7);
    WorkerStages(t, 7);
    ConnectedIsRelayed(t, Run(t.Script(7)));
  }

  /** The two chunks reach the worker's queue. */
  lemma {:induction false} RelayStages(t: Tale, n: nat)
    requires t.Ok() && 12 <= n <= 14
    ensures Looks(t, Run(t.Script(n)), 4, 4, n - 11, 1)
  {
    if n == 12 {
      ProxyStages(t, 12);
    } else {
      ScriptStep(t, n - 1);
      RelayStages(t, n - 1);
      RelayStage(t, Run(t.Script(n - 1)), n - 1);
    }
  }

  lemma RelayStage(t: Tale, s: State, n: nat)
    requires t.Ok() && 12 <= n <= 13 && Looks(t, s, 4, 4, n - 11, 1)
    ensures Looks(t, Next(s, t.EventAt(n)), 4, 4, n - 10, 1)
  {
    assert t.EventAt(n) == BrokerFromProxy(t.p, true, true, []);
    DataIsRelayed(t, s, n - 11);
  }

  /** The target ends its side. */
  lemma LastStage(t: Tale)
    requires t.Ok()
    ensures Looks(t, Run(t.Script(15)), 4, 5, 3, 1)
  {
    RelayStages(t, 14);
    TargetEnds(t, Run(t.Script(14)));
    ScriptStep(t, 14);
  }

  lemma TargetEnds(t: Tale, s: State)
    requires t.Ok() && Looks(t, s, 4, 4, 3, 1)
    ensures Looks(t, Next(s, t.EventAt(14)), 4, 5, 3, 1)
  {
    WorkerEnds(t);
    assert t.EventAt(14) == WorkerStep(t.w, W.ReaderExit(t.id));
    WorkerAdvances(t, s, 4, 4, 3, 1, W.ReaderExit(t.id));
  }

  lemma ReadyForGap(t: Tale, s: State)
    requires t.Ok() && Looks(t, s, 4, 5, 3, 1)
    ensures var y := Wk(s, t.w); G.Writable(y, t.id) && G.Closing(y, t.id) && G.Idle(y, t.id)
    ensures Pending(s, t.w, t.Data(t.a), t.Data(t.b))
  {
    assert t.Down()[..3] == t.Down();
  }

  /** A run from the start of the system, through open, connect, confirmation and two reads from the client,
      in which the target ends its side and then gets bytes that are no prefix of the client's. */
  lemma GapIsReachable(t: Tale)
    requires t.Ok()
    ensures exists es :: HasGap(Run(es), t.w, t.id)
  {
    var es := t.Script(15);
    LastStage(t);
    ReadyForGap(t, Run(es));
    Parses(t);
    GapFollows(es, t.w, t.id, t.Data(t.a), t.Data(t.b));
    assert HasGap(Run(WithGap(es, t.w, t.id)), t.w, t.id);
  }
}
