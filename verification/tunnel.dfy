/** The whole system: any number of proxy connections, one broker, any number of worker links, joined
    by FIFO websocket links. A system event is one event of one node; a node receives the next message
    of its peer's queue, in order, and messages are lost only by never being received. */
module Tunnel {
  import opened Frames
  import P = ProxyLink
  import W = WorkerLink
  import B = Broker
  import BP = BrokerProofs

  /** `used` records which connection opened each session id; ids are never reused. */
  datatype State = State(
    broker: B.State,
    proxies: map<nat, P.State>,
    workers: map<nat, W.State>,
    used: map<Id, nat>)

  const Init := State(B.Init, map[], map[], map[])

  function Px(s: State, p: nat): P.State {
    if p in s.proxies then s.proxies[p] else P.Init
  }

  function Wk(s: State, w: nat): W.State {
    if w in s.workers then s.workers[w] else W.Init
  }

  datatype Event =
    | ProxyStep(p: nat, pe: P.Event)
    | ProxyReceives(p: nat)
    | WorkerStep(w: nat, we: W.Event)
    | WorkerReceives(w: nat, choice: W.Choice)
    | BrokerStep(be: B.Event)
    | BrokerFromProxy(p: nat, sendOk: bool, writeOk: bool, errText: Bytes)
    | BrokerFromWorker(w: nat, writeOk: bool)

  ghost function Next(s: State, e: Event): State {
    match e
    case ProxyStep(p, pe) =>
      if pe.Receive? || (pe.Open? && pe.id in s.used) then s else
        s.(proxies := s.proxies[p := P.Next(Px(s, p), pe)],
           used := if pe.Open? then s.used[pe.id := p] else s.used)
    case ProxyReceives(p) =>
      var queue, n := At(s.broker.toProxy, p), |Px(s, p).recv|;
      if n >= |queue| then s else s.(proxies := s.proxies[p := P.Next(Px(s, p), P.Receive(queue[n]))])
    case WorkerStep(w, we) =>
      if we.Receive? then s else s.(workers := s.workers[w := W.Next(Wk(s, w), we)])
    case WorkerReceives(w, choice) =>
      var queue, n := At(s.broker.toWorker, w), |Wk(s, w).recv|;
      if n >= |queue| then s else s.(workers := s.workers[w := W.Next(Wk(s, w), W.Receive(queue[n], choice))])
    case _ =>
      var be := BrokerEvent(s, e);
      if be == [] then s else s.(broker := B.Next(s.broker, be[0]))
  }

  /** The event that a system event is to the broker, if it is one. */
  function BrokerEvent(s: State, e: Event): (r: seq<B.Event>)
    ensures |r| <= 1
  {
    match e
    case BrokerStep(be) => if be.ProxyMessage? || be.WorkerMessage? then [] else [be]
    case BrokerFromProxy(p, sendOk, writeOk, errText) =>
      var queue, n := Px(s, p).sent, |At(s.broker.fromProxy, p)|;
      if n >= |queue| then [] else [B.ProxyMessage(p, queue[n], sendOk, writeOk, [], errText)]
    case BrokerFromWorker(w, writeOk) =>
      var queue, n := Wk(s, w).sent, |At(s.broker.fromWorker, w)|;
      if n >= |queue| then [] else [B.WorkerMessage(w, queue[n], writeOk)]
    case _ => []
  }

  ghost function Run(es: seq<Event>): State {
    if es == [] then Init else Next(Run(es[..|es| - 1]), es[|es| - 1])
  }

  // ---- the invariant -----------------------------------------------------------------------

  /** What a node received is a prefix of what its peer queued. */
  ghost predicate Links(s: State) {
    && (forall p :: At(s.broker.fromProxy, p) <= Px(s, p).sent)
    && (forall p :: Px(s, p).recv <= At(s.broker.toProxy, p))
    && (forall w :: At(s.broker.fromWorker, w) <= Wk(s, w).sent)
    && (forall w :: Wk(s, w).recv <= At(s.broker.toWorker, w))
  }

  /** Each id belongs to the one connection that opened it, and the broker heard of it only there. */
  ghost predicate Ids(s: State) {
    && (forall p :: P.DistinctRequests(Px(s, p).sent))
    && (forall p, m :: m in Px(s, p).sent && m.Text? ==> m.req.id in s.used && s.used[m.req.id] == p)
    && (forall id :: id in s.broker.past.requested ==> HeardOf(s.broker, id))
  }

  ghost predicate HeardOf(b: B.State, id: Id) {
    exists p, m :: m in At(b.fromProxy, p) && m.Text? && m.req.id == id
  }

  ghost predicate ProxiesOk(s: State) {
    forall p, id :: P.Inv(Px(s, p), id)
  }

  ghost predicate WorkersOk(s: State) {
    forall w, id :: W.Inv(Wk(s, w), id)
  }

  /** No end sends data of a session before the broker has stored it. */
  ghost predicate NoEarlyData(b: B.State) {
    forall id :: id in b.past.early ==> b.past.early[id] == B.Early([], [])
  }

  ghost predicate Nodes(s: State) {
    BP.InvAll(s.broker) && NoEarlyData(s.broker) && ProxiesOk(s) && WorkersOk(s)
  }

  ghost predicate Inv(s: State) {
    Links(s) && Ids(s) && Nodes(s)
  }

  // ---- what follows from the nodes' invariants in one state -----------------------------------

  lemma HasInPrefix(a: seq<Wire>, b: seq<Wire>, id: Id, cmd: Byte)
    requires a <= b && Has(a, id, cmd)
    ensures Has(b, id, cmd)
  {
    var m :| m in a && Carries(m, id, cmd);
    MemberOfPrefix(a, b, m);
  }

  lemma DataInPrefix(a: seq<Wire>, b: seq<Wire>, id: Id)
    requires a <= b && HasData(a, id)
    ensures HasData(b, id)
  {
    var m :| m in a && IsData(m, id);
    MemberOfPrefix(a, b, m);
  }

  /** A message of session `id` in the broker's queue to a worker means the session is bound to it. */
  lemma ToWorkerMeansBound(s: State, w: nat, id: Id)
    requires Nodes(s) && Mentions(At(s.broker.toWorker, w), id)
    ensures id in s.broker.past.stored && s.broker.past.stored[id].worker == w
  {
    assert B.Inv(s.broker, id);
  }

  /** A frame of a session that a worker link has queued means the link stored the session, was asked
      to connect by the broker, and is its binding. */
  lemma WorkerFrameMeansBound(s: State, w: nat, id: Id)
    requires Links(s) && Nodes(s) && (id in Wk(s, w).sess || Mentions(Wk(s, w).sent, id))
    ensures id in Wk(s, w).sess
    ensures id in s.broker.past.stored && s.broker.past.stored[id].worker == w
    ensures id in s.broker.past.target && Wk(s, w).sess[id].target == s.broker.past.target[id]
    ensures Wk(s, w).sess[id].udp <==> s.broker.past.stored[id].mode == "udp"
  {
    assert W.Inv(Wk(s, w), id);
    var x := Wk(s, w).sess[id];
    var m :| m in Wk(s, w).recv && Connects(m, id, x.target, x.udp);
    MemberOfPrefix(Wk(s, w).recv, At(s.broker.toWorker, w), m);
    assert IsFor(m, id);
    ToWorkerMeansBound(s, w, id);
    assert B.Inv(s.broker, id);
  }

  /** Each queue of the broker holds a prefix of the data frames of the other end of the binding. */
  lemma RelayedWhole(s: State, id: Id)
    requires Nodes(s) && id in s.broker.past.stored
    ensures var b := s.broker;
            var x := b.past.stored[id];
            && DataFrames(At(b.toWorker, x.worker), id) <= DataFrames(At(b.fromProxy, x.proxy), id)
            && DataFrames(At(b.toProxy, x.proxy), id) <= DataFrames(At(b.fromWorker, x.worker), id)
            && (id in b.sessions ==>
                  && DataFrames(At(b.toWorker, x.worker), id) == DataFrames(At(b.fromProxy, x.proxy), id)
                  && DataFrames(At(b.toProxy, x.proxy), id) == DataFrames(At(b.fromWorker, x.worker), id))
  {
    var b := s.broker;
    var x := b.past.stored[id];
    assert B.Inv(b, id);
    assert B.Relayed(b, id);
    assert [] + DataFrames(At(b.toWorker, x.worker), id) == DataFrames(At(b.toWorker, x.worker), id);
    assert [] + DataFrames(At(b.toProxy, x.proxy), id) == DataFrames(At(b.toProxy, x.proxy), id);
  }

  /** A data or connected frame in the broker's queue to a proxy means the session is bound to it. */
  lemma ToProxyMeansBound(s: State, p: nat, id: Id, m: Wire)
    requires Nodes(s) && m in At(s.broker.toProxy, p) && IsFor(m, id) && CmdOf(m) != CMD_ERROR
    ensures id in s.broker.past.stored && s.broker.past.stored[id].proxy == p
  {
    assert B.Inv(s.broker, id);
  }

  /** `onConnected` runs only after the session's own worker dialled the requested target and stored
      the connection. */
  lemma ConfirmedMeansDialled(s: State, p: nat, id: Id)
    requires Inv(s) && id in Px(s, p).sess && Px(s, p).sess[id].confirmed
    ensures id in s.broker.past.stored && s.broker.past.stored[id].proxy == p
    ensures var w := s.broker.past.stored[id].worker;
            && id in Wk(s, w).sess && Wk(s, w).sess[id].life.hadConn
            && Wk(s, w).sess[id].target == Px(s, p).sess[id].target
  {
    var b := s.broker;
    assert P.Inv(Px(s, p), id);
    var m :| m in Px(s, p).recv && Carries(m, id, CMD_CONNECTED);
    MemberOfPrefix(Px(s, p).recv, At(b.toProxy, p), m);
    ToProxyMeansBound(s, p, id, m);
    assert B.Inv(b, id) && B.Handshake(b, id);
    var w := b.past.stored[id].worker;
    assert Has(At(b.toProxy, p), id, CMD_CONNECTED);
    HasInPrefix(At(b.fromWorker, w), Wk(s, w).sent, id, CMD_CONNECTED);
    var k :| k in Wk(s, w).sent && Carries(k, id, CMD_CONNECTED);
    assert IsFor(k, id);
    WorkerFrameMeansBound(s, w, id);
    assert W.Inv(Wk(s, w), id);
    var ask :| ask in At(b.fromProxy, p) && B.AsksFor(ask, id, b.past.target[id], b.past.stored[id].mode == "udp");
    MemberOfPrefix(At(b.fromProxy, p), Px(s, p).sent, ask);
    assert |ask.req.id| == ID_LEN;
  }

  /** A data frame of a session reaches the broker only from a connection that ran `onConnected`. */
  lemma DataMeansConfirmed(s: State, p: nat, id: Id)
    requires Inv(s) && HasData(At(s.broker.fromProxy, p), id)
    ensures id in Px(s, p).sess && Px(s, p).sess[id].confirmed
  {
    DataInPrefix(At(s.broker.fromProxy, p), Px(s, p).sent, id);
    assert P.Inv(Px(s, p), id);
    PayloadsIffData(Px(s, p).sent, id);
    var m :| m in Px(s, p).sent && IsData(m, id);
    assert IsFor(m, id) && Mentions(Px(s, p).sent, id);
  }

  /** No data frame of a session is even queued to a worker before that worker has stored the session
      and its connection. */
  lemma DataMeansStored(s: State, w: nat, id: Id)
    requires Inv(s) && HasData(At(s.broker.toWorker, w), id)
    ensures id in Wk(s, w).sess && Wk(s, w).sess[id].life.hadConn
  {
    var b := s.broker;
    var m :| m in At(b.toWorker, w) && IsData(m, id);
    assert IsFor(m, id);
    ToWorkerMeansBound(s, w, id);
    RelayedWhole(s, id);
    var p := b.past.stored[id].proxy;
    PayloadsIffData(At(b.toWorker, w), id);
    PayloadsIffData(At(b.fromProxy, p), id);
    DataMeansConfirmed(s, p, id);
    ConfirmedMeansDialled(s, p, id);
  }

  // ---- every system event keeps the invariant ---------------------------------------------

  lemma BoundMeansUsed(s: State, id: Id)
    requires Links(s) && Ids(s) && Nodes(s) && id in s.broker.past.stored
    ensures id in s.used
  {
    assert B.Inv(s.broker, id);
    var p, m :| m in At(s.broker.fromProxy, p) && m.Text? && m.req.id == id;
    MemberOfPrefix(At(s.broker.fromProxy, p), Px(s, p).sent, m);
  }

  lemma OpenIsFresh(s: State, p: nat, e: P.Event, id: Id)
    requires Inv(s) && (e.Open? ==> e.id !in s.used)
    ensures P.Fresh(Px(s, p), e, id)
  {
    if e.Open? && e.id == id {
      PayloadsIffData(Px(s, p).recv, id);
      if HasData(Px(s, p).recv, id) {
        var m :| m in Px(s, p).recv && IsData(m, id);
        MemberOfPrefix(Px(s, p).recv, At(s.broker.toProxy, p), m);
        ToProxyMeansBound(s, p, id, m);
        BoundMeansUsed(s, id);
        assert false;
      }
    }
  }

  lemma ProxyLogs(x: P.State, e: P.Event)
    requires !e.Receive?
    ensures x.sent <= P.Next(x, e).sent && P.Next(x, e).recv == x.recv
    ensures forall m :: m in P.Next(x, e).sent && m.Text? ==> m in x.sent || (e.Open? && m.req.id == e.id)
  {
  }

  // One proxy connection moves; the rest of the system stands still.

  ghost predicate OnlyProxy(s: State, t: State, p: nat) {
    t.broker == s.broker && t.workers == s.workers && forall q :: q != p ==> Px(t, q) == Px(s, q)
  }

  lemma ProxyMoveLinks(s: State, t: State, p: nat)
    requires Links(s) && OnlyProxy(s, t, p)
    requires At(s.broker.fromProxy, p) <= Px(t, p).sent && Px(t, p).recv <= At(s.broker.toProxy, p)
    ensures Links(t)
  {
    forall q ensures At(t.broker.fromProxy, q) <= Px(t, q).sent && Px(t, q).recv <= At(t.broker.toProxy, q) {
      assert q != p ==> Px(t, q) == Px(s, q);
    }
    assert forall w :: Wk(t, w) == Wk(s, w);
  }

  lemma ProxyMoveNodes(s: State, t: State, p: nat)
    requires Nodes(s) && OnlyProxy(s, t, p) && forall id :: P.Inv(Px(t, p), id)
    ensures Nodes(t)
  {
    forall q, id ensures P.Inv(Px(t, q), id) {
      assert q != p ==> Px(t, q) == Px(s, q);
      assert P.Inv(Px(s, q), id);
    }
    forall w, id ensures W.Inv(Wk(t, w), id) {
      assert Wk(t, w) == Wk(s, w) && W.Inv(Wk(s, w), id);
    }
  }

  ghost predicate Owned(x: P.State, p: nat, used: map<Id, nat>) {
    P.DistinctRequests(x.sent) && forall m :: m in x.sent && m.Text? ==> m.req.id in used && used[m.req.id] == p
  }

  lemma ProxyMoveIds(s: State, t: State, p: nat)
    requires Ids(s) && OnlyProxy(s, t, p) && Owned(Px(t, p), p, t.used)
    requires forall id :: id in s.used ==> id in t.used && t.used[id] == s.used[id]
    ensures Ids(t)
  {
    forall q ensures Owned(Px(t, q), q, t.used) {
      if q != p { assert Px(t, q) == Px(s, q) && P.DistinctRequests(Px(s, q).sent); }
    }
  }

  lemma ProxyStepKeeps(s: State, p: nat, e: P.Event)
    requires Inv(s)
    ensures Inv(Next(s, ProxyStep(p, e)))
  {
    if !e.Receive? && !(e.Open? && e.id in s.used) {
      var t := Next(s, ProxyStep(p, e));
      ProxyLogs(Px(s, p), e);
      ProxyMoveLinks(s, t, p);
      forall id ensures P.Inv(Px(t, p), id) {
        OpenIsFresh(s, p, e, id);
        assert P.Inv(Px(s, p), id);
        P.StepKeeps(Px(s, p), e, id);
      }
      ProxyMoveNodes(s, t, p);
      StillOwned(s, p, e);
      ProxyMoveIds(s, t, p);
    }
  }

  lemma StillOwned(s: State, p: nat, e: P.Event)
    requires Ids(s) && ProxiesOk(s) && !e.Receive? && !(e.Open? && e.id in s.used)
    ensures var t := Next(s, ProxyStep(p, e)); Owned(Px(t, p), p, t.used)
  {
    var x, t := Px(s, p), Next(s, ProxyStep(p, e));
    assert P.DistinctRequests(x.sent);
    P.RequestsStayDistinct(x, e);
    ProxyLogs(x, e);
    assert Px(t, p) == P.Next(x, e);
  }

  lemma ProxyReceivesKeeps(s: State, p: nat)
    requires Inv(s)
    ensures Inv(Next(s, ProxyReceives(p)))
  {
    var queue, n := At(s.broker.toProxy, p), |Px(s, p).recv|;
    if n < |queue| {
      var t := Next(s, ProxyReceives(p));
      ProxyReceiveLogs(Px(s, p), queue[n]);
      assert Px(s, p).recv + [queue[n]] <= queue;
      ProxyMoveLinks(s, t, p);
      forall id ensures P.Inv(Px(t, p), id) {
        assert P.Inv(Px(s, p), id);
        P.StepKeeps(Px(s, p), P.Receive(queue[n]), id);
      }
      ProxyMoveNodes(s, t, p);
      assert P.DistinctRequests(Px(s, p).sent);
      ProxyMoveIds(s, t, p);
    }
  }

  lemma ProxyReceiveLogs(x: P.State, m: Wire)
    ensures P.Next(x, P.Receive(m)).recv == x.recv + [m] && P.Next(x, P.Receive(m)).sent == x.sent
  {
  }

  // One worker link moves.

  ghost predicate OnlyWorker(s: State, t: State, w: nat) {
    t.broker == s.broker && t.proxies == s.proxies && t.used == s.used && forall v :: v != w ==> Wk(t, v) == Wk(s, v)
  }

  lemma WorkerMoveLinks(s: State, t: State, w: nat)
    requires Links(s) && OnlyWorker(s, t, w)
    requires At(s.broker.fromWorker, w) <= Wk(t, w).sent && Wk(t, w).recv <= At(s.broker.toWorker, w)
    ensures Links(t)
  {
    forall v ensures At(t.broker.fromWorker, v) <= Wk(t, v).sent && Wk(t, v).recv <= At(t.broker.toWorker, v) {
      assert v != w ==> Wk(t, v) == Wk(s, v);
    }
    assert forall p :: Px(t, p) == Px(s, p);
  }

  lemma WorkerMoveNodes(s: State, t: State, w: nat)
    requires Nodes(s) && OnlyWorker(s, t, w) && forall id :: W.Inv(Wk(t, w), id)
    ensures Nodes(t)
  {
    forall v, id ensures W.Inv(Wk(t, v), id) {
      assert v != w ==> Wk(t, v) == Wk(s, v);
      assert W.Inv(Wk(s, v), id);
    }
    forall p, id ensures P.Inv(Px(t, p), id) {
      assert Px(t, p) == Px(s, p) && P.Inv(Px(s, p), id);
    }
  }

  lemma WorkerMoveIds(s: State, t: State, w: nat)
    requires Ids(s) && OnlyWorker(s, t, w)
    ensures Ids(t)
  {
    assert forall p :: Px(t, p) == Px(s, p);
  }

  lemma WorkerLogs(x: W.State, e: W.Event)
    ensures x.sent <= W.Next(x, e).sent
    ensures e.Receive? ==> W.Next(x, e).sent == x.sent
                           && (W.Next(x, e).recv == x.recv + [e.m] || W.Next(x, e).recv == x.recv)
    ensures !e.Receive? ==> W.Next(x, e).recv == x.recv
  {
    if !e.Receive? && !e.Store? && !e.CloseLink? && e.id in x.sess {
      SessionStepLogs(x, e, e.id);
    }
  }

  lemma SessionStepLogs(x: W.State, e: W.Event, id: Id)
    requires id in x.sess
    ensures x.sent <= W.SessionStep(x, e, id).sent && W.SessionStep(x, e, id).recv == x.recv
  {
  }

  lemma WorkerMoveKeeps(s: State, w: nat, e: W.Event, t: State)
    requires Inv(s) && t == s.(workers := s.workers[w := W.Next(Wk(s, w), e)])
    requires e.Receive? ==> |Wk(s, w).recv| < |At(s.broker.toWorker, w)|
                            && e.m == At(s.broker.toWorker, w)[|Wk(s, w).recv|]
    ensures Inv(t)
  {
    WorkerLogs(Wk(s, w), e);
    WorkerMoveLinks(s, t, w);
    forall id ensures W.Inv(Wk(t, w), id) {
      if e.Receive? && IsData(e.m, id) {
        assert e.m in At(s.broker.toWorker, w);
        DataMeansStored(s, w, id);
      }
      assert W.Inv(Wk(s, w), id);
      W.StepKeeps(Wk(s, w), e, id);
    }
    WorkerMoveNodes(s, t, w);
    WorkerMoveIds(s, t, w);
  }

  // The broker moves.

  ghost predicate BrokerMoved(s: State, b: B.State) {
    && BP.Extends(s.broker.toProxy, b.toProxy) && BP.Extends(s.broker.toWorker, b.toWorker)
    && (forall p :: At(b.fromProxy, p) <= Px(s, p).sent)
    && (forall w :: At(b.fromWorker, w) <= Wk(s, w).sent)
  }

  lemma BrokerMoveLinks(s: State, b: B.State)
    requires Links(s) && BrokerMoved(s, b)
    ensures Links(s.(broker := b))
  {
    var t := s.(broker := b);
    forall p ensures At(b.fromProxy, p) <= Px(t, p).sent && Px(t, p).recv <= At(b.toProxy, p) {
      assert Px(t, p) == Px(s, p) && At(s.broker.toProxy, p) <= At(b.toProxy, p);
    }
    forall w ensures At(b.fromWorker, w) <= Wk(t, w).sent && Wk(t, w).recv <= At(b.toWorker, w) {
      assert Wk(t, w) == Wk(s, w) && At(s.broker.toWorker, w) <= At(b.toWorker, w);
    }
  }

  lemma BrokerMoveRest(s: State, b: B.State)
    requires Ids(s) && ProxiesOk(s) && WorkersOk(s) && forall id :: id in b.past.requested ==> HeardOf(b, id)
    ensures Ids(s.(broker := b)) && ProxiesOk(s.(broker := b)) && WorkersOk(s.(broker := b))
  {
    var t := s.(broker := b);
    assert forall p :: Px(t, p) == Px(s, p);
    assert forall w :: Wk(t, w) == Wk(s, w);
  }

  lemma BrokerMoveKeeps(s: State, b: B.State)
    requires Inv(s) && BP.InvAll(b) && NoEarlyData(b) && BrokerMoved(s, b)
    requires forall id :: id in b.past.requested ==> HeardOf(b, id)
    ensures Inv(s.(broker := b))
  {
    BrokerMoveLinks(s, b);
    BrokerMoveRest(s, b);
  }

  lemma BrokerStepKeeps(s: State, e: B.Event)
    requires Inv(s)
    ensures Inv(Next(s, BrokerStep(e)))
  {
    if !e.ProxyMessage? && !e.WorkerMessage? {
      assert Next(s, BrokerStep(e)) == s.(broker := B.Next(s.broker, e));
      BP.StepKeeps(s.broker, e);
      InternalMoved(s, e);
      HeardOfStays(s.broker, B.Next(s.broker, e));
      BrokerMoveKeeps(s, B.Next(s.broker, e));
    }
  }

  lemma InternalMoved(s: State, e: B.Event)
    requires Links(s) && !e.ProxyMessage? && !e.WorkerMessage?
    ensures var b := B.Next(s.broker, e);
            BrokerMoved(s, b) && b.fromProxy == s.broker.fromProxy && b.past == s.broker.past
  {
    BP.InternalGrows(s.broker, e);
    BP.KeepStored(s.broker, e);
  }

  /** The next request of a proxy is new to the broker, and no end has sent data of its session. */
  lemma RequestIsFresh(s: State, p: nat, id: Id)
    requires Inv(s)
    requires var n := |At(s.broker.fromProxy, p)|;
             n < |Px(s, p).sent| && Px(s, p).sent[n].Text? && Px(s, p).sent[n].req.id == id
    ensures id !in s.broker.past.requested
    ensures forall q :: DataFrames(At(s.broker.fromProxy, q), id) == []
    ensures forall w :: DataFrames(At(s.broker.fromWorker, w), id) == []
  {
    var b := s.broker;
    RequestIsNew(s, p, id);
    assert B.Inv(b, id);
    forall q ensures DataFrames(At(b.fromProxy, q), id) == [] {
      PayloadsIffData(At(b.fromProxy, q), id);
      if HasData(At(b.fromProxy, q), id) {
        DataMeansConfirmed(s, q, id);
        ConfirmedMeansDialled(s, q, id);
        assert false;
      }
    }
    forall w ensures DataFrames(At(b.fromWorker, w), id) == [] {
      PayloadsIffData(At(b.fromWorker, w), id);
      if HasData(At(b.fromWorker, w), id) {
        var m :| m in At(b.fromWorker, w) && IsData(m, id);
        MemberOfPrefix(At(b.fromWorker, w), Wk(s, w).sent, m);
        assert IsFor(m, id);
        WorkerFrameMeansBound(s, w, id);
        assert false;
      }
    }
  }

  lemma RequestIsNew(s: State, p: nat, id: Id)
    requires Links(s) && Ids(s)
    requires var n := |At(s.broker.fromProxy, p)|;
             n < |Px(s, p).sent| && Px(s, p).sent[n].Text? && Px(s, p).sent[n].req.id == id
    ensures id !in s.broker.past.requested
  {
    var b := s.broker;
    var n := |At(b.fromProxy, p)|;
    assert Px(s, p).sent[n] in Px(s, p).sent;
    forall q, m | m in At(b.fromProxy, q) && m.Text? ensures m.req.id != id {
      MemberOfPrefix(At(b.fromProxy, q), Px(s, q).sent, m);
      if q == p {
        var i :| 0 <= i < n && At(b.fromProxy, p)[i] == m;
        assert Px(s, p).sent[i] == m;
      }
    }
  }

  lemma FromProxyIsFresh(s: State, e: B.Event, p: nat)
    requires Inv(s) && e.ProxyMessage? && e.p == p && e.uuid == []
    requires |At(s.broker.fromProxy, p)| < |Px(s, p).sent| && e.m == Px(s, p).sent[|At(s.broker.fromProxy, p)|]
    ensures B.Fresh(s.broker, e) && NoEarlyData(B.Next(s.broker, e))
  {
    var b := s.broker;
    BP.StoredGrows(b, e);
    if e.m.Text? {
      assert e.m in Px(s, p).sent;
      RequestIsFresh(s, p, e.m.req.id);
      assert B.RequestId(e.m.req, []) == e.m.req.id;
    }
  }

  lemma HeardOfAfter(s: State, e: B.Event)
    requires Ids(s) && e.ProxyMessage? && e.uuid == []
    ensures forall id :: id in B.Next(s.broker, e).past.requested ==> HeardOf(B.Next(s.broker, e), id)
  {
    var b := B.Next(s.broker, e);
    BP.ProxyMessageGrows(s.broker, e);
    forall id | id in b.past.requested ensures HeardOf(b, id) {
      if id in s.broker.past.requested {
        var q, m :| m in At(s.broker.fromProxy, q) && m.Text? && m.req.id == id;
        assert m in At(b.fromProxy, q);
      } else {
        assert e.m in At(b.fromProxy, e.p);
      }
    }
  }

  lemma BrokerFromProxyKeeps(s: State, p: nat, sendOk: bool, writeOk: bool, errText: Bytes)
    requires Inv(s)
    ensures Inv(Next(s, BrokerFromProxy(p, sendOk, writeOk, errText)))
  {
    var queue, n := Px(s, p).sent, |At(s.broker.fromProxy, p)|;
    if n < |queue| {
      var e := B.ProxyMessage(p, queue[n], sendOk, writeOk, [], errText);
      var b := B.Next(s.broker, e);
      FromProxyIsFresh(s, e, p);
      BP.StepKeeps(s.broker, e);
      HeardOfAfter(s, e);
      FromProxyMoved(s, e);
      BrokerMoveKeeps(s, b);
    }
  }

  lemma FromProxyMoved(s: State, e: B.Event)
    requires Links(s) && e.ProxyMessage?
    requires |At(s.broker.fromProxy, e.p)| < |Px(s, e.p).sent| && e.m == Px(s, e.p).sent[|At(s.broker.fromProxy, e.p)|]
    ensures BrokerMoved(s, B.Next(s.broker, e))
  {
    var b := B.Next(s.broker, e);
    BP.ProxyMessageGrows(s.broker, e);
    forall q ensures At(b.fromProxy, q) <= Px(s, q).sent {
      assert At(s.broker.fromProxy, q) <= Px(s, q).sent;
    }
  }

  lemma BrokerFromWorkerKeeps(s: State, w: nat, writeOk: bool)
    requires Inv(s)
    ensures Inv(Next(s, BrokerFromWorker(w, writeOk)))
  {
    var queue, n := Wk(s, w).sent, |At(s.broker.fromWorker, w)|;
    if n < |queue| {
      var e := B.WorkerMessage(w, queue[n], writeOk);
      var b := B.Next(s.broker, e);
      assert Next(s, BrokerFromWorker(w, writeOk)) == s.(broker := b);
      FromWorkerMoved(s, e);
      BP.StepKeeps(s.broker, e);
      HeardOfStays(s.broker, b);
      BrokerMoveKeeps(s, b);
    }
  }

  lemma FromWorkerMoved(s: State, e: B.Event)
    requires Links(s) && e.WorkerMessage?
    requires |At(s.broker.fromWorker, e.w)| < |Wk(s, e.w).sent|
    requires e.m == Wk(s, e.w).sent[|At(s.broker.fromWorker, e.w)|]
    ensures var b := B.Next(s.broker, e);
            BrokerMoved(s, b) && b.fromProxy == s.broker.fromProxy && b.past == s.broker.past
  {
    var b := B.Next(s.broker, e);
    BP.KeepStored(s.broker, e);
    BP.WorkerMessageGrows(s.broker, e);
    forall v ensures At(b.fromWorker, v) <= Wk(s, v).sent {
      assert At(s.broker.fromWorker, v) <= Wk(s, v).sent;
    }
  }

  lemma HeardOfStays(b: B.State, c: B.State)
    requires c.fromProxy == b.fromProxy && c.past == b.past && forall id :: id in b.past.requested ==> HeardOf(b, id)
    ensures forall id :: id in c.past.requested ==> HeardOf(c, id)
  {
    forall id | id in c.past.requested ensures HeardOf(c, id) {
      assert HeardOf(b, id);
    }
  }

  lemma StepKeeps(s: State, e: Event)
    requires Inv(s)
    ensures Inv(Next(s, e))
  {
    match e
    case ProxyStep(p, pe) => ProxyStepKeeps(s, p, pe);
    case ProxyReceives(p) => ProxyReceivesKeeps(s, p);
    case WorkerStep(w, we) => if !we.Receive? { WorkerMoveKeeps(s, w, we, Next(s, e)); }
    case WorkerReceives(w, choice) =>
      var queue, n := At(s.broker.toWorker, w), |Wk(s, w).recv|;
      if n < |queue| { WorkerMoveKeeps(s, w, W.Receive(queue[n], choice), Next(s, e)); }
    case BrokerStep(be) => BrokerStepKeeps(s, be);
    case BrokerFromProxy(p, sendOk, writeOk, errText) => BrokerFromProxyKeeps(s, p, sendOk, writeOk, errText);
    case BrokerFromWorker(w, writeOk) => BrokerFromWorkerKeeps(s, w, writeOk);
  }

  lemma {:induction false} RunKeeps(es: seq<Event>)
    ensures Inv(Run(es))
  {
    if es == [] {
      InitOk();
    } else {
      RunKeeps(es[..|es| - 1]);
      StepKeeps(Run(es[..|es| - 1]), es[|es| - 1]);
    }
  }

  lemma InitOk()
    ensures Inv(Init)
  {
    BP.RunKeeps([]);
  }

  // ---- the theorems, over every run ----------------------------------------------------------

  /** In every run, the bytes written to a client are a prefix of the bytes that the session's own
      worker read from the target, through fragmentation, three queues, overflow and disconnects. */
  lemma ClientGetsPrefixOfTarget(es: seq<Event>, p: nat, id: Id)
    requires id in Px(Run(es), p).sess && Px(Run(es), p).sess[id].inward.written != []
    ensures var s := Run(es);
            && id in s.broker.past.stored && s.broker.past.stored[id].proxy == p
            && var w := s.broker.past.stored[id].worker;
               && id in Wk(s, w).sess
               && Px(s, p).sess[id].inward.written <= Wk(s, w).sess[id].outward.fromTarget
  {
    RunKeeps(es);
    ClientHasPrefix(Run(es), p, id);
  }

  lemma ClientHasPrefix(s: State, p: nat, id: Id)
    requires Inv(s) && id in Px(s, p).sess && Px(s, p).sess[id].inward.written != []
    ensures id in s.broker.past.stored && s.broker.past.stored[id].proxy == p
    ensures var w := s.broker.past.stored[id].worker;
            && id in Wk(s, w).sess
            && Px(s, p).sess[id].inward.written <= Wk(s, w).sess[id].outward.fromTarget
  {
    var i := Px(s, p).sess[id].inward;
    WrittenWasReceived(Px(s, p), id);
    ReceivedWasSent(s, p, id);
    var w := s.broker.past.stored[id].worker;
    assert i.taken <= Payloads(Wk(s, w).sent, id);
    FlattenPrefix(i.taken, Payloads(Wk(s, w).sent, id));
    SentWasRead(Wk(s, w), id);
  }

  lemma WrittenWasReceived(x: P.State, id: Id)
    requires P.Inv(x, id) && id in x.sess
    ensures var i := x.sess[id].inward; i.written <= Flatten(i.taken) && i.taken <= Payloads(x.recv, id)
    ensures x.sess[id].inward.written != [] ==> HasData(x.recv, id)
  {
    var i := x.sess[id].inward;
    FlattenPrefix(i.taken, Payloads(x.recv, id));
    PayloadsIffData(x.recv, id);
    assert Flatten([]) == [];
  }

  lemma SentWasRead(y: W.State, id: Id)
    requires W.Inv(y, id) && id in y.sess
    ensures Flatten(Payloads(y.sent, id)) <= y.sess[id].outward.fromTarget
  {
  }

  /** Payloads that reached a proxy are the first of those its session's worker sent. */
  lemma ReceivedWasSent(s: State, p: nat, id: Id)
    requires Inv(s) && HasData(Px(s, p).recv, id)
    ensures id in s.broker.past.stored && s.broker.past.stored[id].proxy == p
    ensures var w := s.broker.past.stored[id].worker;
            id in Wk(s, w).sess && Payloads(Px(s, p).recv, id) <= Payloads(Wk(s, w).sent, id)
  {
    var b := s.broker;
    var m :| m in Px(s, p).recv && IsData(m, id);
    MemberOfPrefix(Px(s, p).recv, At(b.toProxy, p), m);
    ToProxyMeansBound(s, p, id, m);
    var w := b.past.stored[id].worker;
    DataReachedProxy(s, p, id);
    RelayedWhole(s, id);
    PayloadsPrefix(Px(s, p).recv, At(b.toProxy, p), id);
    FramePrefixGivesPayloadPrefix(At(b.toProxy, p), At(b.fromWorker, w), id);
    PayloadsPrefix(At(b.fromWorker, w), Wk(s, w).sent, id);
  }

  lemma DataReachedProxy(s: State, p: nat, id: Id)
    requires Inv(s) && HasData(Px(s, p).recv, id) && id in s.broker.past.stored && s.broker.past.stored[id].proxy == p
    ensures id in Wk(s, s.broker.past.stored[id].worker).sess
  {
    var b := s.broker;
    var w := b.past.stored[id].worker;
    RelayedWhole(s, id);
    DataInPrefix(Px(s, p).recv, At(b.toProxy, p), id);
    PayloadsIffData(At(b.toProxy, p), id);
    PayloadsIffData(At(b.fromWorker, w), id);
    var m :| m in At(b.fromWorker, w) && IsData(m, id);
    MemberOfPrefix(At(b.fromWorker, w), Wk(s, w).sent, m);
    assert IsFor(m, id);
    WorkerFrameMeansBound(s, w, id);
  }

  /** The proxy connection that a worker's session is bound to. */
  function ClientOf(s: State, id: Id): nat {
    if id in s.broker.past.stored then s.broker.past.stored[id].proxy else 0
  }

  /** What was written to the target of a session is a prefix of what its proxy read from the client. */
  ghost predicate TargetHasPrefix(s: State, w: nat, id: Id)
    requires id in Wk(s, w).sess
  {
    && id in s.broker.past.stored && s.broker.past.stored[id].worker == w
    && id in Px(s, ClientOf(s, id)).sess
    && Wk(s, w).sess[id].inward.toTarget <= Flatten(Px(s, ClientOf(s, id)).sess[id].outward.read)
  }

  /** In every run, unless the worker turned a data frame of the session away through a closed `done`
      while its connection could still be written, the bytes written to the target are a prefix of the
      bytes the session's own proxy read from its client. */
  lemma TargetGetsPrefixOfClient(es: seq<Event>, w: nat, id: Id)
    requires id in Wk(Run(es), w).sess && !Wk(Run(es), w).sess[id].inward.refused
    ensures TargetHasPrefix(Run(es), w, id)
  {
    var s := Run(es);
    RunKeeps(es);
    ReceivedWasRead(s, w, id);
    WrittenToTarget(Wk(s, w), id);
    FlattenPrefix(Payloads(Wk(s, w).recv, id), Px(s, ClientOf(s, id)).sess[id].outward.read);
  }

  /** In particular while neither the link nor the session has begun to close. */
  lemma TargetPrefixWhileOpen(es: seq<Event>, w: nat, id: Id)
    requires id in Wk(Run(es), w).sess && !Wk(Run(es), w).done && !Wk(Run(es), w).sess[id].life.closed
    ensures TargetHasPrefix(Run(es), w, id)
  {
    RunKeeps(es);
    assert W.Inv(Wk(Run(es), w), id);
    TargetGetsPrefixOfClient(es, w, id);
  }

  lemma WrittenToTarget(y: W.State, id: Id)
    requires W.Inv(y, id) && id in y.sess && !y.sess[id].inward.refused
    ensures y.sess[id].inward.toTarget <= Flatten(Payloads(y.recv, id))
  {
    var i := y.sess[id].inward;
    assert i.toTarget <= i.toTarget + i.writing;
  }

  /** A session of a worker was asked for by the proxy it is bound to. */
  lemma SessionWasAsked(s: State, w: nat, id: Id)
    requires Inv(s) && id in Wk(s, w).sess
    ensures id in s.broker.past.stored && s.broker.past.stored[id].worker == w && id in Px(s, ClientOf(s, id)).sess
  {
    var b := s.broker;
    WorkerFrameMeansBound(s, w, id);
    var p := b.past.stored[id].proxy;
    assert B.Inv(b, id);
    var ask :| ask in At(b.fromProxy, p) && B.AsksFor(ask, id, b.past.target[id], b.past.stored[id].mode == "udp");
    MemberOfPrefix(At(b.fromProxy, p), Px(s, p).sent, ask);
    assert P.DistinctRequests(Px(s, p).sent);
    assert P.Inv(Px(s, p), id);
    assert P.Asked(Px(s, p).sent, id);
  }

  /** Payloads that reached a worker are the first of those its session's proxy read. */
  lemma ReceivedWasRead(s: State, w: nat, id: Id)
    requires Inv(s) && id in Wk(s, w).sess
    ensures id in s.broker.past.stored && s.broker.past.stored[id].worker == w && id in Px(s, ClientOf(s, id)).sess
    ensures Payloads(Wk(s, w).recv, id) <= Px(s, ClientOf(s, id)).sess[id].outward.read
  {
    var b := s.broker;
    SessionWasAsked(s, w, id);
    var p := b.past.stored[id].proxy;
    RelayedWhole(s, id);
    PayloadsPrefix(Wk(s, w).recv, At(b.toWorker, w), id);
    FramePrefixGivesPayloadPrefix(At(b.toWorker, w), At(b.fromProxy, p), id);
    PayloadsPrefix(At(b.fromProxy, p), Px(s, p).sent, id);
    assert P.Inv(Px(s, p), id);
  }

  /** In every run, `onConnected` was run for a session only if the session's own worker dialled the
      target the proxy asked for and stored the connection. */
  lemma OnConnectedMeansDialled(es: seq<Event>, p: nat, id: Id)
    requires id in Px(Run(es), p).sess && Px(Run(es), p).sess[id].confirmed
    ensures var s := Run(es);
            && id in s.broker.past.stored && s.broker.past.stored[id].proxy == p
            && var w := s.broker.past.stored[id].worker;
               && id in Wk(s, w).sess && Wk(s, w).sess[id].life.hadConn
               && Wk(s, w).sess[id].target == Px(s, p).sess[id].target
  {
    RunKeeps(es);
    ConfirmedMeansDialled(Run(es), p, id);
  }

  /** In every run, a data frame of a session that has reached a worker found the session stored there,
      with its connection. */
  lemma NoDataBeforeStore(es: seq<Event>, w: nat, id: Id)
    requires HasData(Wk(Run(es), w).recv, id)
    ensures id in Wk(Run(es), w).sess && Wk(Run(es), w).sess[id].life.hadConn
  {
    var s := Run(es);
    RunKeeps(es);
    DataInPrefix(Wk(s, w).recv, At(s.broker.toWorker, w), id);
    DataMeansStored(s, w, id);
  }

  // ---- the broker's theorems, in the system --------------------------------------------------------

  /** The events of a run that are events of the broker. */
  ghost function BrokerEvents(es: seq<Event>): seq<B.Event> {
    if es == [] then [] else
      var n := |es| - 1;
      BrokerEvents(es[..n]) + BrokerEvent(Run(es[..n]), es[n])
  }

  /** The broker of the system runs as it does on its own, and no request it handles reuses an id. */
  lemma {:induction false} BrokerPart(es: seq<Event>)
    ensures BP.NoReuse(BrokerEvents(es)) && BP.Run(BrokerEvents(es)) == Run(es).broker
  {
    if es != [] {
      var n := |es| - 1;
      BrokerPart(es[..n]);
      RunKeeps(es[..n]);
      BrokerPartStep(BrokerEvents(es[..n]), Run(es[..n]), es[n]);
    }
  }

  lemma BrokerPartStep(front: seq<B.Event>, s: State, e: Event)
    requires BP.NoReuse(front) && BP.Run(front) == s.broker && Inv(s)
    ensures BP.NoReuse(front + BrokerEvent(s, e)) && BP.Run(front + BrokerEvent(s, e)) == Next(s, e).broker
  {
    var be := BrokerEvent(s, e);
    BrokerNext(s, e);
    if be == [] {
      assert front + be == front;
    } else {
      BrokerEventIsFresh(s, e);
      BP.OneMore(front, be[0]);
      assert front + be == front + [be[0]];
    }
  }

  lemma BrokerNext(s: State, e: Event)
    ensures var be := BrokerEvent(s, e); Next(s, e).broker == if be == [] then s.broker else B.Next(s.broker, be[0])
  {
  }

  lemma BrokerEventIsFresh(s: State, e: Event)
    requires Inv(s) && BrokerEvent(s, e) != []
    ensures B.Fresh(s.broker, BrokerEvent(s, e)[0])
  {
    if e.BrokerFromProxy? {
      FromProxyIsFresh(s, BrokerEvent(s, e)[0], e.p);
    }
  }

  /** No session is lost silently, in every run of the system. */
  lemma NoSilentLoss(es: seq<Event>, id: Id)
    ensures var b := Run(es).broker;
            id in b.past.stored ==>
              var p := b.past.stored[id].proxy;
              || id in b.sessions
              || Has(At(b.fromProxy, p), id, CMD_CLOSE)
              || p in b.closed
              || Has(At(b.toProxy, p), id, CMD_CLOSE)
              || Has(At(b.toProxy, p), id, CMD_ERROR)
  {
    BrokerPart(es);
    BP.NoSilentLoss(BrokerEvents(es), id);
  }

  /** Frames of a session go only to its two ends, and each end gets a prefix of all data frames that the
      other ever sent, byte for byte, in every run of the system. */
  lemma SessionsAreIsolated(es: seq<Event>, id: Id)
    ensures var b := Run(es).broker;
            id in b.past.stored ==>
              var x := b.past.stored[id];
              && (forall w :: w != x.worker ==> !Mentions(At(b.toWorker, w), id))
              && (forall p :: p != x.proxy ==> !Mentions(At(b.toProxy, p), id))
              && DataFrames(At(b.toWorker, x.worker), id) <= DataFrames(Px(Run(es), x.proxy).sent, id)
              && DataFrames(At(b.toProxy, x.proxy), id) <= DataFrames(Wk(Run(es), x.worker).sent, id)
  {
    var s := Run(es);
    RunKeeps(es);
    if id in s.broker.past.stored {
      var x := s.broker.past.stored[id];
      assert B.Inv(s.broker, id) && B.Isolated(s.broker, id);
      RelayedWhole(s, id);
      FramesPrefix(At(s.broker.fromProxy, x.proxy), Px(s, x.proxy).sent, id);
      FramesPrefix(At(s.broker.fromWorker, x.worker), Wk(s, x.worker).sent, id);
    }
  }

  /** Live ends, in every run of the system; `k` is the event of the broker that stored the session. */
  lemma EndsAreLive(es: seq<Event>, k: nat, id: Id)
    ensures BP.BoundAt(BrokerEvents(es), k, id) && id in Run(es).broker.sessions ==>
              var b := Run(es).broker;
              var x := b.sessions[id];
              && x.worker !in b.reg.removed && x.worker in b.reg.guidOf
              && (x.proxy in b.closed <==> x.proxy in BP.Run(BrokerEvents(es)[..k]).closed)
  {
    BrokerPart(es);
    BP.EndsAreLive(BrokerEvents(es), k, id);
  }

  /** A binding is the same in every continuation of a run of the system. */
  lemma BindingNeverChanges(es: seq<Event>, k: nat, id: Id)
    requires k <= |es|
    ensures id in Run(es[..k]).broker.past.stored ==>
              && id in Run(es).broker.past.stored
              && Run(es).broker.past.stored[id] == Run(es[..k]).broker.past.stored[id]
  {
    BrokerPart(es);
    var n := BrokerAt(es, k);
    BP.BindingNeverChanges(BrokerEvents(es), n, id);
  }

  /** The broker after `k` events of the system has handled the first `n` of its own. */
  lemma BrokerAt(es: seq<Event>, k: nat) returns (n: nat)
    requires k <= |es|
    ensures n <= |BrokerEvents(es)| && BP.Run(BrokerEvents(es)[..n]) == Run(es[..k]).broker
  {
    BrokerPart(es[..k]);
    EventsOfPrefix(es, k);
    n := |BrokerEvents(es[..k])|;
    assert BrokerEvents(es)[..n] == BrokerEvents(es[..k]);
  }

  lemma {:induction false} EventsOfPrefix(es: seq<Event>, k: nat)
    requires k <= |es|
    ensures BrokerEvents(es[..k]) <= BrokerEvents(es)
  {
    if k == |es| {
      assert es[..k] == es;
    } else {
      var n := |es| - 1;
      EventsOfPrefix(es[..n], k);
      assert es[..n][..k] == es[..k];
    }
  }
}
