/** Every event of the broker keeps `Broker.Inv` for every session id. */
module BrokerProofs {
  import opened Frames
  import opened Broker
  import R = Registry

  // ---- events that do not concern session `id` ------------------------------------------

  /** For session `id` the two logs say the same. */
  ghost predicate Agree(a: seq<Wire>, b: seq<Wire>, id: Id) {
    && DataFrames(a, id) == DataFrames(b, id)
    && (forall m :: IsFor(m, id) ==> (m in a <==> m in b))
    && (forall m :: m in a ==> m in b)
  }

  ghost predicate AgreeLogs(a: Logs, b: Logs, id: Id) {
    forall k :: Agree(At(a, k), At(b, k), id)
  }

  ghost predicate Same(b: State, c: State, id: Id) {
    && (id in b.sessions <==> id in c.sessions)
    && (id in b.sessions ==> b.sessions[id] == c.sessions[id])
    && (id in b.past.stored <==> id in c.past.stored)
    && (id in b.past.stored ==> b.past.stored[id] == c.past.stored[id])
    && (id in b.past.target <==> id in c.past.target)
    && (id in b.past.target ==> b.past.target[id] == c.past.target[id])
    && (id in b.past.early <==> id in c.past.early)
    && (id in b.past.early ==> b.past.early[id] == c.past.early[id])
    && (id in b.past.requested ==> id in c.past.requested)
    && (id in b.past.late <==> id in c.past.late)
    && (forall a :: a in c.asyncCloses && a.0 == id ==> a in b.asyncCloses)
    && b.closed == c.closed
    && (id in b.sessions && b.sessions[id].worker in c.reg.removed ==> b.sessions[id].worker in b.reg.removed)
    && (id in b.sessions && b.sessions[id].worker in b.reg.guidOf ==> b.sessions[id].worker in c.reg.guidOf)
    && AgreeLogs(b.fromProxy, c.fromProxy, id) && AgreeLogs(b.toProxy, c.toProxy, id)
    && AgreeLogs(b.fromWorker, c.fromWorker, id) && AgreeLogs(b.toWorker, c.toWorker, id)
  }

  lemma SameKeeps(b: State, c: State, id: Id)
    requires Core(b, id) && Same(b, c, id)
    ensures Core(c, id) && (LiveEnds(b, id) ==> LiveEnds(c, id))
  {
    if id in b.past.stored {
      SameIsolated(b, c, id);
      SameRelayed(b, c, id);
      SameHandshake(b, c, id);
      SameAccounted(b, c, id);
    } else {
      SameUnbound(b, c, id);
    }
  }

  lemma SameMentions(a: Logs, b: Logs, id: Id, k: nat)
    requires AgreeLogs(a, b, id)
    ensures Mentions(At(a, k), id) <==> Mentions(At(b, k), id)
  {
    assert Agree(At(a, k), At(b, k), id);
  }

  lemma SameHas(a: Logs, b: Logs, id: Id, k: nat, cmd: Byte)
    requires AgreeLogs(a, b, id)
    ensures Has(At(a, k), id, cmd) <==> Has(At(b, k), id, cmd)
  {
    assert Agree(At(a, k), At(b, k), id);
  }

  lemma SameIsolated(b: State, c: State, id: Id)
    requires id in b.past.stored && Isolated(b, id) && Same(b, c, id)
    ensures Isolated(c, id)
  {
    forall w ensures Mentions(At(b.toWorker, w), id) <==> Mentions(At(c.toWorker, w), id) {
      SameMentions(b.toWorker, c.toWorker, id, w);
    }
    forall p ensures Mentions(At(b.toProxy, p), id) <==> Mentions(At(c.toProxy, p), id) {
      SameMentions(b.toProxy, c.toProxy, id, p);
    }
  }

  lemma SameRelayed(b: State, c: State, id: Id)
    requires id in b.past.stored && Relayed(b, id) && Same(b, c, id)
    ensures Relayed(c, id)
  {
    var s := b.past.stored[id];
    assert Agree(At(b.fromProxy, s.proxy), At(c.fromProxy, s.proxy), id);
    assert Agree(At(b.toProxy, s.proxy), At(c.toProxy, s.proxy), id);
    assert Agree(At(b.fromWorker, s.worker), At(c.fromWorker, s.worker), id);
    assert Agree(At(b.toWorker, s.worker), At(c.toWorker, s.worker), id);
  }

  lemma SameHandshake(b: State, c: State, id: Id)
    requires id in b.past.stored && Handshake(b, id) && Same(b, c, id)
    ensures Handshake(c, id)
  {
    var s := b.past.stored[id];
    assert Agree(At(b.fromProxy, s.proxy), At(c.fromProxy, s.proxy), id);
    var m :| m in At(b.fromProxy, s.proxy) && AsksFor(m, id, b.past.target[id], s.mode == "udp");
    assert m in At(c.fromProxy, s.proxy);
    assert Agree(At(b.toWorker, s.worker), At(c.toWorker, s.worker), id);
    SameHas(b.toProxy, c.toProxy, id, s.proxy, CMD_CONNECTED);
    SameHas(b.fromWorker, c.fromWorker, id, s.worker, CMD_CONNECTED);
  }

  lemma SameAccounted(b: State, c: State, id: Id)
    requires id in b.past.stored && Accounted(b, id) && Same(b, c, id)
    ensures Accounted(c, id)
  {
    var p := b.past.stored[id].proxy;
    SameHas(b.fromProxy, c.fromProxy, id, p, CMD_CLOSE);
    SameHas(b.toProxy, c.toProxy, id, p, CMD_CLOSE);
    SameHas(b.toProxy, c.toProxy, id, p, CMD_ERROR);
  }

  lemma SameUnbound(b: State, c: State, id: Id)
    requires Unbound(b, id) && Same(b, c, id)
    ensures Unbound(c, id)
  {
    forall w ensures !Mentions(At(c.toWorker, w), id) {
      SameMentions(b.toWorker, c.toWorker, id, w);
    }
    forall p ensures Mentions(At(c.toProxy, p), id) ==> id in c.past.requested {
      SameMentions(b.toProxy, c.toProxy, id, p);
    }
    forall p, m | m in At(c.toProxy, p) && IsFor(m, id) ensures CmdOf(m) == CMD_ERROR {
      assert Agree(At(b.toProxy, p), At(c.toProxy, p), id);
      assert m in At(b.toProxy, p);
    }
  }

  lemma AgreeAppend(logs: Logs, k: nat, m: Wire, id: Id)
    requires !IsFor(m, id)
    ensures AgreeLogs(logs, Append(logs, k, m), id)
  {
    DataFramesAppend(At(logs, k), m, id);
  }

  lemma AgreeRefl(logs: Logs, id: Id)
    ensures AgreeLogs(logs, logs, id)
  {
  }

  lemma AgreeAll(b: State, id: Id)
    ensures AgreeLogs(b.fromProxy, b.fromProxy, id) && AgreeLogs(b.toProxy, b.toProxy, id)
    ensures AgreeLogs(b.fromWorker, b.fromWorker, id) && AgreeLogs(b.toWorker, b.toWorker, id)
  {
    AgreeRefl(b.fromProxy, id);
    AgreeRefl(b.toProxy, id);
    AgreeRefl(b.fromWorker, id);
    AgreeRefl(b.toWorker, id);
  }

  lemma WriteOther(b: State, p: nat, m: Wire, writeOk: bool, id: Id)
    requires Inv(b, id) && !IsFor(m, id)
    ensures Inv(Write(b, p, m, writeOk), id)
  {
    if !WriteFails(b, p, writeOk) {
      var c := b.(toProxy := Append(b.toProxy, p, m));
      AgreeAll(b, id);
      AgreeAppend(b.toProxy, p, m, id);
      SameKeeps(b, c, id);
    }
  }

  lemma SendOther(b: State, w: nat, m: Wire, sendOk: bool, id: Id)
    requires Inv(b, id) && !IsFor(m, id)
    ensures Inv(Send(b, w, m, sendOk), id)
  {
    if sendOk {
      AgreeAll(b, id);
      AgreeAppend(b.toWorker, w, m, id);
      SameKeeps(b, b.(toWorker := Append(b.toWorker, w, m)), id);
    }
  }

  lemma FromProxyOther(b: State, p: nat, m: Wire, id: Id)
    requires Inv(b, id) && !IsFor(m, id)
    ensures Inv(FromProxy(b, p, m), id)
  {
    AgreeAll(b, id);
    AgreeAppend(b.fromProxy, p, m, id);
    SameKeeps(b, FromProxy(b, p, m), id);
  }

  lemma FromWorkerOther(b: State, w: nat, m: Wire, id: Id)
    requires Inv(b, id) && !IsFor(m, id)
    ensures Inv(FromWorker(b, w, m), id)
  {
    AgreeAll(b, id);
    AgreeAppend(b.fromWorker, w, m, id);
    SameKeeps(b, FromWorker(b, w, m), id);
  }

  lemma PacketIsFor(x: Id, cmd: Byte, data: Bytes)
    ensures var m := Binary(Packet(x, cmd, data));
            IsFrame(m) && CmdOf(m) == cmd && PayloadOf(m) == data && (|x| == ID_LEN ==> IdOf(m) == x)
  {
    PacketParses(IdField(x), cmd, data);
    assert Packet(IdField(x), cmd, data) == Packet(x, cmd, data);
  }

  lemma DeleteOther(b: State, x: Id, id: Id)
    requires Core(b, id) && x != id
    ensures Core(Delete(b, x), id) && (LiveEnds(b, id) ==> LiveEnds(Delete(b, x), id))
  {
    AgreeAll(b, id);
    SameKeeps(b, Delete(b, x), id);
  }

  // ---- frames of session `id` itself ----------------------------------------------------

  /** What a message does to a log, as seen by session `id`. */
  lemma Appended(logs: Logs, k: nat, m: Wire, id: Id)
    ensures var r := Append(logs, k, m);
            && DataFrames(At(r, k), id) == DataFrames(At(logs, k), id) + (if IsData(m, id) then [m] else [])
            && (forall x :: x in At(r, k) <==> x in At(logs, k) || x == m)
            && (forall cmd :: Has(At(r, k), id, cmd) <==> Has(At(logs, k), id, cmd) || Carries(m, id, cmd))
  {
    DataFramesAppend(At(logs, k), m, id);
    var r := Append(logs, k, m);
    forall cmd ensures Has(At(r, k), id, cmd) <==> Has(At(logs, k), id, cmd) || Carries(m, id, cmd) {
      assert m in At(r, k);
      if Has(At(logs, k), id, cmd) {
        var x :| x in At(logs, k) && Carries(x, id, cmd);
        assert x in At(r, k);
      }
    }
  }

  /** A frame of `id` that is recorded as received and not relayed. */
  lemma ProxyFrameNotRelayed(b: State, p: nat, m: Wire, id: Id)
    requires Inv(b, id) && IsFor(m, id)
    requires id in b.sessions && b.sessions[id].proxy == p ==> !IsData(m, id)
    ensures Inv(FromProxy(b, p, m), id)
  {
    var c := FromProxy(b, p, m);
    Appended(b.fromProxy, p, m, id);
    if id in b.past.stored {
      var s := b.past.stored[id];
      var ask :| ask in At(b.fromProxy, s.proxy) && AsksFor(ask, id, b.past.target[id], s.mode == "udp");
      assert ask in At(c.fromProxy, s.proxy);
    }
  }

  lemma ProxyDataRelayed(b: State, p: nat, m: Wire, id: Id)
    requires Inv(b, id) && IsData(m, id) && id in b.sessions && b.sessions[id].proxy == p
    ensures Inv(Send(FromProxy(b, p, m), b.sessions[id].worker, m, true), id)
  {
    RelayedUp(b, p, m, id);
    IsolatedUp(b, p, m, id);
    HandshakeUp(b, p, m, id);
  }

  lemma HandshakeUp(b: State, p: nat, m: Wire, id: Id)
    requires Inv(b, id) && IsData(m, id) && id in b.sessions && b.sessions[id].proxy == p
    ensures Handshake(Send(FromProxy(b, p, m), b.sessions[id].worker, m, true), id)
  {
    var ask :| ask in At(b.fromProxy, p) && AsksFor(ask, id, b.past.target[id], b.sessions[id].mode == "udp");
    assert ask in At(FromProxy(b, p, m).fromProxy, p);
  }

  lemma RelayedUp(b: State, p: nat, m: Wire, id: Id)
    requires Inv(b, id) && IsData(m, id) && id in b.sessions && b.sessions[id].proxy == p
    ensures Relayed(Send(FromProxy(b, p, m), b.sessions[id].worker, m, true), id)
  {
    DataFramesAppend(At(b.fromProxy, p), m, id);
    DataFramesAppend(At(b.toWorker, b.past.stored[id].worker), m, id);
    RelayOne(b.past.early[id].up, DataFrames(At(b.fromProxy, p), id),
             DataFrames(At(b.toWorker, b.past.stored[id].worker), id), m);
  }

  lemma RelayOne(early: seq<Wire>, received: seq<Wire>, sent: seq<Wire>, m: Wire)
    requires RelaysFrom(early, received, sent, true)
    ensures RelaysFrom(early, received + [m], sent + [m], true)
  {
    assert early + (sent + [m]) == early + sent + [m];
  }

  lemma IsolatedUp(b: State, p: nat, m: Wire, id: Id)
    requires Inv(b, id) && IsData(m, id) && id in b.sessions && b.sessions[id].proxy == p
    ensures Isolated(Send(FromProxy(b, p, m), b.sessions[id].worker, m, true), id)
  {
  }

  /** Taking a session out of the table, once its reason is on record. */
  lemma DeleteOwn(b: State, id: Id)
    requires Core(b, id)
    requires id in b.past.stored ==>
               var p := b.past.stored[id].proxy;
               || Has(At(b.fromProxy, p), id, CMD_CLOSE) || p in b.closed
               || Has(At(b.toProxy, p), id, CMD_CLOSE) || Has(At(b.toProxy, p), id, CMD_ERROR)
    ensures Inv(Delete(b, id), id)
  {
  }

  lemma ProxyDataLost(b: State, p: nat, m: Wire, writeOk: bool, id: Id)
    requires Inv(b, id) && IsData(m, id) && id in b.sessions && b.sessions[id].proxy == p
    ensures Inv(Write(Delete(FromProxy(b, p, m), id), p, Binary(Packet(id, CMD_CLOSE, [])), writeOk), id)
  {
    var close := Binary(Packet(id, CMD_CLOSE, []));
    PacketIsFor(id, CMD_CLOSE, []);
    CloseOwn(b, close, writeOk, id);
    var gone := Delete(Write(b, p, close, writeOk), id);
    ProxyFrameNotRelayed(gone, p, m, id);
    assert FromProxy(gone, p, m) == Write(Delete(FromProxy(b, p, m), id), p, close, writeOk);
  }

  /** A close or error frame for the session's own proxy, and the session leaves the table. */
  lemma CloseOwn(b: State, m: Wire, writeOk: bool, id: Id)
    requires Inv(b, id) && id in b.past.stored && IsFor(m, id)
    requires CmdOf(m) == CMD_CLOSE || CmdOf(m) == CMD_ERROR
    ensures Inv(Delete(Write(b, b.past.stored[id].proxy, m, writeOk), id), id)
  {
    var p := b.past.stored[id].proxy;
    WriteOwn(b, m, writeOk, id);
    assert Has(At(Write(b, p, m, writeOk).toProxy, p), id, CmdOf(m)) || p in b.closed by {
      Appended(b.toProxy, p, m, id);
    }
    DeleteOwn(Write(b, p, m, writeOk), id);
  }

  /** A close or error frame of the session, queued to its own proxy. */
  lemma WriteOwn(b: State, m: Wire, writeOk: bool, id: Id)
    requires Inv(b, id) && id in b.past.stored && IsFor(m, id)
    requires CmdOf(m) == CMD_CLOSE || CmdOf(m) == CMD_ERROR
    ensures Inv(Write(b, b.past.stored[id].proxy, m, writeOk), id)
  {
    var s := b.past.stored[id];
    Appended(b.toProxy, s.proxy, m, id);
  }

  /** A close frame of the session, queued to its own worker. */
  lemma SendOwn(b: State, sendOk: bool, id: Id)
    requires Inv(b, id) && id in b.past.stored
    ensures Inv(Send(b, b.past.stored[id].worker, Binary(Packet(id, CMD_CLOSE, [])), sendOk), id)
  {
    var s := b.past.stored[id];
    PacketIsFor(id, CMD_CLOSE, []);
    Appended(b.toWorker, s.worker, Binary(Packet(id, CMD_CLOSE, [])), id);
  }

  /** The proxy asks to close its session. */
  lemma ProxyCloses(b: State, p: nat, m: Wire, sendOk: bool, id: Id)
    requires Inv(FromProxy(b, p, m), id) && Carries(m, id, CMD_CLOSE)
    requires id in b.past.stored && b.past.stored[id].proxy == p
    ensures var w := b.past.stored[id].worker;
            Inv(Delete(Send(FromProxy(b, p, m), w, Binary(Packet(id, CMD_CLOSE, [])), sendOk), id), id)
  {
    var b1 := FromProxy(b, p, m);
    assert Has(At(b1.fromProxy, p), id, CMD_CLOSE) by {
      Appended(b.fromProxy, p, m, id);
    }
    SendOwn(b1, sendOk, id);
    DeleteOwn(Send(b1, b.past.stored[id].worker, Binary(Packet(id, CMD_CLOSE, [])), sendOk), id);
  }

  lemma OwnProxyFrame(b: State, p: nat, m: Wire, sendOk: bool, writeOk: bool, id: Id)
    requires Inv(b, id) && IsFor(m, id)
    ensures Inv(ProxyFrame(FromProxy(b, p, m), p, m, sendOk, writeOk), id)
  {
    if id in b.sessions && b.sessions[id].proxy == p && IsData(m, id) {
      ReencodingIsIdentity(m);
      if sendOk { ProxyDataRelayed(b, p, m, id); } else { ProxyDataLost(b, p, m, writeOk, id); }
    } else {
      OwnControlFrame(b, p, m, sendOk, writeOk, id);
    }
  }

  lemma OwnControlFrame(b: State, p: nat, m: Wire, sendOk: bool, writeOk: bool, id: Id)
    requires Inv(b, id) && IsFor(m, id) && !(id in b.sessions && b.sessions[id].proxy == p && IsData(m, id))
    ensures Inv(ProxyFrame(FromProxy(b, p, m), p, m, sendOk, writeOk), id)
  {
    ProxyFrameNotRelayed(b, p, m, id);
    if id in b.sessions && b.sessions[id].proxy == p && CmdOf(m) == CMD_CLOSE {
      ProxyCloses(b, p, m, sendOk, id);
    }
  }

  // ---- the worker's side -----------------------------------------------------------------

  lemma WorkerFrameNotRelayed(b: State, w: nat, m: Wire, id: Id)
    requires Inv(b, id) && IsFor(m, id)
    requires id in b.sessions && b.sessions[id].worker == w ==> !IsData(m, id)
    ensures Inv(FromWorker(b, w, m), id)
  {
    Appended(b.fromWorker, w, m, id);
  }

  lemma RelayedDown(b: State, w: nat, m: Wire, id: Id)
    requires Inv(b, id) && IsFor(m, id) && id in b.sessions && b.sessions[id].worker == w
    requires IsData(m, id) || CmdOf(m) == CMD_CONNECTED
    ensures var c := FromWorker(b, w, m);
            Inv(c.(toProxy := Append(c.toProxy, b.sessions[id].proxy, m)), id)
  {
    var s := b.past.stored[id];
    Appended(b.fromWorker, w, m, id);
    Appended(b.toProxy, s.proxy, m, id);
    RelayOne(b.past.early[id].down, DataFrames(At(b.fromWorker, w), id), DataFrames(At(b.toProxy, s.proxy), id), m);
    var c := FromWorker(b, w, m).(toProxy := Append(b.toProxy, s.proxy, m));
    assert Relayed(c, id);
    assert Isolated(c, id);
  }

  /** The proxy's queue is closed: the frame is lost and the session leaves the table. */
  lemma WorkerDataLost(b: State, w: nat, m: Wire, id: Id)
    requires Inv(b, id) && IsFor(m, id) && id in b.sessions && b.sessions[id].proxy in b.closed
    ensures Inv(Delete(FromWorker(b, w, m), id), id)
  {
    DeleteOwn(b, id);
    WorkerFrameNotRelayed(Delete(b, id), w, m, id);
    assert FromWorker(Delete(b, id), w, m) == Delete(FromWorker(b, w, m), id);
  }

  lemma OwnWorkerFrame(b: State, w: nat, m: Wire, writeOk: bool, id: Id)
    requires Inv(b, id) && IsFor(m, id)
    ensures Inv(WorkerFrame(FromWorker(b, w, m), w, m, writeOk), id)
  {
    if id in b.sessions && b.sessions[id].worker == w && (IsData(m, id) || CmdOf(m) == CMD_CONNECTED) {
      OwnWorkerData(b, w, m, writeOk, id);
    } else {
      OwnWorkerControl(b, w, m, writeOk, id);
    }
  }

  lemma OwnWorkerData(b: State, w: nat, m: Wire, writeOk: bool, id: Id)
    requires Inv(b, id) && IsFor(m, id) && id in b.sessions && b.sessions[id].worker == w
    requires IsData(m, id) || CmdOf(m) == CMD_CONNECTED
    ensures Inv(WorkerFrame(FromWorker(b, w, m), w, m, writeOk), id)
  {
    var c, p := FromWorker(b, w, m), b.sessions[id].proxy;
    if WriteFails(b, p, writeOk) {
      WorkerDataLost(b, w, m, id);
      assert WorkerFrame(c, w, m, writeOk) == Delete(c, id);
    } else {
      RelayedDown(b, w, m, id);
      assert WorkerFrame(c, w, m, writeOk) == c.(toProxy := Append(c.toProxy, p, m));
    }
  }

  lemma OwnWorkerControl(b: State, w: nat, m: Wire, writeOk: bool, id: Id)
    requires Inv(b, id) && IsFor(m, id)
    requires id in b.sessions && b.sessions[id].worker == w ==> !IsData(m, id) && CmdOf(m) != CMD_CONNECTED
    ensures Inv(WorkerFrame(FromWorker(b, w, m), w, m, writeOk), id)
  {
    WorkerFrameNotRelayed(b, w, m, id);
    if id in b.sessions && b.sessions[id].worker == w && CmdOf(m) == CMD_CLOSE {
      CloseOwn(FromWorker(b, w, m), m, writeOk, id);
    }
  }

  // ---- opening ---------------------------------------------------------------------------

  lemma RegOnly(b: State, reg: R.State, id: Id)
    requires Inv(b, id)
    requires id in b.sessions ==>
               b.sessions[id].worker !in reg.removed && b.sessions[id].worker in reg.guidOf
    ensures Inv(SetReg(b, reg), id)
  {
    AgreeAll(b, id);
    SameKeeps(b, SetReg(b, reg), id);
  }

  lemma RequestedGrows(b: State, x: Id, id: Id)
    requires Inv(b, id)
    ensures Inv(Noted(b, x), id)
  {
    AgreeAll(b, id);
    SameKeeps(b, Noted(b, x), id);
  }

  lemma BindOther(b: State, x: Id, s: Session, target: Bytes, id: Id)
    requires Inv(b, id) && x != id
    ensures Inv(Bind(b, x, s, target), id)
  {
    AgreeAll(b, id);
    SameKeeps(b, Bind(b, x, s, target), id);
  }

  /** The session becomes bound: the state just after the store, before the connect frame. */
  lemma BindOwn(b: State, p: nat, w: nat, mode: string, target: Bytes, ask: Wire, id: Id)
    requires Inv(b, id) && id !in b.past.stored && id in b.past.requested && |id| == ID_LEN
    requires w !in b.reg.removed && w in b.reg.guidOf
    requires ask in At(b.fromProxy, p) && AsksFor(ask, id, target, mode == "udp")
    requires forall q :: !Mentions(At(b.toProxy, q), id)
    ensures Inv(Bind(b, id, Session(p, w, mode), target), id)
  {
    var c := Bind(b, id, Session(p, w, mode), target);
    PayloadsIffData(At(b.toWorker, w), id);
    PayloadsIffData(At(b.toProxy, p), id);
    assert !Mentions(At(b.toWorker, w), id);
    assert Isolated(c, id);
    assert Relayed(c, id);
    assert Handshake(c, id);
  }

  lemma ConnectOwn(b: State, cmd: Byte, id: Id)
    requires Inv(b, id) && id in b.past.stored && id in b.past.target
    requires cmd == if b.past.stored[id].mode == "udp" then CMD_UDP_CONNECT else CMD_CONNECT
    ensures Inv(Send(b, b.past.stored[id].worker, Binary(Packet(id, cmd, b.past.target[id])), true), id)
  {
    var m := Binary(Packet(id, cmd, b.past.target[id]));
    PacketIsFor(id, cmd, b.past.target[id]);
    Appended(b.toWorker, b.past.stored[id].worker, m, id);
    var c := Send(b, b.past.stored[id].worker, m, true);
    assert Isolated(c, id);
    assert Relayed(c, id);
    assert Handshake(c, id);
  }

  /** An error frame that answers a request of `id` that was never granted. */
  lemma ErrorUnbound(b: State, p: nat, errText: Bytes, writeOk: bool, id: Id)
    requires Inv(b, id) && id !in b.past.stored && id in b.past.requested && |id| == ID_LEN
    ensures Inv(Write(b, p, Binary(Packet(id, CMD_ERROR, errText)), writeOk), id)
  {
    PacketIsFor(id, CMD_ERROR, errText);
    Appended(b.toProxy, p, Binary(Packet(id, CMD_ERROR, errText)), id);
  }

  lemma OpenOwnTail(b: State, p: nat, w: nat, mode: string, req: Request, sendOk: bool, writeOk: bool,
                    errText: Bytes, id: Id)
    requires Inv(b, id) && id in b.sessions && b.sessions[id] == Session(p, w, mode)
    requires id in b.past.target && b.past.target[id] == req.target
    ensures Inv(OpenTail(b, p, w, mode, req, sendOk, writeOk, errText, id), id)
  {
    if sendOk {
      ConnectOwn(b, if mode == "udp" then CMD_UDP_CONNECT else CMD_CONNECT, id);
    } else {
      var err := Binary(Packet(id, CMD_ERROR, errText));
      PacketIsFor(id, CMD_ERROR, errText);
      WriteOwn(b, err, writeOk, id);
      Appended(b.toProxy, p, err, id);
      DeleteOwn(Write(b, p, err, writeOk), id);
      assert Delete(Write(b, p, err, writeOk), id) == Write(Delete(b, id), p, err, writeOk);
    }
  }

  lemma OpenOtherTail(b: State, p: nat, w: nat, mode: string, req: Request, sendOk: bool, writeOk: bool,
                      errText: Bytes, x: Id, id: Id)
    requires Inv(b, id) && x != id && |x| == ID_LEN
    ensures Inv(OpenTail(b, p, w, mode, req, sendOk, writeOk, errText, x), id)
  {
    PacketIsFor(x, CMD_ERROR, errText);
    var cmd := if mode == "udp" then CMD_UDP_CONNECT else CMD_CONNECT;
    PacketIsFor(x, cmd, req.target);
    if sendOk {
      SendOther(b, w, Binary(Packet(x, cmd, req.target)), true, id);
    } else {
      DeleteOther(b, x, id);
      WriteOther(Delete(b, x), p, Binary(Packet(x, CMD_ERROR, errText)), writeOk, id);
    }
  }

  lemma GrantOwn(b: State, p: nat, req: Request, mode: string, sendOk: bool, writeOk: bool, errText: Bytes, id: Id)
    requires Inv(b, id) && R.Inv(b.reg) && id !in b.past.stored && id in b.past.requested && |id| == ID_LEN
    requires Text(req) in At(b.fromProxy, p) && AsksFor(Text(req), id, req.target, mode == "udp")
    requires forall q :: !Mentions(At(b.toProxy, q), id)
    ensures Inv(Grant(b, p, req, mode, sendOk, writeOk, errText, id), id)
  {
    R.PickKeeps(b.reg, req.route);
    var (reg, picked) := R.Pick(b.reg, req.route);
    RegOnly(b, reg, id);
    var b1 := SetReg(b, reg);
    if picked.None? {
      ErrorUnbound(b1, p, errText, writeOk, id);
    } else {
      var w := picked.value;
      assert w in reg.guidOf && w !in reg.removed;
      BindOwn(b1, p, w, mode, req.target, Text(req), id);
      OpenOwnTail(Bind(b1, id, Session(p, w, mode), req.target), p, w, mode, req, sendOk, writeOk, errText, id);
    }
  }

  lemma GrantOther(b: State, p: nat, req: Request, mode: string, sendOk: bool, writeOk: bool, errText: Bytes,
                   x: Id, id: Id)
    requires Inv(b, id) && R.Inv(b.reg) && x != id && |x| == ID_LEN
    ensures Inv(Grant(b, p, req, mode, sendOk, writeOk, errText, x), id)
  {
    R.PickKeeps(b.reg, req.route);
    var (reg, picked) := R.Pick(b.reg, req.route);
    RegOnly(b, reg, id);
    var b1 := SetReg(b, reg);
    if picked.None? {
      PacketIsFor(x, CMD_ERROR, errText);
      WriteOther(b1, p, Binary(Packet(x, CMD_ERROR, errText)), writeOk, id);
    } else {
      var s := Session(p, picked.value, mode);
      BindOther(b1, x, s, req.target, id);
      OpenOtherTail(Bind(b1, x, s, req.target), p, picked.value, mode, req, sendOk, writeOk, errText, x, id);
    }
  }

  lemma OpenKeeps(b: State, p: nat, req: Request, sendOk: bool, writeOk: bool, uuid: Id, errText: Bytes, id: Id)
    requires Inv(b, id) && R.Inv(b.reg) && Text(req) in At(b.fromProxy, p)
    requires RequestId(req, uuid) == id ==> id !in b.past.requested
    ensures Inv(Open(b, p, req, sendOk, writeOk, uuid, errText), id)
  {
    var x := RequestId(req, uuid);
    RequestedGrows(b, x, id);
    var b1 := Noted(b, x);
    var mode := if req.mode == "" then "tcp" else req.mode;
    if (mode == "tcp" || mode == "udp") && |x| == ID_LEN && x !in b.sessions {
      if x == id {
        GrantOwn(b1, p, req, mode, sendOk, writeOk, errText, id);
      } else {
        GrantOther(b1, p, req, mode, sendOk, writeOk, errText, x, id);
      }
    }
  }

  // ---- removal and close -----------------------------------------------------------------

  lemma DropForWorkerKeeps(b: State, x: Id, writeOk: bool, id: Id)
    requires Inv(b, id) && Inv(b, x)
    ensures Inv(DropForWorker(b, x, writeOk), id)
  {
    if x in b.sessions {
      var p := b.sessions[x].proxy;
      var close := Binary(Packet(x, CMD_CLOSE, []));
      PacketIsFor(x, CMD_CLOSE, []);
      if x == id {
        CloseOwn(b, close, writeOk, id);
      } else {
        WriteOther(b, p, close, writeOk, id);
        DeleteOther(Write(b, p, close, writeOk), x, id);
      }
    }
  }

  ghost predicate InvAll(b: State) {
    R.Inv(b.reg) && forall id :: Inv(b, id)
  }

  lemma {:induction false} DropAllForWorkerKeeps(b: State, order: seq<Id>, oks: set<Id>)
    requires forall id :: Inv(b, id)
    ensures var c := DropAllForWorker(b, order, oks);
            && (forall id :: Inv(c, id))
            && c.reg == b.reg && c.past.stored == b.past.stored && c.closed == b.closed
            && (forall id :: id in c.sessions <==> id in b.sessions && id !in order)
            && (forall id :: id in c.sessions ==> c.sessions[id] == b.sessions[id])
  {
    if order != [] {
      var n := |order| - 1;
      DropAllForWorkerKeeps(b, order[..n], oks);
      var c := DropAllForWorker(b, order[..n], oks);
      assert order == order[..n] + [order[n]];
      forall id ensures Inv(DropForWorker(c, order[n], order[n] in oks), id) {
        DropForWorkerKeeps(c, order[n], order[n] in oks, id);
      }
    }
  }

  lemma RemoveWorkerKeeps(b: State, w: nat, order: seq<Id>, oks: set<Id>)
    requires forall id :: Inv(b, id)
    ensures forall id :: Inv(RemoveWorker(b, w, order, oks), id)
    ensures RemoveWorker(b, w, order, oks).reg == R.Remove(b.reg, w) || RemoveWorker(b, w, order, oks) == b
  {
    if w !in b.reg.removed && IsOrder(b, order, w) {
      DropAllForWorkerKeeps(b, order, oks);
      var c := DropAllForWorker(b, order, oks);
      forall id ensures Inv(RemoveWorker(b, w, order, oks), id) {
        if id in c.sessions {
          assert c.sessions[id].worker != w;
        }
        RegOnly(c, R.Remove(b.reg, w), id);
      }
    }
  }

  lemma RegisterWorkerKeeps(b: State, w: nat, guid: string, group: string, order: seq<Id>, oks: set<Id>)
    requires InvAll(b)
    ensures InvAll(RegisterWorker(b, w, guid, group, order, oks))
  {
    if guid != "" && w !in b.reg.guidOf {
      R.RegisterKeeps(b.reg, w, guid, group);
      var b1 := SetReg(b, R.Add(b.reg, w, guid, group));
      forall id ensures Inv(b1, id) {
        RegOnly(b, b1.reg, id);
      }
      if guid in b.reg.active {
        assert R.ActiveOk(b.reg, guid);
        var previous := b.reg.active[guid];
        if IsOrder(b, order, previous) {
          assert IsOrder(b1, order, previous);
          RemoveWorkerKeeps(b1, previous, order, oks);
        }
      }
    }
  }

  lemma DropForProxyKeeps(b: State, x: Id, p: nat, id: Id)
    requires Core(b, id) && Core(b, x) && p in b.closed
    requires x in b.sessions ==> b.sessions[x].proxy == p
    ensures Core(DropForProxy(b, x), id)
  {
    if x in b.sessions {
      var b1 := b.(asyncCloses := b.asyncCloses + {(x, b.sessions[x].worker)});
      if x == id {
        assert Isolated(b1, id);
        DeleteOwn(b1, id);
      } else {
        AgreeAll(b, id);
        SameKeeps(b, b1, id);
        DeleteOther(b1, x, id);
      }
    }
  }

  lemma {:induction false} DropAllForProxyKeeps(b: State, order: seq<Id>, p: nat)
    requires forall id :: Core(b, id)
    requires p in b.closed && forall id :: id in order && id in b.sessions ==> b.sessions[id].proxy == p
    ensures var c := DropAllForProxy(b, order);
            && (forall id :: Core(c, id))
            && c.reg == b.reg && c.closed == b.closed && c.past.late == b.past.late
            && (forall id :: id in c.sessions <==> id in b.sessions && id !in order)
            && (forall id :: id in c.sessions ==> c.sessions[id] == b.sessions[id])
  {
    if order != [] {
      var n := |order| - 1;
      assert order == order[..n] + [order[n]];
      DropAllForProxyKeeps(b, order[..n], p);
      var c := DropAllForProxy(b, order[..n]);
      forall id ensures Core(DropForProxy(c, order[n]), id) {
        DropForProxyKeeps(c, order[n], p, id);
      }
    }
  }

  lemma ClosedGrows(b: State, p: nat, id: Id)
    requires Inv(b, id)
    ensures Core(b.(closed := b.closed + {p}), id)
  {
    var c := b.(closed := b.closed + {p});
    if id in b.past.stored {
      assert Isolated(c, id) && Relayed(c, id) && Handshake(c, id);
    } else {
      assert Unbound(c, id);
    }
  }

  lemma CloseProxyKeeps(b: State, p: nat, order: seq<Id>)
    requires InvAll(b)
    ensures InvAll(CloseProxy(b, p, order))
  {
    if p !in b.closed && IsProxyOrder(b, order, p) {
      var b1 := b.(closed := b.closed + {p});
      forall id ensures Core(b1, id) {
        ClosedGrows(b, p, id);
      }
      DropAllForProxyKeeps(b1, order, p);
      var c := DropAllForProxy(b1, order);
      forall id ensures Inv(c, id) {
        assert Inv(b, id) && Core(c, id);
      }
    }
  }

  lemma AsyncCloseKeeps(b: State, x: Id, w: nat, sendOk: bool, id: Id)
    requires Inv(b, id) && Inv(b, x)
    ensures Inv(Next(b, AsyncClose(x, w, sendOk)), id)
  {
    if (x, w) in b.asyncCloses {
      var b1 := b.(asyncCloses := b.asyncCloses - {(x, w)});
      AgreeAll(b, id);
      SameKeeps(b, b1, id);
      PacketIsFor(x, CMD_CLOSE, []);
      if x == id {
        SendOwn(b1, sendOk, id);
      } else {
        assert |x| == ID_LEN;
        SendOther(b1, w, Binary(Packet(x, CMD_CLOSE, [])), sendOk, id);
      }
    }
  }

  // ---- all events ------------------------------------------------------------------------

  lemma ProxyMessageKeeps(b: State, e: Event, id: Id)
    requires e.ProxyMessage? && Inv(b, id) && R.Inv(b.reg) && Fresh(b, e)
    ensures Inv(Next(b, e), id)
  {
    var b1 := FromProxy(b, e.p, e.m);
    if e.m.Text? {
      FromProxyOther(b, e.p, e.m, id);
      OpenKeeps(b1, e.p, e.m.req, e.sendOk, e.writeOk, e.uuid, e.errText, id);
    } else if IsFor(e.m, id) {
      OwnProxyFrame(b, e.p, e.m, e.sendOk, e.writeOk, id);
    } else {
      FromProxyOther(b, e.p, e.m, id);
      if IsFrame(e.m) {
        OtherProxyFrame(b1, e.p, e.m, e.sendOk, e.writeOk, id);
      }
    }
  }

  lemma OtherProxyFrame(b: State, p: nat, m: Wire, sendOk: bool, writeOk: bool, id: Id)
    requires Inv(b, id) && IsFrame(m) && IdOf(m) != id
    ensures Inv(ProxyFrame(b, p, m, sendOk, writeOk), id)
  {
    var x := IdOf(m);
    if x in b.sessions && b.sessions[x].proxy == p {
      var w := b.sessions[x].worker;
      var close := Binary(Packet(x, CMD_CLOSE, []));
      PacketIsFor(x, CMD_CLOSE, []);
      if IsData(m, x) {
        ReencodingIsIdentity(m);
        if sendOk {
          SendOther(b, w, m, true, id);
        } else {
          DeleteOther(b, x, id);
          WriteOther(Delete(b, x), p, close, writeOk, id);
        }
      } else if CmdOf(m) == CMD_CLOSE {
        SendOther(b, w, close, sendOk, id);
        DeleteOther(Send(b, w, close, sendOk), x, id);
      }
    }
  }

  lemma WorkerMessageKeeps(b: State, e: Event, id: Id)
    requires e.WorkerMessage? && Inv(b, id)
    ensures Inv(Next(b, e), id)
  {
    if IsFor(e.m, id) {
      OwnWorkerFrame(b, e.w, e.m, e.writeOk, id);
    } else {
      FromWorkerOther(b, e.w, e.m, id);
      if IsFrame(e.m) {
        OtherWorkerFrame(FromWorker(b, e.w, e.m), e.w, e.m, e.writeOk, id);
      }
    }
  }

  lemma OtherWorkerFrame(b: State, w: nat, m: Wire, writeOk: bool, id: Id)
    requires Inv(b, id) && IsFrame(m) && IdOf(m) != id
    ensures Inv(WorkerFrame(b, w, m, writeOk), id)
  {
    var x := IdOf(m);
    if x in b.sessions && b.sessions[x].worker == w {
      var p := b.sessions[x].proxy;
      WriteOther(b, p, m, writeOk, id);
      if CmdOf(m) == CMD_CLOSE {
        DeleteOther(Write(b, p, m, writeOk), x, id);
      } else {
        DeleteOther(b, x, id);
      }
    }
  }

  lemma RegKeeps(b: State, e: Event)
    requires R.Inv(b.reg) && (e.ProxyMessage? || e.WorkerMessage? || e.AsyncClose?)
    ensures R.Inv(Next(b, e).reg)
  {
    if e.ProxyMessage? {
      if e.m.Text? {
        R.PickKeeps(b.reg, e.m.req.route);
      }
    }
  }

  /** Every event keeps the broker's invariant, for all session ids at once. */
  lemma StepKeeps(b: State, e: Event)
    requires InvAll(b) && Fresh(b, e)
    ensures InvAll(Next(b, e))
  {
    match e
    case ProxyMessage(p, m, sendOk, writeOk, uuid, errText) =>
      forall id ensures Inv(Next(b, e), id) { ProxyMessageKeeps(b, e, id); }
      RegKeeps(b, e);
    case ProxyClose(p, order) => CloseProxyKeeps(b, p, order);
    case WorkerMessage(w, m, writeOk) =>
      forall id ensures Inv(Next(b, e), id) { WorkerMessageKeeps(b, e, id); }
      RegKeeps(b, e);
    case WorkerRegister(w, guid, group, order, oks) => RegisterWorkerKeeps(b, w, guid, group, order, oks);
    case WorkerMove(guid, group) => MoveKeeps(b, guid, group);
    case WorkerRemove(w, order, oks) =>
      RemoveWorkerKeeps(b, w, order, oks);
      R.RemoveKeeps(b.reg, w, {});
    case AsyncClose(id, w, sendOk) =>
      forall x ensures Inv(Next(b, e), x) { AsyncCloseKeeps(b, id, w, sendOk, x); }
      RegKeeps(b, e);
  }

  lemma MoveKeeps(b: State, guid: string, group: string)
    requires InvAll(b)
    ensures InvAll(Next(b, WorkerMove(guid, group)))
  {
    var reg := R.Move(b.reg, guid, group);
    R.MoveKeeps(b.reg, guid, group);
    forall id ensures Inv(SetReg(b, reg), id) { RegOnly(b, reg, id); }
  }

  // ---- logs only grow ----------------------------------------------------------------------

  ghost predicate Extends(a: Logs, b: Logs) {
    forall k :: At(a, k) <= At(b, k)
  }

  /** Everything queued stays queued, in order; nothing is recorded as received but what was. */
  ghost predicate Grows(b: State, c: State) {
    && Extends(b.toProxy, c.toProxy) && Extends(b.toWorker, c.toWorker)
    && b.fromProxy == c.fromProxy && b.fromWorker == c.fromWorker && b.past.requested == c.past.requested
  }

  lemma {:induction false} DropAllGrow(b: State, order: seq<Id>, oks: set<Id>)
    ensures Grows(b, DropAllForWorker(b, order, oks)) && Grows(b, DropAllForProxy(b, order))
  {
    if order != [] {
      DropAllGrow(b, order[..|order| - 1], oks);
    }
  }

  lemma RemoveGrows(b: State, w: nat, order: seq<Id>, oks: set<Id>)
    ensures Grows(b, RemoveWorker(b, w, order, oks))
  {
    DropAllGrow(b, order, oks);
  }

  lemma CloseGrows(b: State, p: nat, order: seq<Id>)
    ensures Grows(b, CloseProxy(b, p, order))
  {
    DropAllGrow(b.(closed := b.closed + {p}), order, {});
  }

  lemma RegisterGrows(b: State, w: nat, guid: string, group: string, order: seq<Id>, oks: set<Id>)
    ensures Grows(b, RegisterWorker(b, w, guid, group, order, oks))
  {
    if guid in b.reg.active && w !in b.reg.guidOf {
      RemoveGrows(SetReg(b, R.Add(b.reg, w, guid, group)), b.reg.active[guid], order, oks);
    }
  }

  lemma AsyncGrows(b: State, id: Id, w: nat, sendOk: bool)
    ensures Grows(b, Next(b, AsyncClose(id, w, sendOk)))
  {
    if (id, w) in b.asyncCloses {
      SendGrows(b.(asyncCloses := b.asyncCloses - {(id, w)}), w, Binary(Packet(id, CMD_CLOSE, [])), sendOk);
    }
  }

  lemma SendGrows(b: State, w: nat, m: Wire, sendOk: bool)
    ensures Grows(b, Send(b, w, m, sendOk))
  {
  }

  lemma InternalGrows(b: State, e: Event)
    requires !e.ProxyMessage? && !e.WorkerMessage?
    ensures Grows(b, Next(b, e))
  {
    match e
    case ProxyClose(p, order) => CloseGrows(b, p, order);
    case WorkerRegister(w, guid, group, order, oks) => RegisterGrows(b, w, guid, group, order, oks);
    case WorkerRemove(w, order, oks) => RemoveGrows(b, w, order, oks);
    case WorkerMove(guid, group) =>
    case AsyncClose(id, w, sendOk) => AsyncGrows(b, id, w, sendOk);
  }

  lemma OpenGrows(b: State, p: nat, req: Request, sendOk: bool, writeOk: bool, uuid: Id, errText: Bytes)
    ensures var c := Open(b, p, req, sendOk, writeOk, uuid, errText);
            && Extends(b.toProxy, c.toProxy) && Extends(b.toWorker, c.toWorker)
            && b.fromProxy == c.fromProxy && b.fromWorker == c.fromWorker
            && c.past.requested == b.past.requested + {RequestId(req, uuid)}
  {
    var id := RequestId(req, uuid);
    var b1 := Noted(b, id);
    var mode := if req.mode == "" then "tcp" else req.mode;
    GrantGrows(b1, p, req, mode, sendOk, writeOk, errText, id);
  }

  lemma GrantGrows(b: State, p: nat, req: Request, mode: string, sendOk: bool, writeOk: bool, errText: Bytes, id: Id)
    ensures Grows(b, Grant(b, p, req, mode, sendOk, writeOk, errText, id))
  {
    var (reg, picked) := R.Pick(b.reg, req.route);
    var b1 := SetReg(b, reg);
    if picked.Some? {
      var b2 := Bind(b1, id, Session(p, picked.value, mode), req.target);
      var cmd := if mode == "udp" then CMD_UDP_CONNECT else CMD_CONNECT;
      SendGrows(b2, picked.value, Binary(Packet(id, cmd, req.target)), true);
      WriteGrows(Delete(b2, id), p, Binary(Packet(id, CMD_ERROR, errText)), writeOk);
    } else {
      WriteGrows(b1, p, Binary(Packet(id, CMD_ERROR, errText)), writeOk);
    }
  }

  lemma ProxyMessageGrows(b: State, e: Event)
    requires e.ProxyMessage?
    ensures var c := Next(b, e);
            && Extends(b.toProxy, c.toProxy) && Extends(b.toWorker, c.toWorker)
            && c.fromProxy == Append(b.fromProxy, e.p, e.m) && c.fromWorker == b.fromWorker
            && c.past.requested == b.past.requested + (if e.m.Text? then {RequestId(e.m.req, e.uuid)} else {})
  {
    var b1 := FromProxy(b, e.p, e.m);
    if e.m.Text? {
      OpenGrows(b1, e.p, e.m.req, e.sendOk, e.writeOk, e.uuid, e.errText);
    } else if IsFrame(e.m) {
      ProxyFrameGrows(b1, e.p, e.m, e.sendOk, e.writeOk);
    }
  }

  lemma WriteGrows(b: State, p: nat, m: Wire, writeOk: bool)
    ensures Grows(b, Write(b, p, m, writeOk))
  {
  }

  /** One of the three things a proxy frame can do, or nothing. */
  lemma ProxyFrameShape(b: State, p: nat, m: Wire, sendOk: bool, writeOk: bool)
    requires IsFrame(m)
    ensures var c := ProxyFrame(b, p, m, sendOk, writeOk);
            || (c.toProxy == b.toProxy && c.toWorker == b.toWorker)
            || (exists w, x :: c.toProxy == b.toProxy && c.toWorker == Append(b.toWorker, w, x))
            || (exists x :: c.toProxy == Append(b.toProxy, p, x) && c.toWorker == b.toWorker)
  {
  }

  lemma AppendExtends(logs: Logs, k: nat, m: Wire)
    ensures Extends(logs, Append(logs, k, m))
  {
  }

  lemma ProxyFrameGrows(b: State, p: nat, m: Wire, sendOk: bool, writeOk: bool)
    requires IsFrame(m)
    ensures Grows(b, ProxyFrame(b, p, m, sendOk, writeOk))
  {
    ProxyFrameShape(b, p, m, sendOk, writeOk);
    var c := ProxyFrame(b, p, m, sendOk, writeOk);
    if w, x :| c.toProxy == b.toProxy && c.toWorker == Append(b.toWorker, w, x) {
      AppendExtends(b.toWorker, w, x);
    } else if x :| c.toProxy == Append(b.toProxy, p, x) && c.toWorker == b.toWorker {
      AppendExtends(b.toProxy, p, x);
    }
  }

  lemma WorkerFrameGrows(b: State, w: nat, m: Wire, writeOk: bool)
    requires IsFrame(m)
    ensures Grows(b, WorkerFrame(b, w, m, writeOk))
  {
    if IdOf(m) in b.sessions {
      WriteGrows(b, b.sessions[IdOf(m)].proxy, m, writeOk);
    }
  }

  lemma WorkerMessageGrows(b: State, e: Event)
    requires e.WorkerMessage?
    ensures var c := Next(b, e);
            && Extends(b.toProxy, c.toProxy) && Extends(b.toWorker, c.toWorker)
            && c.fromProxy == b.fromProxy && c.fromWorker == Append(b.fromWorker, e.w, e.m)
            && c.past.requested == b.past.requested
  {
    var b1 := FromWorker(b, e.w, e.m);
    if IsFrame(e.m) {
      WorkerFrameGrows(b1, e.w, e.m, e.writeOk);
    }
  }

  // ---- whole runs of the broker ------------------------------------------------------------

  ghost function Run(es: seq<Event>): State {
    if es == [] then Init else Next(Run(es[..|es| - 1]), es[|es| - 1])
  }

  /** Every request of the run asks for a new id. */
  ghost predicate NoReuse(es: seq<Event>) {
    es == [] || (NoReuse(es[..|es| - 1]) && Fresh(Run(es[..|es| - 1]), es[|es| - 1]))
  }

  lemma {:induction false} RunKeeps(es: seq<Event>)
    requires NoReuse(es)
    ensures InvAll(Run(es))
  {
    if es != [] {
      RunKeeps(es[..|es| - 1]);
      StepKeeps(Run(es[..|es| - 1]), es[|es| - 1]);
    }
  }

  /** No silent loss: every session the broker ever stored is still in the table, or its proxy asked to
      close it, or its proxy connection is closed, or a close or error frame was put on that proxy's
      queue. */
  lemma NoSilentLoss(es: seq<Event>, id: Id)
    requires NoReuse(es)
    ensures var b := Run(es);
            id in b.past.stored ==>
              var p := b.past.stored[id].proxy;
              || id in b.sessions
              || Has(At(b.fromProxy, p), id, CMD_CLOSE)
              || p in b.closed
              || Has(At(b.toProxy, p), id, CMD_CLOSE)
              || Has(At(b.toProxy, p), id, CMD_ERROR)
  {
    RunKeeps(es);
    assert Inv(Run(es), id);
  }

  /** Session `id` is stored by event `k` of the run. */
  ghost predicate BoundAt(es: seq<Event>, k: nat, id: Id) {
    k < |es| && id !in Run(es[..k]).past.stored && id in Run(es[..k + 1]).past.stored
  }

  /** Isolation: frames of a stored session were queued only to the two ends of its binding, and each end
      got, byte for byte and in order, a prefix of the data frames that the other sent since event `k`
      stored the session (all of them while it is in the table). */
  lemma SessionsAreIsolated(es: seq<Event>, k: nat, id: Id)
    requires NoReuse(es)
    ensures BoundAt(es, k, id) ==>
              var b0, b := Run(es[..k]), Run(es);
              && id in b.past.stored
              && var s := b.past.stored[id];
                 && (forall w :: w != s.worker ==> !Mentions(At(b.toWorker, w), id))
                 && (forall p :: p != s.proxy ==> !Mentions(At(b.toProxy, p), id))
                 && RelaysFrom(DataFrames(At(b0.fromProxy, s.proxy), id), DataFrames(At(b.fromProxy, s.proxy), id),
                               DataFrames(At(b.toWorker, s.worker), id), id in b.sessions)
                 && RelaysFrom(DataFrames(At(b0.fromWorker, s.worker), id), DataFrames(At(b.fromWorker, s.worker), id),
                               DataFrames(At(b.toProxy, s.proxy), id), id in b.sessions)
  {
    RunKeeps(es);
    assert Inv(Run(es), id);
    if BoundAt(es, k, id) {
      HistoryStays(es, k, id);
      assert Isolated(Run(es), id) && Relayed(Run(es), id);
    }
  }

  /** Live ends: in every reachable state the worker of a session in the table is registered and not
      removed, and its proxy is closed if and only if it was closed when event `k` stored the session. */
  lemma EndsAreLive(es: seq<Event>, k: nat, id: Id)
    requires NoReuse(es)
    ensures BoundAt(es, k, id) && id in Run(es).sessions ==>
              var b := Run(es);
              var s := b.sessions[id];
              && s.worker !in b.reg.removed && s.worker in b.reg.guidOf
              && (s.proxy in b.closed <==> s.proxy in Run(es[..k]).closed)
  {
    RunKeeps(es);
    assert Inv(Run(es), id);
    if BoundAt(es, k, id) {
      HistoryStays(es, k, id);
    }
  }

  /** What `c` recorded of session `id` when it was stored in state `b0`. */
  ghost predicate Recorded(b0: State, c: State, id: Id) {
    && id in c.past.stored && id in c.past.early && c.past.early[id] == EarlyFrames(b0, id, c.past.stored[id])
    && (id in c.past.late <==> c.past.stored[id].proxy in b0.closed)
  }

  /** What was recorded when event `k` stored the session stays recorded. */
  lemma {:induction false} HistoryStays(es: seq<Event>, k: nat, id: Id)
    requires NoReuse(es) && BoundAt(es, k, id)
    ensures Recorded(Run(es[..k]), Run(es), id)
  {
    var n := |es| - 1;
    RunKeeps(es[..n]);
    assert Inv(Run(es[..n]), id);
    if k == n {
      assert es[..k + 1] == es;
      RecordedAtOnce(Run(es[..n]), es[n], id);
    } else {
      assert es[..n][..k] == es[..k] && es[..n][..k + 1] == es[..k + 1];
      HistoryStays(es[..n], k, id);
      RecordedStays(Run(es[..k]), Run(es[..n]), es[n], id);
    }
  }

  lemma RecordedAtOnce(b: State, e: Event, id: Id)
    requires Inv(b, id) && id !in b.past.stored && id in Next(b, e).past.stored
    ensures Recorded(b, Next(b, e), id)
  {
    StoredGrows(b, e);
  }

  lemma RecordedStays(b0: State, b: State, e: Event, id: Id)
    requires Recorded(b0, b, id) && Inv(b, id) && Fresh(b, e)
    ensures Recorded(b0, Next(b, e), id)
  {
    StoredGrows(b, e);
  }

  /** Every stored session was stored by some event. */
  lemma {:induction false} StoredByAnEvent(es: seq<Event>, id: Id) returns (k: nat)
    requires id in Run(es).past.stored
    ensures BoundAt(es, k, id)
  {
    var n := |es| - 1;
    if id in Run(es[..n]).past.stored {
      k := StoredByAnEvent(es[..n], id);
      assert es[..n][..k] == es[..k] && es[..n][..k + 1] == es[..k + 1];
    } else {
      k := n;
      assert es[..k + 1] == es;
    }
  }

  ghost predicate SameHistory(b: State, c: State) {
    c.past == b.past
  }

  lemma CloseStored(b: State, p: nat, order: seq<Id>)
    ensures SameHistory(b, CloseProxy(b, p, order))
  {
  }

  lemma RemoveStored(b: State, w: nat, order: seq<Id>, oks: set<Id>)
    ensures SameHistory(b, RemoveWorker(b, w, order, oks))
  {
  }

  lemma RegisterStored(b: State, w: nat, guid: string, group: string, order: seq<Id>, oks: set<Id>)
    ensures SameHistory(b, RegisterWorker(b, w, guid, group, order, oks))
  {
  }

  lemma KeepStored(b: State, e: Event)
    requires !(e.ProxyMessage? && e.m.Text?)
    ensures SameHistory(b, Next(b, e))
  {
    match e
    case ProxyMessage(p, m, sendOk, writeOk, uuid, errText) =>
      assert IsFrame(m) ==> Next(b, e) == ProxyFrame(FromProxy(b, p, m), p, m, sendOk, writeOk);
    case ProxyClose(p, order) => CloseStored(b, p, order);
    case WorkerMessage(w, m, writeOk) =>
      assert IsFrame(m) ==> Next(b, e) == WorkerFrame(FromWorker(b, w, m), w, m, writeOk);
    case WorkerRegister(w, guid, group, order, oks) => RegisterStored(b, w, guid, group, order, oks);
    case WorkerMove(guid, group) =>
    case WorkerRemove(w, order, oks) => RemoveStored(b, w, order, oks);
    case AsyncClose(id, w, sendOk) =>
  }

  /** A binding is made only by a request of that id, for the requesting proxy. */
  lemma StoredGrows(b: State, e: Event)
    ensures if e.ProxyMessage? && e.m.Text? then Binds(b, Next(b, e), e.p, RequestId(e.m.req, e.uuid))
            else SameHistory(b, Next(b, e))
  {
    if e.ProxyMessage? && e.m.Text? {
      OpenBinds(b, e);
    } else {
      KeepStored(b, e);
    }
  }

  lemma OpenBinds(b: State, e: Event)
    requires e.ProxyMessage? && e.m.Text?
    ensures Binds(b, Next(b, e), e.p, RequestId(e.m.req, e.uuid))
  {
    var b1, c, id := FromProxy(b, e.p, e.m), Next(b, e), RequestId(e.m.req, e.uuid);
    assert Binds(b1, c, e.p, id);
    if id in c.past.stored {
      EarlyIgnoresRequests(b, e.p, e.m, id, c.past.stored[id]);
    }
  }

  lemma EarlyIgnoresRequests(b: State, p: nat, m: Wire, id: Id, s: Session)
    requires m.Text?
    ensures EarlyFrames(FromProxy(b, p, m), id, s) == EarlyFrames(b, id, s)
  {
    DataFramesAppend(At(b.fromProxy, p), m, id);
  }

  /** Once made, a binding is never changed by any continuation of the run. */
  lemma {:induction false} BindingNeverChanges(es: seq<Event>, k: nat, id: Id)
    requires NoReuse(es) && k <= |es|
    ensures id in Run(es[..k]).past.stored ==>
              id in Run(es).past.stored && Run(es).past.stored[id] == Run(es[..k]).past.stored[id]
  {
    if k == |es| {
      assert es[..k] == es;
    } else {
      var n := |es| - 1;
      assert es[..n][..k] == es[..k];
      BindingNeverChanges(es[..n], k, id);
      RunKeeps(es[..n]);
      assert Inv(Run(es[..n]), id);
      StoredGrows(Run(es[..n]), es[n]);
    }
  }

  /** The live-ends property is not unconditional: a request still in the read buffer of a connection
      whose `close` has already run stores a session with a closed proxy. */
  lemma ClosedProxyCanBeBound(id: Id, w: nat, p: nat, target: Bytes)
    requires |id| == ID_LEN
    ensures var register := WorkerRegister(w, "guid", "group", [], {});
            var request := Text(Request(id, "group", target, "tcp"));
            var es := [register, ProxyClose(p, []), ProxyMessage(p, request, true, false, [], [])];
            var b := Run(es);
            NoReuse(es) && id in b.sessions && b.sessions[id].proxy == p && p in b.closed
  {
    var register := WorkerRegister(w, "guid", "group", [], {});
    var request := Text(Request(id, "group", target, "tcp"));
    var es := [register, ProxyClose(p, []), ProxyMessage(p, request, true, false, [], [])];
    var b1 := Next(Init, es[0]);
    assert b1.sessions == map[] && b1.closed == {};
    assert "group" in b1.reg.groups && b1.reg.groups["group"].workers == [w];
    var b2 := Next(b1, es[1]);
    assert IsProxyOrder(b1, [], p);
    assert b2 == b1.(closed := {p});
    var b3 := Next(b2, es[2]);
    assert R.Pick(b2.reg, "group").1.value == w;
    assert id in b3.sessions && b3.sessions[id].proxy == p && p in b3.closed;
    RunsAre(es, b1, b2, b3);
  }

  lemma RunsAre(es: seq<Event>, b1: State, b2: State, b3: State)
    requires |es| == 3 && b1 == Next(Init, es[0]) && b2 == Next(b1, es[1]) && b3 == Next(b2, es[2])
    requires Fresh(Init, es[0]) && Fresh(b1, es[1]) && Fresh(b2, es[2])
    ensures Run(es) == b3 && NoReuse(es)
  {
    OneMore([], es[0]);
    OneMore([es[0]], es[1]);
    OneMore([es[0], es[1]], es[2]);
    assert [] + [es[0]] == [es[0]] && [es[0]] + [es[1]] == [es[0], es[1]] && [es[0], es[1]] + [es[2]] == es;
  }

  lemma OneMore(es: seq<Event>, e: Event)
    ensures Run(es + [e]) == Next(Run(es), e)
    ensures NoReuse(es + [e]) <==> NoReuse(es) && Fresh(Run(es), e)
  {
    assert (es + [e])[..|es|] == es;
  }
}
