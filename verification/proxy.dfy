/** One broker connection of a proxy: `BrokerConnection`, `BrokerSession`, `openSession`, `readLoop`,
    `waitConnected`, `closeBrokerSession` and the two loops of `handleBroker`. One event is one handled
    message or one step of one goroutine; outcomes of a `select` and of the network are event fields. */
module ProxyLink {
  import opened Frames

  const DATA_QUEUE := 32
  const READ_CHUNK := 32768

  /** The one-slot channel `connected`: empty, `nil`, or an error. */
  datatype Slot = Empty | Connected | Failed

  datatype Phase = Waiting | Running | Finished

  /** Broker to client. `queue`: the channel `data`. History: `taken` (payloads the client loop took),
      `written` (bytes written to the client). */
  datatype Inward = Inward(queue: seq<Bytes>, taken: seq<Bytes>, written: Bytes)

  /** Client to broker. `on`: the reading goroutine runs. History: `read` (what it read, read by read). */
  datatype Outward = Outward(on: bool, read: seq<Bytes>)

  /** `done`: the channel `s.done` is closed. `confirmed` (history): `waitConnected` returned nil and
      `onConnected` was run. */
  datatype Sess = Sess(
    target: Bytes, udp: bool, slot: Slot, done: bool, phase: Phase, confirmed: bool,
    inward: Inward, outward: Outward)

  /** `table`: the ids in `c.sessions`. `sess` keeps every session ever opened on this connection. */
  datatype State = State(done: bool, table: set<Id>, sess: map<Id, Sess>, recv: seq<Wire>, sent: seq<Wire>)

  const Init := State(false, {}, map[], [], [])

  datatype Event =
    | Open(id: Id, route: string, target: Bytes, mode: string, sendOk: bool)
    | Receive(m: Wire)
    | Confirm(id: Id, respOk: bool, sendOk: bool)
    | NotConnected(id: Id, sendOk: bool)
    | ClientRead(id: Id, data: Bytes, sendOk: bool)
    | ClientEnd(id: Id)
    | Deliver(id: Id, writeOk: bool, n: nat, sendOk: bool)
    | Finish(id: Id, sendOk: bool)
    | CloseConn

  /** `c.send` fails only when the connection is closed, and then it may still choose the queue. */
  function Queue(s: State, m: Wire, sendOk: bool): State {
    if s.done && !sendOk then s else s.(sent := s.sent + [m])
  }

  function Put(s: State, id: Id, x: Sess): State {
    s.(sess := s.sess[id := x])
  }

  /** `BrokerSession.close(err)` with an error: it goes to the slot if that is empty. */
  function Fail(x: Sess): Sess {
    if x.done then x else x.(done := true, slot := if x.slot == Empty then Failed else x.slot)
  }

  /** Taking a session out of the table and closing it with an error, as `readLoop` does. */
  function Drop(s: State, id: Id, x: Sess): State {
    Put(s.(table := s.table - {id}), id, Fail(x))
  }

  function NewSession(target: Bytes, udp: bool): Sess {
    Sess(target, udp, Empty, false, Waiting, false, Inward([], [], []), Outward(false, []))
  }

  function OpenSession(s: State, id: Id, route: string, target: Bytes, mode_: string, sendOk: bool): State {
    var mode := if mode_ == "" then "tcp" else mode_;
    if (mode != "tcp" && mode != "udp") || id in s.sess || |id| != ID_LEN then s else
      var x := NewSession(target, mode == "udp");
      if s.done && !sendOk then Put(s, id, Fail(x))
      else Queue(Put(s.(table := s.table + {id}), id, x), Text(Request(id, route, target, mode)), sendOk)
  }

  function ReceiveFrame(s: State, m: Wire): State
    requires IsFrame(m)
  {
    var id, cmd := IdOf(m), CmdOf(m);
    if id !in s.table || id !in s.sess then s else
      var x := s.sess[id];
      if cmd == CMD_CONNECTED then Put(s, id, if x.slot == Empty then x.(slot := Connected) else x)
      else if cmd == CMD_DATA || cmd == CMD_UDP_DATA then
        if |x.inward.queue| < DATA_QUEUE then
          Put(s, id, x.(inward := x.inward.(queue := x.inward.queue + [PayloadOf(m)])))
        else Drop(s, id, x)
      else if cmd == CMD_CLOSE || cmd == CMD_ERROR then Drop(s, id, x)
      else s
  }

  /** The deferred `closeBrokerSession`, run when the handler of the session returns. */
  function EndHandler(s: State, id: Id, x: Sess, sendOk: bool): State {
    var y := x.(phase := Finished);
    if y.done then Put(s, id, y)
    else Queue(Put(s.(table := s.table - {id}), id, y.(done := true)), Binary(Packet(id, CMD_CLOSE, [])), sendOk)
  }

  function SessionStep(s: State, e: Event, id: Id, x: Sess): State {
    match e
    case Confirm(_, respOk, sendOk) =>
      if x.phase != Waiting || x.slot != Connected then s
      else
        var y := x.(slot := Empty, phase := Running, confirmed := true);
        if respOk then Put(s, id, y.(outward := y.outward.(on := true))) else EndHandler(s, id, y, sendOk)
    case NotConnected(_, sendOk) =>
      if x.phase == Waiting && (x.slot == Failed || (x.slot == Empty && x.done))
      then EndHandler(s, id, x, sendOk) else s
    case ClientRead(_, data, sendOk) =>
      if !x.outward.on || (!x.udp && !(0 < |data| <= READ_CHUNK)) then s
      else
        var failed := s.done && !sendOk;
        var y := x.(outward := Outward(!failed, x.outward.read + [data]));
        Queue(Put(s, id, y), Binary(Packet(id, if x.udp then CMD_UDP_DATA else CMD_DATA, data)), sendOk)
    case ClientEnd(_) => Put(s, id, x.(outward := x.outward.(on := false)))
    case Deliver(_, writeOk, n, sendOk) =>
      if x.phase != Running || x.inward.queue == [] then s
      else
        var chunk := x.inward.queue[0];
        var k := if writeOk || n > |chunk| then |chunk| else n;
        var y := x.(inward := Inward(x.inward.queue[1..], x.inward.taken + [chunk], x.inward.written + chunk[..k]));
        if writeOk then Put(s, id, y) else EndHandler(s, id, y, sendOk)
    case Finish(_, sendOk) =>
      if x.phase == Running && (x.udp || !x.outward.on || x.done) then EndHandler(s, id, x, sendOk) else s
    case Open(_, _, _, _, _) => s
    case Receive(_) => s
    case CloseConn => s
  }

  function Next(s: State, e: Event): State {
    match e
    case Open(id, route, target, mode, sendOk) => OpenSession(s, id, route, target, mode, sendOk)
    case Receive(m) =>
      var s1 := s.(recv := s.recv + [m]);
      if IsFrame(m) then ReceiveFrame(s1, m) else s1
    case CloseConn =>
      s.(done := true, table := {},
         sess := map id | id in s.sess :: if id in s.table then Fail(s.sess[id]) else s.sess[id])
    case _ => if e.id in s.sess then SessionStep(s, e, e.id, s.sess[e.id]) else s
  }

  // ---- what every event keeps, for an arbitrary session id --------------------------------

  /** What the client loop took and what still waits is a prefix of the payloads received, all of
      them while the session is in the table; the client got what was taken, up to a failed write. */
  ghost predicate InwardOk(payloads: seq<Bytes>, listed: bool, finished: bool, i: Inward) {
    && i.taken + i.queue <= payloads
    && (listed ==> i.taken + i.queue == payloads)
    && i.written <= Flatten(i.taken)
    && (!finished ==> i.written == Flatten(i.taken))
  }

  ghost predicate OutwardOk(payloads: seq<Bytes>, confirmed: bool, o: Outward) {
    && payloads <= o.read
    && (o.on ==> payloads == o.read)
    && (!confirmed ==> o.read == [] && !o.on)
  }

  ghost predicate Asked(sent: seq<Wire>, id: Id) {
    exists m :: m in sent && m.Text? && m.req.id == id
  }

  ghost predicate SessOk(s: State, id: Id, x: Sess) {
    && |id| == ID_LEN
    && (id in s.table ==> !x.done)
    && (x.phase == Waiting ==> !x.confirmed)
    && InwardOk(Payloads(s.recv, id), id in s.table, x.phase == Finished, x.inward)
    && OutwardOk(Payloads(s.sent, id), x.confirmed, x.outward)
    && (x.slot == Connected || x.confirmed ==> Has(s.recv, id, CMD_CONNECTED))
    && (forall m :: m in s.sent && m.Text? && m.req.id == id ==>
          m.req.target == x.target && m.req.mode == (if x.udp then "udp" else "tcp"))
  }

  ghost predicate Inv(s: State, id: Id) {
    && (id in s.table ==> id in s.sess)
    && (id !in s.sess ==> !Mentions(s.sent, id) && !Asked(s.sent, id))
    && (id in s.sess ==> SessOk(s, id, s.sess[id]))
  }

  /** No two requests in the log ask for the same id, and none asks for the empty id. */
  ghost predicate DistinctRequests(sent: seq<Wire>) {
    && (forall i, j :: 0 <= i < j < |sent| && sent[i].Text? && sent[j].Text? ==> sent[i].req.id != sent[j].req.id)
    && (forall m :: m in sent && m.Text? ==> |m.req.id| == ID_LEN)
  }

  /** A new id: nothing of it has been received. */
  ghost predicate Fresh(s: State, e: Event, id: Id) {
    e.Open? && e.id == id ==> Payloads(s.recv, id) == []
  }

  // ---- proofs ------------------------------------------------------------------------------

  lemma AppendedTo(log: seq<Wire>, m: Wire, id: Id)
    ensures Payloads(log + [m], id) == Payloads(log, id) + (if IsData(m, id) then [PayloadOf(m)] else [])
    ensures Mentions(log + [m], id) <==> Mentions(log, id) || IsFor(m, id)
    ensures forall cmd :: Has(log + [m], id, cmd) <==> Has(log, id, cmd) || Carries(m, id, cmd)
    ensures Asked(log + [m], id) <==> Asked(log, id) || (m.Text? && m.req.id == id)
    ensures forall x :: x in log + [m] <==> x in log || x == m
  {
    PayloadsAppend(log, m, id);
    assert m in log + [m];
    forall cmd ensures Has(log + [m], id, cmd) <==> Has(log, id, cmd) || Carries(m, id, cmd) {
      if Has(log, id, cmd) {
        var x :| x in log && Carries(x, id, cmd);
        assert x in log + [m];
      }
    }
    if Mentions(log, id) {
      var x :| x in log && IsFor(x, id);
      assert x in log + [m];
    }
    if Asked(log, id) {
      var x :| x in log && x.Text? && x.req.id == id;
      assert x in log + [m];
    }
  }

  /** Queuing a frame of another session, or a request of another id. */
  lemma QueueOther(s: State, m: Wire, sendOk: bool, id: Id)
    requires Inv(s, id) && !IsFor(m, id) && !(m.Text? && m.req.id == id)
    ensures Inv(Queue(s, m, sendOk), id)
  {
    AppendedTo(s.sent, m, id);
  }

  lemma QueueClose(s: State, sendOk: bool, id: Id)
    requires Inv(s, id) && id in s.sess
    ensures Inv(Queue(s, Binary(Packet(id, CMD_CLOSE, [])), sendOk), id)
  {
    PacketParses(id, CMD_CLOSE, []);
    AppendedTo(s.sent, Binary(Packet(id, CMD_CLOSE, [])), id);
  }

  /** Taking the session out of the table, closing it, or ending its handler loses nothing. */
  lemma WeakerOk(s: State, id: Id, x: Sess, y: Sess)
    requires Inv(s, id) && SessOk(s, id, x)
    requires y.inward == x.inward && y.outward == x.outward && y.target == x.target && y.udp == x.udp
    requires (y.phase == Finished || y.phase == x.phase) && y.confirmed == x.confirmed
    requires y.slot == Connected ==> x.slot == Connected
    ensures Inv(Put(s.(table := s.table - {id}), id, y), id)
  {
  }

  lemma FinishedKeeps(s: State, id: Id, x: Sess, sendOk: bool)
    requires Inv(s, id) && SessOk(s, id, x)
    ensures Inv(EndHandler(s, id, x, sendOk), id)
  {
    var y := x.(phase := Finished);
    if y.done {
      assert SessOk(s, id, y);
      assert Inv(Put(s, id, y), id);
    } else {
      WeakerOk(s, id, x, y.(done := true));
      QueueClose(Put(s.(table := s.table - {id}), id, y.(done := true)), sendOk, id);
    }
  }

  lemma DropKeeps(s: State, id: Id, x: Sess)
    requires Inv(s, id) && SessOk(s, id, x)
    ensures Inv(Drop(s, id, x), id)
  {
    WeakerOk(s, id, x, Fail(x));
  }

  lemma FinishedOther(s: State, other: Id, x: Sess, sendOk: bool, id: Id)
    requires Inv(s, id) && other != id && |other| == ID_LEN
    ensures Inv(EndHandler(s, other, x, sendOk), id)
  {
    PacketParses(other, CMD_CLOSE, []);
    var y := x.(phase := Finished);
    if !y.done {
      var mid := Put(s.(table := s.table - {other}), other, y.(done := true));
      assert Inv(mid, id);
      QueueOther(mid, Binary(Packet(other, CMD_CLOSE, [])), sendOk, id);
    }
  }

  lemma NothingSent(sent: seq<Wire>, id: Id)
    requires !Mentions(sent, id)
    ensures Payloads(sent, id) == []
  {
    PayloadsIffData(sent, id);
    assert forall m :: m in sent && IsData(m, id) ==> IsFor(m, id);
  }

  lemma NewSessionOk(s: State, id: Id, x: Sess)
    requires |id| == ID_LEN && (id in s.table ==> !x.done) && x.phase == Waiting && !x.confirmed && x.slot != Connected
    requires x.inward == Inward([], [], []) && x.outward == Outward(false, [])
    requires Payloads(s.recv, id) == [] && Payloads(s.sent, id) == []
    requires forall m :: m in s.sent && m.Text? && m.req.id == id ==>
               m.req.target == x.target && m.req.mode == (if x.udp then "udp" else "tcp")
    ensures SessOk(s, id, x)
  {
    assert Flatten([]) == [];
  }

  lemma OpenOwn(s: State, e: Event, id: Id, mode: string)
    requires e.Open? && e.id == id && Inv(s, id) && Fresh(s, e, id) && id !in s.sess && |id| == ID_LEN
    requires mode == (if e.mode == "" then "tcp" else e.mode) && (mode == "tcp" || mode == "udp")
    ensures Inv(Next(s, e), id)
  {
    var x, t := NewSession(e.target, mode == "udp"), Next(s, e);
    NothingSent(s.sent, id);
    if s.done && !e.sendOk {
      assert t == Put(s, id, Fail(x));
      NewSessionOk(t, id, Fail(x));
    } else {
      var ask := Text(Request(id, e.route, e.target, mode));
      assert t.sess == s.sess[id := x] && t.recv == s.recv && t.sent == s.sent + [ask];
      AppendedTo(s.sent, ask, id);
      NewSessionOk(t, id, x);
    }
  }

  lemma OpenKeeps(s: State, e: Event, id: Id)
    requires e.Open? && Inv(s, id) && Fresh(s, e, id)
    ensures Inv(Next(s, e), id)
  {
    var mode := if e.mode == "" then "tcp" else e.mode;
    if (mode == "tcp" || mode == "udp") && e.id !in s.sess && |e.id| == ID_LEN {
      var x := NewSession(e.target, mode == "udp");
      var m := Text(Request(e.id, e.route, e.target, mode));
      if e.id == id {
        OpenOwn(s, e, id, mode);
      } else {
        var mid := Put(s.(table := s.table + {e.id}), e.id, x);
        assert Inv(mid, id);
        QueueOther(mid, m, e.sendOk, id);
      }
    }
  }

  lemma ReceiveOther(s: State, m: Wire, id: Id)
    requires Inv(s, id) && !IsFor(m, id)
    ensures Inv(Next(s, Receive(m)), id)
  {
    var s1 := s.(recv := s.recv + [m]);
    AppendedTo(s.recv, m, id);
    assert Inv(s1, id);
    if IsFrame(m) {
      ReceiveFrameOther(s1, m, id);
    }
  }

  lemma ReceiveFrameOther(s: State, m: Wire, id: Id)
    requires Inv(s, id) && IsFrame(m) && IdOf(m) != id
    ensures Inv(ReceiveFrame(s, m), id)
  {
    var c := ReceiveFrame(s, m);
    assert c.sent == s.sent && c.recv == s.recv;
    assert (id in c.table <==> id in s.table) && (id in c.sess <==> id in s.sess);
  }

  lemma ReceiveUnlisted(s: State, m: Wire, id: Id)
    requires Inv(s, id) && IsFor(m, id) && id !in s.table
    ensures Inv(s.(recv := s.recv + [m]), id)
  {
    AppendedTo(s.recv, m, id);
  }

  lemma ReceiveData(s: State, m: Wire, id: Id)
    requires Inv(s, id) && IsData(m, id) && id in s.table
    ensures Inv(Next(s, Receive(m)), id)
  {
    var x := s.sess[id];
    AppendedTo(s.recv, m, id);
    if |x.inward.queue| < DATA_QUEUE {
      var i := x.inward;
      assert i.taken + (i.queue + [PayloadOf(m)]) == i.taken + i.queue + [PayloadOf(m)];
    } else {
      DropKeeps(s, id, x);
      ReceiveUnlisted(Drop(s, id, x), m, id);
      assert Drop(s, id, x).(recv := s.recv + [m]) == Next(s, Receive(m));
    }
  }

  lemma ReceiveControl(s: State, m: Wire, id: Id)
    requires Inv(s, id) && IsFor(m, id) && !IsData(m, id) && id in s.table
    ensures Inv(Next(s, Receive(m)), id)
  {
    var s1 := s.(recv := s.recv + [m]);
    AppendedTo(s.recv, m, id);
    assert Inv(s1, id);
    if CmdOf(m) == CMD_CLOSE || CmdOf(m) == CMD_ERROR {
      DropKeeps(s1, id, s.sess[id]);
    } else if CmdOf(m) == CMD_CONNECTED {
      assert Has(s1.recv, id, CMD_CONNECTED);
    }
  }

  /** Taking the next chunk and writing all of it, or part of it on a failed write. */
  lemma TakeChunk(payloads: seq<Bytes>, listed: bool, i: Inward, k: nat)
    requires InwardOk(payloads, listed, false, i) && i.queue != [] && k <= |i.queue[0]|
    ensures var after := Inward(i.queue[1..], i.taken + [i.queue[0]], i.written + i.queue[0][..k]);
            InwardOk(payloads, listed, k < |i.queue[0]|, after) && InwardOk(payloads, listed, true, after)
  {
    var chunk := i.queue[0];
    assert i.queue == [chunk] + i.queue[1..];
    assert i.taken + [chunk] + i.queue[1..] == i.taken + i.queue;
    FlattenAppend(i.taken, chunk);
    if k == |chunk| {
      assert chunk[..k] == chunk;
    }
  }

  lemma InwardOnly(s: State, id: Id, x: Sess, i: Inward, phase: Phase)
    requires SessOk(s, id, x) && (phase == x.phase || phase == Finished)
    requires InwardOk(Payloads(s.recv, id), id in s.table, phase == Finished, i)
    ensures SessOk(s, id, x.(inward := i, phase := phase))
  {
  }

  lemma DeliverKeeps(s: State, e: Event, id: Id)
    requires e.Deliver? && e.id == id && Inv(s, id) && id in s.sess
    ensures Inv(Next(s, e), id)
  {
    var x := s.sess[id];
    if x.phase == Running && x.inward.queue != [] {
      var i := x.inward;
      var chunk := i.queue[0];
      var k := if e.writeOk || e.n > |chunk| then |chunk| else e.n;
      TakeChunk(Payloads(s.recv, id), id in s.table, i, k);
      var after := Inward(i.queue[1..], i.taken + [chunk], i.written + chunk[..k]);
      if e.writeOk {
        InwardOnly(s, id, x, after, x.phase);
        assert chunk[..k] == chunk;
      } else {
        DeliverFails(s, id, x, after, e.sendOk);
      }
    }
  }

  lemma DeliverFails(s: State, id: Id, x: Sess, after: Inward, sendOk: bool)
    requires Inv(s, id) && SessOk(s, id, x) && InwardOk(Payloads(s.recv, id), id in s.table, true, after)
    ensures Inv(EndHandler(s, id, x.(inward := after), sendOk), id)
  {
    var z := x.(inward := after, phase := Finished);
    InwardOnly(s, id, x, after, Finished);
    FinishedKeeps(s, id, z, sendOk);
    assert EndHandler(s, id, z, sendOk) == EndHandler(s, id, x.(inward := after), sendOk);
  }

  lemma ClientReadKeeps(s: State, e: Event, id: Id)
    requires e.ClientRead? && e.id == id && Inv(s, id) && id in s.sess
    ensures Inv(Next(s, e), id)
  {
    var x := s.sess[id];
    var cmd := if x.udp then CMD_UDP_DATA else CMD_DATA;
    PacketParses(id, cmd, e.data);
    AppendedTo(s.sent, Binary(Packet(id, cmd, e.data)), id);
  }

  lemma ConfirmKeeps(s: State, e: Event, id: Id)
    requires Inv(s, id) && id in s.sess && e.Confirm? && e.id == id
    ensures Inv(Next(s, e), id)
  {
    var x := s.sess[id];
    if x.phase == Waiting && x.slot == Connected {
      var y := x.(slot := Empty, phase := Running, confirmed := true);
      if e.respOk {
        assert SessOk(s, id, y.(outward := y.outward.(on := true)));
      } else {
        assert SessOk(s, id, y);
        FinishedKeeps(s, id, y, e.sendOk);
      }
    }
  }

  lemma NotConnectedKeeps(s: State, e: Event, id: Id)
    requires Inv(s, id) && id in s.sess && e.NotConnected? && e.id == id
    ensures Inv(Next(s, e), id)
  {
    FinishedKeeps(s, id, s.sess[id], e.sendOk);
    assert Next(s, e) == s || Next(s, e) == EndHandler(s, id, s.sess[id], e.sendOk);
  }

  lemma FinishKeeps(s: State, e: Event, id: Id)
    requires Inv(s, id) && id in s.sess && e.Finish? && e.id == id
    ensures Inv(Next(s, e), id)
  {
    FinishedKeeps(s, id, s.sess[id], e.sendOk);
    assert Next(s, e) == s || Next(s, e) == EndHandler(s, id, s.sess[id], e.sendOk);
  }

  lemma ClientEndKeeps(s: State, id: Id)
    requires Inv(s, id) && id in s.sess
    ensures Inv(Next(s, ClientEnd(id)), id)
  {
    var x := s.sess[id];
    assert SessOk(s, id, x.(outward := x.outward.(on := false)));
  }

  lemma OwnKeeps(s: State, e: Event, id: Id)
    requires Inv(s, id) && id in s.sess && !e.Open? && !e.Receive? && !e.CloseConn? && e.id == id
    ensures Inv(Next(s, e), id)
  {
    match e
    case Confirm(_, _, _) => ConfirmKeeps(s, e, id);
    case NotConnected(_, _) => NotConnectedKeeps(s, e, id);
    case Finish(_, _) => FinishKeeps(s, e, id);
    case ClientRead(_, _, _) => ClientReadKeeps(s, e, id);
    case Deliver(_, _, _, _) => DeliverKeeps(s, e, id);
    case ClientEnd(_) => ClientEndKeeps(s, id);
  }

  lemma OtherKeeps(s: State, e: Event, id: Id)
    requires Inv(s, id) && !e.Open? && !e.Receive? && !e.CloseConn? && e.id != id
    requires Inv(s, e.id)
    ensures Inv(Next(s, e), id)
  {
    if e.id in s.sess {
      var x := s.sess[e.id];
      if e.ClientRead? {
        OtherClientRead(s, e, id);
      } else if e.Deliver? {
        OtherDeliver(s, e, id);
      } else if e.Confirm? {
        FinishedOther(s, e.id, x.(slot := Empty, phase := Running, confirmed := true), e.sendOk, id);
      } else if !e.ClientEnd? {
        FinishedOther(s, e.id, x, e.sendOk, id);
      }
    }
  }

  lemma OtherClientRead(s: State, e: Event, id: Id)
    requires Inv(s, id) && e.ClientRead? && e.id != id && e.id in s.sess && Inv(s, e.id)
    ensures Inv(Next(s, e), id)
  {
    var x := s.sess[e.id];
    var cmd := if x.udp then CMD_UDP_DATA else CMD_DATA;
    PacketParses(e.id, cmd, e.data);
    var y := x.(outward := Outward(!(s.done && !e.sendOk), x.outward.read + [e.data]));
    assert Inv(Put(s, e.id, y), id);
    QueueOther(Put(s, e.id, y), Binary(Packet(e.id, cmd, e.data)), e.sendOk, id);
  }

  lemma OtherDeliver(s: State, e: Event, id: Id)
    requires Inv(s, id) && e.Deliver? && e.id != id && e.id in s.sess && Inv(s, e.id)
    ensures Inv(Next(s, e), id)
  {
    var x := s.sess[e.id];
    if x.phase == Running && x.inward.queue != [] {
      var chunk := x.inward.queue[0];
      var k := if e.writeOk || e.n > |chunk| then |chunk| else e.n;
      var after := Inward(x.inward.queue[1..], x.inward.taken + [chunk], x.inward.written + chunk[..k]);
      FinishedOther(s, e.id, x.(inward := after), e.sendOk, id);
    }
  }

  lemma CloseConnKeeps(s: State, id: Id)
    requires Inv(s, id)
    ensures Inv(Next(s, CloseConn), id)
  {
    if id in s.table {
      WeakerOk(s, id, s.sess[id], Fail(s.sess[id]));
    }
  }

  /** Every event keeps the invariant of every session of the connection. */
  lemma StepKeeps(s: State, e: Event, id: Id)
    requires Inv(s, id) && Fresh(s, e, id)
    requires !e.Open? && !e.Receive? && !e.CloseConn? ==> Inv(s, e.id)
    ensures Inv(Next(s, e), id)
  {
    if e.Open? {
      OpenKeeps(s, e, id);
    } else if e.Receive? {
      if !IsFor(e.m, id) { ReceiveOther(s, e.m, id); }
      else if id !in s.table { ReceiveUnlisted(s, e.m, id); }
      else if IsData(e.m, id) { ReceiveData(s, e.m, id); }
      else { ReceiveControl(s, e.m, id); }
    } else if e.CloseConn? {
      CloseConnKeeps(s, id);
    } else if e.id != id {
      OtherKeeps(s, e, id);
    } else if id in s.sess {
      OwnKeeps(s, e, id);
    }
  }

  lemma RequestsStayDistinct(s: State, e: Event)
    requires DistinctRequests(s.sent) && (e.Open? ==> Inv(s, e.id))
    ensures DistinctRequests(Next(s, e).sent)
  {
  }
}
