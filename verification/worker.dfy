/** One broker link of a worker: `handleBrokerConnection`, `openTCP`/`openUDP`, the session reader and
    writer goroutines and `closeSession`. One event is one handled frame or one step of one goroutine;
    in particular closing `s.done`, releasing `s.conn`, closing the socket and unlisting the session are
    separate events, as in the code. The choice that a `select` makes is a field of the event. */
module WorkerLink {
  import opened Frames

  const SESSION_WRITE_QUEUE := 512
  const READ_BUFFER := 65536

  datatype Phase = Dialing | Ready | Failed

  /** `listed`: in the `sessions` map. `closed`: `s.done` is closed. `conn`: `s.conn` is not nil.
      `sock`: the dialled socket is open. `over`: `s.conn` was released, or will never be set.
      `hadConn` (history): `setConn` stored the connection. */
  datatype Life = Life(phase: Phase, listed: bool, closed: bool, conn: bool, sock: bool, over: bool, hadConn: bool)

  /** Broker to target. `queue`: `writeCh`. `writing`: what `sessionWriter` still has to write of the
      chunk it took. History: `toTarget` (bytes written to the target), `accepted` (data frames that
      reached the queue), `refused` (a data frame was turned away by a closed `done` while the connection
      could still be written), `cut` (a data frame met a full queue, and the session was closed). */
  datatype Inward = Inward(
    queue: seq<Bytes>, writing: Bytes, on: bool, toTarget: Bytes, accepted: nat, refused: bool, cut: bool)

  /** Target to broker. `pending`: what `remoteReader` still has to send of its last read. History:
      `fromTarget` (bytes read from the target). */
  datatype Outward = Outward(on: bool, pending: Bytes, announced: bool, fromTarget: Bytes)

  datatype Sess = Sess(target: Bytes, udp: bool, life: Life, inward: Inward, outward: Outward)

  /** `opens`: the `openTCP`/`openUDP` goroutines that have not yet stored their session. `busy`: the
      session the frame reader is closing itself (empty if none); it handles no frame until then. */
  datatype State = State(
    done: bool,
    busy: Id,
    opens: set<(Id, Bytes, bool)>,
    sess: map<Id, Sess>,
    recv: seq<Wire>,
    sent: seq<Wire>)

  const Init := State(false, [], {}, map[], [], [])

  datatype Choice = TakeQueue | TakeDone | TakeSessionDone

  datatype Event =
    | Receive(m: Wire, choice: Choice)
    | Store(id: Id, target: Bytes, udp: bool)
    | DialFail(id: Id, sendOk: bool)
    | DialDone(id: Id)
    | SendConnected(id: Id, sendOk: bool)
    | TargetRead(id: Id, data: Bytes)
    | SendFragment(id: Id, sendOk: bool)
    | ReaderExit(id: Id)
    | WriterTake(id: Id)
    | WriterWrite(id: Id, n: nat)
    | WriterFail(id: Id, n: nat)
    | WriterStop(id: Id)
    | BeginClose(id: Id)
    | ReleaseConn(id: Id)
    | CloseSocket(id: Id)
    | Unlist(id: Id)
    | SendClose(id: Id, sendOk: bool)
    | CloseLink

  function NewSession(target: Bytes, udp: bool): Sess {
    Sess(target, udp, Life(Dialing, true, false, false, false, false, false),
         Inward([], [], false, [], 0, false, false), Outward(false, [], false, []))
  }

  function Put(s: State, id: Id, x: Sess): State {
    s.(sess := s.sess[id := x])
  }

  function Close(x: Sess): Sess {
    x.(life := x.life.(closed := true))
  }

  /** A data frame that is not queued. */
  function Refuse(x: Sess): Sess {
    if x.life.over then x else x.(inward := x.inward.(refused := true))
  }

  /** `enqueueSessionWrite` on a listed session. The queue is offered only while it has room; a full
      queue with neither `done` closed starts a close. */
  function Enqueue(x: Sess, done: bool, data: Bytes, choice: Choice): Sess {
    if (choice == TakeDone && done) || (choice == TakeSessionDone && x.life.closed) then Refuse(x)
    else if |x.inward.queue| < SESSION_WRITE_QUEUE then
      x.(inward := x.inward.(queue := x.inward.queue + [data], accepted := x.inward.accepted + 1))
    else if done || x.life.closed then Refuse(x)
    else Close(x.(inward := x.inward.(cut := true)))
  }

  /** `enqueueSessionWrite` ends in `closeSession`. */
  predicate Overflows(x: Sess, done: bool) {
    |x.inward.queue| >= SESSION_WRITE_QUEUE && !done && !x.life.closed
  }

  function ReceiveFrame(s: State, m: Wire, choice: Choice): State
    requires IsFrame(m)
  {
    var id, cmd := IdOf(m), CmdOf(m);
    if cmd == CMD_CONNECT || cmd == CMD_UDP_CONNECT then
      s.(opens := s.opens + {(id, PayloadOf(m), cmd == CMD_UDP_CONNECT)})
    else if (cmd == CMD_DATA || cmd == CMD_UDP_DATA) && id in s.sess && s.sess[id].life.listed then
      Put(s.(busy := if Overflows(s.sess[id], s.done) then id else []), id,
          Enqueue(s.sess[id], s.done, PayloadOf(m), choice))
    else if cmd == CMD_CLOSE && id in s.sess && s.sess[id].life.listed then
      Put(s.(busy := id), id, Close(s.sess[id]))
    else s
  }

  /** The frame reader is still inside `session.close()`. */
  predicate IsBusy(s: State) {
    s.busy != [] && s.busy in s.sess && !s.sess[s.busy].life.over
  }

  datatype Output = Nothing | Emit(cmd: Byte, data: Bytes)

  function FailedLife(l: Life): Life {
    l.(phase := Failed, listed := false, over := true)
  }

  /** The open and close steps of a session. */
  function LifeStep(l: Life, e: Event): Life {
    match e
    case DialFail(_, _) => if l.phase == Dialing then FailedLife(l) else l
    case DialDone(_) =>
      if l.phase != Dialing then l
      else if l.closed then FailedLife(l)
      else l.(phase := Ready, conn := true, sock := true, hadConn := true)
    case BeginClose(_) => if l.listed then l.(closed := true) else l
    case ReleaseConn(_) => if l.closed then l.(conn := false, over := true) else l
    case CloseSocket(_) => if l.closed && l.over then l.(sock := false) else l
    case Unlist(_) => if l.closed && l.over && !l.sock then l.(listed := false) else l
    case _ => l
  }

  /** The steps of `sessionWriter`, and whether it ends by closing the session. */
  function WriterStep(i: Inward, l: Life, e: Event, done: bool): (Inward, bool) {
    match e
    case WriterTake(_) =>
      if !i.on || i.writing != [] || i.queue == [] then (i, false)
      else if l.conn then (i.(writing := i.queue[0], queue := i.queue[1..]), false)
      else (i.(on := false, queue := i.queue[1..]), false)
    case WriterWrite(_, n) =>
      if !i.on || !l.sock || !(0 < n <= |i.writing|) then (i, false)
      else (i.(toTarget := i.toTarget + i.writing[..n], writing := i.writing[n..]), false)
    case WriterFail(_, n) =>
      if !i.on || i.writing == [] || n > |i.writing| || (!l.sock && n > 0) then (i, false)
      else (i.(toTarget := i.toTarget + i.writing[..n], writing := i.writing[n..], on := false), true)
    case WriterStop(_) =>
      (if done || l.closed then i.(on := false) else i, false)
    case _ => (i, false)
  }

  /** `size` of one fragment: a datagram is sent whole, a stream in pieces of at most 32768 bytes. */
  function FragmentSize(o: Outward, udp: bool): nat {
    if udp || |o.pending| <= MAX_PACKET_DATA then |o.pending| else MAX_PACKET_DATA
  }

  /** The steps of `remoteReader` and of the announcement by `openTCP`: the new state, the packet
      queued, and whether the session is closed. `canSend` is the outcome of `sendPacket`. */
  function ReaderStep(o: Outward, l: Life, udp: bool, e: Event, canSend: bool): (Outward, Output, bool) {
    match e
    case SendConnected(_, _) =>
      if l.phase != Ready || o.announced then (o, Nothing, false)
      else if canSend then (o.(announced := true), Emit(CMD_CONNECTED, []), false)
      else (o.(announced := true), Nothing, true)
    case TargetRead(_, data) =>
      if !o.on || !l.sock || o.pending != [] || data == [] || |data| > READ_BUFFER then (o, Nothing, false)
      else (o.(fromTarget := o.fromTarget + data, pending := data), Nothing, false)
    case SendFragment(_, _) =>
      if !o.on || o.pending == [] then (o, Nothing, false)
      else if !canSend then (o.(on := false), Nothing, true)
      else
        var n := FragmentSize(o, udp);
        (o.(pending := o.pending[n..]), Emit(if udp then CMD_UDP_DATA else CMD_DATA, o.pending[..n]), false)
    case ReaderExit(_) =>
      if !o.on || o.pending != [] then (o, Nothing, false) else (o.(on := false), Nothing, true)
    case DialFail(_, _) =>
      (o, if l.phase == Dialing && canSend then Emit(CMD_CLOSE, []) else Nothing, false)
    case SendClose(_, _) =>
      (o, if !l.listed && canSend then Emit(CMD_CLOSE, []) else Nothing, false)
    case _ => (o, Nothing, false)
  }

  /** One step of one session's goroutines. An event whose guard does not hold changes nothing. */
  function Act(x: Sess, e: Event, done: bool, canSend: bool): (Sess, Output) {
    var l := LifeStep(x.life, e);
    var (i, stop1) := WriterStep(x.inward, x.life, e, done);
    var (o, out, stop2) := ReaderStep(x.outward, x.life, x.udp, e, canSend);
    var started := l.hadConn && !x.life.hadConn;
    (Sess(x.target, x.udp,
          l.(closed := l.closed || stop1 || stop2),
          i.(on := i.on || started),
          o.(on := o.on || started)),
     out)
  }

  /** `sendPacket` fails on a bad id and when `done` is closed; then it may still choose the queue. After a
      failed dial nothing is sent either once the worker's context is cancelled. */
  predicate CanSend(s: State, e: Event, id: Id) {
    && |id| == ID_LEN
    && (match e
        case DialFail(_, sendOk) => sendOk
        case SendConnected(_, sendOk) => !s.done || sendOk
        case SendFragment(_, sendOk) => !s.done || sendOk
        case SendClose(_, sendOk) => !s.done || sendOk
        case _ => false)
  }

  function SessionStep(s: State, e: Event, id: Id): State
    requires id in s.sess
  {
    var (x, out) := Act(s.sess[id], e, s.done, CanSend(s, e, id));
    Queue(Put(s, id, x), id, out)
  }

  function Queue(s: State, id: Id, out: Output): State {
    match out
    case Nothing => s
    case Emit(cmd, data) => s.(sent := s.sent + [Binary(Packet(id, cmd, data))])
  }

  function Next(s: State, e: Event): State {
    match e
    case Receive(m, choice) =>
      if IsBusy(s) then s else
        var s1 := s.(recv := s.recv + [m], busy := []);
        if IsFrame(m) then ReceiveFrame(s1, m, choice) else s1
    case Store(id, target, udp) =>
      if (id, target, udp) !in s.opens then s else
        var s1 := s.(opens := s.opens - {(id, target, udp)});
        if id in s.sess then s1 else Put(s1, id, NewSession(target, udp))
    case CloseLink => s.(done := true)
    case _ =>
      if e.id in s.sess then SessionStep(s, e, e.id) else s
  }

  // ---- what every event keeps, for an arbitrary session id --------------------------------

  ghost predicate AskedToConnect(recv: seq<Wire>, id: Id, target: Bytes, udp: bool) {
    exists m :: m in recv && Connects(m, id, target, udp)
  }

  predicate LifeOk(l: Life) {
    && (l.conn ==> l.hadConn && !l.over && l.sock)
    && (l.hadConn && !l.over ==> l.conn)
    && (!l.listed ==> l.over && !l.sock)
    && (l.hadConn <==> l.phase == Ready)
    && (!l.hadConn ==> !l.sock)
    && (l.over ==> l.closed || l.phase == Failed)
  }

  /** Target to broker: what was queued, then what is pending, is what was read. */
  ghost predicate OutwardOk(queued: seq<Bytes>, hadConn: bool, udp: bool, o: Outward) {
    && Flatten(queued) <= o.fromTarget
    && (o.on ==> Flatten(queued) + o.pending == o.fromTarget)
    && (!hadConn ==> o.fromTarget == [] && queued == [] && !o.on && o.pending == [])
    && (!udp ==> forall c :: c in queued ==> |c| <= MAX_PACKET_DATA)
  }

  /** Broker to target: unless a frame was turned away while the connection could still be written,
      what was written, then what is being written, is a prefix of what was received; while the
      connection is held, the queue holds the rest, all of it unless it overflowed; and a frame is
      missing from the queue exactly when one was turned away or met a full queue. */
  ghost predicate InwardOk(received: Bytes, frames: nat, l: Life, i: Inward) {
    && (!i.refused ==> i.toTarget + i.writing <= received)
    && (!i.refused && !l.over ==> i.toTarget + i.writing + Flatten(i.queue) <= received)
    && (!i.refused && !i.cut && !l.over ==> i.toTarget + i.writing + Flatten(i.queue) == received)
    && (!l.hadConn ==> i.toTarget == [] && i.writing == [] && !i.on)
    && (!l.over ==> i.accepted <= frames && (i.accepted == frames <==> !i.refused && !i.cut))
  }

  ghost predicate SessOk(s: State, id: Id, x: Sess) {
    && AskedToConnect(s.recv, id, x.target, x.udp)
    && LifeOk(x.life)
    && OutwardOk(Payloads(s.sent, id), x.life.hadConn, x.udp, x.outward)
    && (Has(s.sent, id, CMD_CONNECTED) ==> x.life.hadConn)
    && InwardOk(Flatten(Payloads(s.recv, id)), |Payloads(s.recv, id)|, x.life, x.inward)
    && (x.inward.cut && !x.life.over ==> s.busy == id && id != [])
    && (x.inward.refused ==> s.done || x.life.closed)
  }

  ghost predicate Inv(s: State, id: Id) {
    && (forall t, u :: (id, t, u) in s.opens ==> AskedToConnect(s.recv, id, t, u))
    && (id !in s.sess ==> !Mentions(s.sent, id) && Payloads(s.recv, id) == [])
    && (id in s.sess ==> SessOk(s, id, s.sess[id]))
  }

  /** No data frame of a session arrives before the session is stored (the proxy sends data only after
      `CmdConnected`; proved for the whole system in module Tunnel). */
  ghost predicate InOrder(s: State, e: Event, id: Id) {
    e.Receive? && IsData(e.m, id) ==> id in s.sess
  }

  // ---- proofs ------------------------------------------------------------------------------

  lemma AppendedTo(log: seq<Wire>, m: Wire, id: Id)
    ensures Payloads(log + [m], id) == Payloads(log, id) + (if IsData(m, id) then [PayloadOf(m)] else [])
    ensures Flatten(Payloads(log + [m], id))
         == Flatten(Payloads(log, id)) + (if IsData(m, id) then PayloadOf(m) else [])
    ensures Mentions(log + [m], id) <==> Mentions(log, id) || IsFor(m, id)
    ensures forall cmd :: Has(log + [m], id, cmd) <==> Has(log, id, cmd) || Carries(m, id, cmd)
  {
    PayloadsAppend(log, m, id);
    if IsData(m, id) { FlattenAppend(Payloads(log, id), PayloadOf(m)); }
    assert m in log + [m];
    assert forall x :: x in log ==> x in log + [m];
    if Mentions(log, id) {
      var x :| x in log && IsFor(x, id);
      assert x in log + [m];
    }
    forall cmd ensures Has(log + [m], id, cmd) <==> Has(log, id, cmd) || Carries(m, id, cmd) {
      if Has(log, id, cmd) {
        var x :| x in log && Carries(x, id, cmd);
        assert x in log + [m];
      }
    }
  }

  lemma AskedGrows(recv: seq<Wire>, m: Wire, id: Id)
    ensures forall t, u :: AskedToConnect(recv, id, t, u) ==> AskedToConnect(recv + [m], id, t, u)
    ensures IsConnect(m, id) ==> AskedToConnect(recv + [m], id, PayloadOf(m), CmdOf(m) == CMD_UDP_CONNECT)
  {
    assert m in recv + [m];
    if IsConnect(m, id) { assert Connects(m, id, PayloadOf(m), CmdOf(m) == CMD_UDP_CONNECT); }
    forall t, u | AskedToConnect(recv, id, t, u) ensures AskedToConnect(recv + [m], id, t, u) {
      var x :| x in recv && Connects(x, id, t, u);
      assert x in recv + [m];
    }
  }

  lemma EnqueueKeeps(x: Sess, done: bool, data: Bytes, choice: Choice, received: Bytes, frames: nat)
    requires InwardOk(received, frames, x.life, x.inward) && (x.inward.cut ==> x.life.over)
    ensures var y := Enqueue(x, done, data, choice); InwardOk(received + data, frames + 1, y.life, y.inward)
  {
    var y := Enqueue(x, done, data, choice);
    if y.inward.queue != x.inward.queue {
      QueuedKeeps(x.life, x.inward, data, received, frames);
    } else if x.life.over {
      MoreReceived(x.life, x.inward, data, received, frames);
    }
  }

  lemma QueuedKeeps(l: Life, i: Inward, data: Bytes, received: Bytes, frames: nat)
    requires InwardOk(received, frames, l, i) && (i.cut ==> l.over)
    ensures InwardOk(received + data, frames + 1, l, i.(queue := i.queue + [data], accepted := i.accepted + 1))
  {
    FlattenAppend(i.queue, data);
    assert i.toTarget + i.writing + (Flatten(i.queue) + data) == i.toTarget + i.writing + Flatten(i.queue) + data;
  }

  lemma EnqueueRest(x: Sess, done: bool, data: Bytes, choice: Choice)
    requires LifeOk(x.life)
    ensures var y := Enqueue(x, done, data, choice);
            && y.target == x.target && y.udp == x.udp && y.outward == x.outward
            && LifeOk(y.life) && y.life.hadConn == x.life.hadConn && y.life.over == x.life.over
            && (y.inward.cut ==> x.inward.cut || Overflows(x, done))
            && (y.inward.refused ==> x.inward.refused || done || x.life.closed)
            && (x.life.closed ==> y.life.closed)
  {
  }

  lemma MoreReceived(l: Life, i: Inward, data: Bytes, received: Bytes, frames: nat)
    requires InwardOk(received, frames, l, i) && l.over
    ensures InwardOk(received + data, frames + 1, l, i)
  {
  }

  lemma DataKeeps(s: State, m: Wire, choice: Choice, id: Id)
    requires Inv(s, id) && id in s.sess && IsData(m, id) && !IsBusy(s)
    ensures var c := Next(s, Receive(m, choice)); id in c.sess && SessOk(c, id, c.sess[id])
  {
    var x, c := s.sess[id], Next(s, Receive(m, choice));
    var received, frames := Flatten(Payloads(s.recv, id)), |Payloads(s.recv, id)|;
    DataEffect(s, m, choice, id);
    if x.life.listed {
      EnqueueKeeps(x, s.done, PayloadOf(m), choice, received, frames);
      EnqueueRest(x, s.done, PayloadOf(m), choice);
    } else {
      MoreReceived(x.life, x.inward, PayloadOf(m), received, frames);
    }
    DataSeen(s, c, m, id, c.sess[id]);
  }

  lemma DataEffect(s: State, m: Wire, choice: Choice, id: Id)
    requires id in s.sess && IsData(m, id) && !IsBusy(s)
    ensures var c, x := Next(s, Receive(m, choice)), s.sess[id];
            && c.recv == s.recv + [m] && c.sent == s.sent && c.done == s.done && id in c.sess
            && c.sess[id] == (if x.life.listed then Enqueue(x, s.done, PayloadOf(m), choice) else x)
            && c.busy == (if x.life.listed && Overflows(x, s.done) then id else [])
  {
  }

  /** A data frame of the session is on record; the session itself is right already. */
  lemma DataSeen(s: State, c: State, m: Wire, id: Id, y: Sess)
    requires id in s.sess && SessOk(s, id, s.sess[id]) && IsData(m, id)
    requires c.recv == s.recv + [m] && c.sent == s.sent && c.done == s.done && y.target == s.sess[id].target
    requires LifeOk(y.life) && y.udp == s.sess[id].udp && y.outward == s.sess[id].outward
    requires y.life.hadConn == s.sess[id].life.hadConn
    requires InwardOk(Flatten(Payloads(s.recv, id)) + PayloadOf(m), |Payloads(s.recv, id)| + 1, y.life, y.inward)
    requires y.inward.cut && !y.life.over ==> c.busy == id && id != []
    requires y.inward.refused ==> c.done || y.life.closed
    ensures SessOk(c, id, y)
  {
    AppendedTo(s.recv, m, id);
    AskedGrows(s.recv, m, id);
  }

  lemma NoDataEffect(s: State, m: Wire, choice: Choice, id: Id)
    requires id in s.sess && !IsData(m, id) && !IsBusy(s)
    ensures var c := Next(s, Receive(m, choice));
            && id in c.sess && (c.sess[id] == s.sess[id] || c.sess[id] == Close(s.sess[id]))
            && c.recv == s.recv + [m] && c.sent == s.sent && c.done == s.done
  {
  }

  lemma CloseKeeps(s: State, id: Id, x: Sess)
    requires SessOk(s, id, x)
    ensures SessOk(s, id, Close(x))
  {
    LifeOnly(Flatten(Payloads(s.recv, id)), |Payloads(s.recv, id)|, Payloads(s.sent, id), x, Close(x).life);
  }

  /** A session sees only the frames of its own id. */
  lemma SessOkFrame(s: State, c: State, m: Wire, id: Id, x: Sess)
    requires SessOk(s, id, x) && !IsData(m, id) && c.recv == s.recv + [m] && c.sent == s.sent && c.done == s.done
    requires x.inward.cut ==> x.life.over
    ensures SessOk(c, id, x)
  {
    AppendedTo(s.recv, m, id);
    AskedGrows(s.recv, m, id);
  }

  lemma NoDataKeeps(s: State, m: Wire, choice: Choice, id: Id)
    requires Inv(s, id) && id in s.sess && !IsData(m, id) && !IsBusy(s)
    ensures var c := Next(s, Receive(m, choice)); id in c.sess && SessOk(c, id, c.sess[id])
  {
    var c := Next(s, Receive(m, choice));
    NoDataEffect(s, m, choice, id);
    CloseKeeps(s, id, s.sess[id]);
    SessOkFrame(s, c, m, id, c.sess[id]);
  }

  lemma OpensKeep(s: State, m: Wire, choice: Choice, id: Id)
    requires Inv(s, id) && !IsBusy(s)
    ensures var c := Next(s, Receive(m, choice));
            forall t, u :: (id, t, u) in c.opens ==> AskedToConnect(c.recv, id, t, u)
  {
    AskedGrows(s.recv, m, id);
  }

  lemma ReceiveKeeps(s: State, m: Wire, choice: Choice, id: Id)
    requires Inv(s, id) && (IsData(m, id) ==> id in s.sess)
    ensures Inv(Next(s, Receive(m, choice)), id)
  {
    if !IsBusy(s) {
      OpensKeep(s, m, choice, id);
      if id in s.sess {
        if IsData(m, id) { DataKeeps(s, m, choice, id); } else { NoDataKeeps(s, m, choice, id); }
      } else {
        AppendedTo(s.recv, m, id);
      }
    }
  }

  /** The outgoing log after a packet of session `x`. */
  lemma PacketSeen(sent: seq<Wire>, x: Id, cmd: Byte, data: Bytes, id: Id)
    requires |x| == ID_LEN
    ensures var m := Binary(Packet(x, cmd, data));
            var carries := x == id && (cmd == CMD_DATA || cmd == CMD_UDP_DATA);
            && Payloads(sent + [m], id) == Payloads(sent, id) + (if carries then [data] else [])
            && (Has(sent + [m], id, CMD_CONNECTED) <==>
                  Has(sent, id, CMD_CONNECTED) || (x == id && cmd == CMD_CONNECTED))
            && (Mentions(sent + [m], id) <==> Mentions(sent, id) || x == id)
  {
    PacketParses(x, cmd, data);
    AppendedTo(sent, Binary(Packet(x, cmd, data)), id);
  }

  lemma TakeKeeps(received: Bytes, frames: nat, l: Life, i: Inward)
    requires InwardOk(received, frames, l, i) && i.writing == [] && i.queue != [] && l.conn && LifeOk(l)
    ensures InwardOk(received, frames, l, i.(writing := i.queue[0], queue := i.queue[1..]))
  {
    assert i.queue == [i.queue[0]] + i.queue[1..];
    FlattenPrepend(i.queue[0], i.queue[1..]);
    assert i.toTarget + i.writing == i.toTarget;
    assert i.toTarget + (i.queue[0] + Flatten(i.queue[1..])) == i.toTarget + i.queue[0] + Flatten(i.queue[1..]);
  }

  /** Writing moves bytes from the front of the queue to the target and loses none on the way. */
  lemma WriterKeeps(received: Bytes, frames: nat, l: Life, i: Inward, e: Event, done: bool)
    requires LifeOk(l) && InwardOk(received, frames, l, i)
    ensures InwardOk(received, frames, l, WriterStep(i, l, e, done).0)
  {
    if e.WriterTake? {
      if i.writing == [] && i.queue != [] && l.conn { TakeKeeps(received, frames, l, i); }
    } else if (e.WriterWrite? || e.WriterFail?) && e.n <= |i.writing| {
      assert i.toTarget + i.writing[..e.n] + i.writing[e.n..] == i.toTarget + i.writing;
    }
  }

  lemma LifeKeeps(l: Life, e: Event)
    requires LifeOk(l)
    ensures LifeOk(LifeStep(l, e)) && (l.hadConn ==> LifeStep(l, e).hadConn) && (l.over ==> LifeStep(l, e).over)
  {
  }

  function QueuedBy(queued: seq<Bytes>, out: Output): seq<Bytes> {
    if out.Emit? && (out.cmd == CMD_DATA || out.cmd == CMD_UDP_DATA) then queued + [out.data] else queued
  }

  lemma FragmentKeeps(queued: seq<Bytes>, hadConn: bool, udp: bool, o: Outward)
    requires OutwardOk(queued, hadConn, udp, o) && o.on && o.pending != []
    ensures var n := FragmentSize(o, udp);
            OutwardOk(queued + [o.pending[..n]], hadConn, udp, o.(pending := o.pending[n..]))
  {
    var n := FragmentSize(o, udp);
    FlattenAppend(queued, o.pending[..n]);
    assert Flatten(queued) + o.pending[..n] + o.pending[n..] == Flatten(queued) + o.pending;
  }

  lemma ReadKeeps(queued: seq<Bytes>, hadConn: bool, udp: bool, o: Outward, data: Bytes)
    requires OutwardOk(queued, hadConn, udp, o) && o.on && o.pending == []
    ensures OutwardOk(queued, hadConn, udp, o.(fromTarget := o.fromTarget + data, pending := data))
  {
    assert Flatten(queued) + o.pending == Flatten(queued);
  }

  /** Reading appends to what was read; a fragment moves its bytes from pending to queued. */
  lemma ReaderKeeps(queued: seq<Bytes>, l: Life, udp: bool, o: Outward, e: Event, canSend: bool)
    requires LifeOk(l) && OutwardOk(queued, l.hadConn, udp, o)
    ensures var (p, out, _) := ReaderStep(o, l, udp, e, canSend);
            OutwardOk(QueuedBy(queued, out), l.hadConn, udp, p)
  {
    var (p, out, _) := ReaderStep(o, l, udp, e, canSend);
    if e.SendFragment? {
      if o.on && o.pending != [] && canSend { FragmentKeeps(queued, l.hadConn, udp, o); }
    } else if e.TargetRead? {
      if o.on && o.pending == [] { ReadKeeps(queued, l.hadConn, udp, o, e.data); }
    } else {
      ReaderRests(queued, l, udp, o, e, canSend);
    }
  }

  lemma ReaderRests(queued: seq<Bytes>, l: Life, udp: bool, o: Outward, e: Event, canSend: bool)
    requires !e.SendFragment? && !e.TargetRead?
    ensures var (p, out, _) := ReaderStep(o, l, udp, e, canSend);
            && QueuedBy(queued, out) == queued
            && p.fromTarget == o.fromTarget && p.pending == o.pending && (p.on ==> o.on)
  {
  }

  /** The moment the connection is stored, both goroutines start with nothing read or written. */
  lemma StartKeeps(received: Bytes, frames: nat, queued: seq<Bytes>, x: Sess, e: Event, y: Sess)
    requires LifeOk(x.life) && InwardOk(received, frames, x.life, x.inward)
    requires OutwardOk(queued, x.life.hadConn, x.udp, x.outward)
    requires y.life == LifeStep(x.life, e) && y.life.hadConn && !x.life.hadConn && y.udp == x.udp
    requires y.inward == x.inward.(on := true) && y.outward == x.outward.(on := true)
    ensures InwardOk(received, frames, y.life, y.inward)
    ensures OutwardOk(queued, y.life.hadConn, y.udp, y.outward)
  {
    assert Flatten([]) == [];
    assert !x.life.over && !y.life.over;
  }

  lemma LifeOnly(received: Bytes, frames: nat, queued: seq<Bytes>, x: Sess, l: Life)
    requires InwardOk(received, frames, x.life, x.inward) && OutwardOk(queued, x.life.hadConn, x.udp, x.outward)
    requires l.hadConn == x.life.hadConn && (x.life.over ==> l.over)
    ensures InwardOk(received, frames, l, x.inward) && OutwardOk(queued, l.hadConn, x.udp, x.outward)
  {
  }

  predicate IsLifeEvent(e: Event) {
    e.DialFail? || e.DialDone? || e.BeginClose? || e.ReleaseConn? || e.CloseSocket? || e.Unlist?
  }

  lemma LifeEventKeeps(received: Bytes, frames: nat, queued: seq<Bytes>, x: Sess, e: Event, done: bool, canSend: bool)
    requires LifeOk(x.life) && InwardOk(received, frames, x.life, x.inward) && IsLifeEvent(e)
    requires OutwardOk(queued, x.life.hadConn, x.udp, x.outward)
    ensures var y := Act(x, e, done, canSend).0;
            && LifeOk(y.life) && InwardOk(received, frames, y.life, y.inward)
            && OutwardOk(queued, y.life.hadConn, y.udp, y.outward)
  {
    var y := Act(x, e, done, canSend).0;
    LifeKeeps(x.life, e);
    assert y.life == LifeStep(x.life, e);
    if y.life.hadConn && !x.life.hadConn {
      StartKeeps(received, frames, queued, x, e, y);
    } else {
      assert y.inward == x.inward && y.outward == x.outward;
      LifeOnly(received, frames, queued, x, y.life);
    }
  }

  lemma FlowEffect(x: Sess, e: Event, done: bool, canSend: bool)
    requires !IsLifeEvent(e)
    ensures var (y, out) := Act(x, e, done, canSend);
            && (y.life == x.life || y.life == x.life.(closed := true))
            && y.inward == WriterStep(x.inward, x.life, e, done).0
            && y.outward == ReaderStep(x.outward, x.life, x.udp, e, canSend).0
            && out == ReaderStep(x.outward, x.life, x.udp, e, canSend).1
            && y.udp == x.udp
  {
  }

  lemma FlowEventKeeps(received: Bytes, frames: nat, queued: seq<Bytes>, x: Sess, e: Event, done: bool, canSend: bool)
    requires LifeOk(x.life) && InwardOk(received, frames, x.life, x.inward) && !IsLifeEvent(e)
    requires OutwardOk(queued, x.life.hadConn, x.udp, x.outward)
    ensures var (y, out) := Act(x, e, done, canSend);
            && LifeOk(y.life) && InwardOk(received, frames, y.life, y.inward)
            && OutwardOk(QueuedBy(queued, out), y.life.hadConn, y.udp, y.outward)
  {
    var (y, out) := Act(x, e, done, canSend);
    FlowEffect(x, e, done, canSend);
    WriterKeeps(received, frames, x.life, x.inward, e, done);
    ReaderKeeps(queued, x.life, x.udp, x.outward, e, canSend);
    LifeOnly(received, frames, QueuedBy(queued, out), x.(inward := y.inward, outward := y.outward), y.life);
  }

  lemma ActKeeps(received: Bytes, frames: nat, queued: seq<Bytes>, x: Sess, e: Event, done: bool, canSend: bool)
    requires LifeOk(x.life) && InwardOk(received, frames, x.life, x.inward)
    requires OutwardOk(queued, x.life.hadConn, x.udp, x.outward)
    ensures var (y, out) := Act(x, e, done, canSend);
            && LifeOk(y.life) && InwardOk(received, frames, y.life, y.inward)
            && OutwardOk(QueuedBy(queued, out), y.life.hadConn, y.udp, y.outward)
  {
    if IsLifeEvent(e) {
      assert QueuedBy(queued, Act(x, e, done, canSend).1) == queued;
      LifeEventKeeps(received, frames, queued, x, e, done, canSend);
    } else {
      FlowEventKeeps(received, frames, queued, x, e, done, canSend);
    }
  }

  lemma ActRest(x: Sess, e: Event, done: bool, canSend: bool)
    ensures var y := Act(x, e, done, canSend).0;
            && y.target == x.target && y.udp == x.udp
            && (x.life.hadConn ==> y.life.hadConn) && (x.life.over ==> y.life.over)
            && y.inward.cut == x.inward.cut && y.inward.refused == x.inward.refused
            && (x.life.closed ==> y.life.closed)
  {
    LifeRest(x.life, e);
    WriterRest(x.inward, x.life, e, done);
  }

  lemma LifeRest(l: Life, e: Event)
    ensures var k := LifeStep(l, e);
            (l.hadConn ==> k.hadConn) && (l.over ==> k.over) && (l.closed ==> k.closed)
  {
  }

  lemma WriterRest(i: Inward, l: Life, e: Event, done: bool)
    ensures var j := WriterStep(i, l, e, done).0; j.cut == i.cut && j.refused == i.refused
  {
  }

  lemma AnnounceOnlyConnected(x: Sess, e: Event, done: bool, canSend: bool)
    requires LifeOk(x.life)
    ensures Act(x, e, done, canSend).1.Emit? && Act(x, e, done, canSend).1.cmd == CMD_CONNECTED ==> x.life.hadConn
    ensures Act(x, e, done, canSend).1.Emit? ==> canSend
  {
  }

  /** The log after the step, as the session sees it. */
  lemma SentAfter(s: State, id: Id, y: Sess, out: Output)
    requires out.Emit? ==> |id| == ID_LEN
    ensures var c := Queue(Put(s, id, y), id, out);
            && c.recv == s.recv && c.done == s.done && c.busy == s.busy && c.opens == s.opens
            && c.sess == s.sess[id := y]
            && Payloads(c.sent, id) == QueuedBy(Payloads(s.sent, id), out)
            && (Has(c.sent, id, CMD_CONNECTED) ==>
                  Has(s.sent, id, CMD_CONNECTED) || (out.Emit? && out.cmd == CMD_CONNECTED))
  {
    if out.Emit? {
      PacketSeen(s.sent, id, out.cmd, out.data, id);
    }
  }

  lemma SessionKeeps(s: State, e: Event, id: Id)
    requires Inv(s, id) && id in s.sess
    ensures Inv(SessionStep(s, e, id), id)
  {
    var x := s.sess[id];
    var can := CanSend(s, e, id);
    var (y, out) := Act(x, e, s.done, can);
    ActKeeps(Flatten(Payloads(s.recv, id)), |Payloads(s.recv, id)|, Payloads(s.sent, id), x, e, s.done, can);
    AnnounceOnlyConnected(x, e, s.done, can);
    ActRest(x, e, s.done, can);
    SentAfter(s, id, y, out);
    assert SessOk(SessionStep(s, e, id), id, y);
  }

  lemma OtherSessionKeeps(s: State, e: Event, x: Id, id: Id)
    requires Inv(s, id) && x != id && x in s.sess
    ensures Inv(SessionStep(s, e, x), id)
  {
    var (y, out) := Act(s.sess[x], e, s.done, CanSend(s, e, x));
    EmitNeedsSend(s.sess[x], e, s.done, CanSend(s, e, x));
    OtherChanges(s, x, y, out, id);
  }

  lemma EmitNeedsSend(x: Sess, e: Event, done: bool, canSend: bool)
    ensures Act(x, e, done, canSend).1.Emit? ==> canSend
  {
  }

  lemma OtherChanges(s: State, x: Id, y: Sess, out: Output, id: Id)
    requires Inv(s, id) && x != id && (out.Emit? ==> |x| == ID_LEN)
    ensures Inv(Queue(Put(s, x, y), x, out), id)
  {
    if out.Emit? {
      PacketSeen(s.sent, x, out.cmd, out.data, id);
    }
  }

  /** Every event keeps the invariant of every session of the link. */
  lemma StepKeeps(s: State, e: Event, id: Id)
    requires Inv(s, id) && InOrder(s, e, id)
    ensures Inv(Next(s, e), id)
  {
    if e.Receive? {
      ReceiveKeeps(s, e.m, e.choice, id);
    } else if e.Store? {
      if e.id == id && (e.id, e.target, e.udp) in s.opens && id !in s.sess {
        PayloadsIffData(s.sent, id);
        assert Flatten([]) == [];
      }
    } else if !e.CloseLink? && e.id in s.sess {
      if e.id == id { SessionKeeps(s, e, id); } else { OtherSessionKeeps(s, e, e.id, id); }
    }
  }
}
