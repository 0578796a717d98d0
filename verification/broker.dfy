/** The broker: it binds each session id to one (proxy connection, worker connection) pair and
    relays frames between the two ends. One event is one handled message, registration, sync of one
    worker, removal or close; the choices a `select` or the network makes are fields of the event. */
module Broker {
  import opened Frames
  import R = Registry

  datatype Session = Session(proxy: nat, worker: nat, mode: string)

  /** `reg`, `sessions`, `closed` and `asyncCloses` are the broker's tables (`closed` holds the proxy
      connections whose `close` has run, `asyncCloses` the goroutines `ProxyConnection.close` starts).
      The four logs hold every message handled from, and queued to, each connection. */
  datatype State = State(
    reg: R.State,
    sessions: map<Id, Session>,
    closed: set<nat>,
    asyncCloses: set<(Id, nat)>,
    fromProxy: Logs, toProxy: Logs,
    fromWorker: Logs, toWorker: Logs,
    past: Past)

  /** History only: every binding ever made, the target it was made for and the data frames its two ends
      had sent before it, every id asked for, and the ids stored when their proxy was already closed. */
  datatype Past = Past(
    stored: map<Id, Session>,
    target: map<Id, Bytes>,
    early: map<Id, Early>,
    requested: set<Id>,
    late: set<Id>)

  /** Data frames that the proxy (`up`) and the worker (`down`) sent before their session was stored. */
  datatype Early = Early(up: seq<Wire>, down: seq<Wire>)

  const Init := State(R.Init, map[], {}, {}, map[], map[], map[], map[], Past(map[], map[], map[], {}, {}))

  datatype Event =
    | ProxyMessage(p: nat, m: Wire, sendOk: bool, writeOk: bool, uuid: Id, errText: Bytes)
    | ProxyClose(p: nat, order: seq<Id>)
    | WorkerMessage(w: nat, m: Wire, writeOk: bool)
    | WorkerRegister(w: nat, guid: string, group: string, order: seq<Id>, oks: set<Id>)
    | WorkerMove(guid: string, group: string)
    | WorkerRemove(w: nat, order: seq<Id>, oks: set<Id>)
    | AsyncClose(id: Id, w: nat, sendOk: bool)

  // ---- queues --------------------------------------------------------------------------

  /** `ProxyConnection.write` refuses only when the connection is closed, and then it may still
      choose the queue. */
  predicate WriteFails(b: State, p: nat, writeOk: bool) {
    p in b.closed && !writeOk
  }

  function Write(b: State, p: nat, m: Wire, writeOk: bool): (r: State)
    ensures r == b.(toProxy := r.toProxy)
  {
    if WriteFails(b, p, writeOk) then b else b.(toProxy := Append(b.toProxy, p, m))
  }

  /** `sendToWorker`: the worker's queue, or an error (worker gone, or the 30 second timer). */
  function Send(b: State, w: nat, m: Wire, sendOk: bool): (r: State)
    ensures r == b.(toWorker := r.toWorker)
  {
    if sendOk then b.(toWorker := Append(b.toWorker, w, m)) else b
  }

  function Delete(b: State, id: Id): State {
    b.(sessions := b.sessions - {id})
  }

  // ---- messages from a proxy -----------------------------------------------------------

  function RequestId(req: Request, uuid: Id): Id {
    if req.id == [] then uuid else req.id
  }

  function Open(b0: State, p: nat, req: Request, sendOk: bool, writeOk: bool, uuid: Id,
                errText: Bytes): (r: State)
    ensures r.reg == b0.reg || r.reg == R.Pick(b0.reg, req.route).0
    ensures Binds(b0, r, p, RequestId(req, uuid))
  {
    var id := RequestId(req, uuid);
    var b := Noted(b0, id);
    var mode := if req.mode == "" then "tcp" else req.mode;
    if (mode != "tcp" && mode != "udp") || |id| != ID_LEN || id in b.sessions then b else
      Grant(b, p, req, mode, sendOk, writeOk, errText, id)
  }

  /** A well-formed request of a new id: a worker is picked and the session stored, or refused. */
  function Grant(b: State, p: nat, req: Request, mode: string, sendOk: bool, writeOk: bool,
                 errText: Bytes, id: Id): (r: State)
    ensures r.reg == R.Pick(b.reg, req.route).0
    ensures Binds(b, r, p, id)
  {
    var (reg, picked) := R.Pick(b.reg, req.route);
    var b1 := SetReg(b, reg);
    if picked.None? then
      Write(b1, p, Binary(Packet(id, CMD_ERROR, errText)), writeOk)
    else
      OpenTail(Bind(b1, id, Session(p, picked.value, mode), req.target),
               p, picked.value, mode, req, sendOk, writeOk, errText, id)
  }

  /** The connect frame to the worker, or the error frame to the proxy when it cannot be queued. */
  function OpenTail(b: State, p: nat, w: nat, mode: string, req: Request, sendOk: bool, writeOk: bool,
                    errText: Bytes, id: Id): (r: State)
    ensures r == b.(sessions := r.sessions, toProxy := r.toProxy, toWorker := r.toWorker)
  {
    var cmd := if mode == "udp" then CMD_UDP_CONNECT else CMD_CONNECT;
    if sendOk then Send(b, w, Binary(Packet(id, cmd, req.target)), true)
    else Write(Delete(b, id), p, Binary(Packet(id, CMD_ERROR, errText)), writeOk)
  }

  /** Between `b` and `c` no binding was made, or just one: `id` to proxy `p`. */
  predicate Binds(b: State, c: State, p: nat, id: Id) {
    || (&& c.past.stored == b.past.stored && c.past.target == b.past.target
        && c.past.late == b.past.late && c.past.early == b.past.early)
    || (&& id in c.past.stored && c.past.stored[id].proxy == p
        && c.past.stored == b.past.stored[id := c.past.stored[id]]
        && id in c.past.target && c.past.target == b.past.target[id := c.past.target[id]]
        && c.past.late == (if p in b.closed then b.past.late + {id} else b.past.late)
        && c.past.early == b.past.early[id := EarlyFrames(b, id, c.past.stored[id])])
  }

  function EarlyFrames(b: State, id: Id, s: Session): Early {
    Early(DataFrames(At(b.fromProxy, s.proxy), id), DataFrames(At(b.fromWorker, s.worker), id))
  }

  function Noted(b: State, id: Id): State {
    b.(past := b.past.(requested := b.past.requested + {id}))
  }

  function Bind(b: State, id: Id, s: Session, target: Bytes): State {
    b.(sessions := b.sessions[id := s], past := Bound(b, id, s, target))
  }

  function Bound(b: State, id: Id, s: Session, target: Bytes): Past {
    Past(b.past.stored[id := s],
         b.past.target[id := target],
         b.past.early[id := EarlyFrames(b, id, s)],
         b.past.requested,
         if s.proxy in b.closed then b.past.late + {id} else b.past.late)
  }

  function ProxyFrame(b: State, p: nat, m: Wire, sendOk: bool, writeOk: bool): (r: State)
    requires IsFrame(m)
    ensures r == b.(sessions := r.sessions, toProxy := r.toProxy, toWorker := r.toWorker)
  {
    var id := IdOf(m);
    if id !in b.sessions || b.sessions[id].proxy != p then b else
      var w := b.sessions[id].worker;
      if CmdOf(m) == CMD_DATA || CmdOf(m) == CMD_UDP_DATA then
        if sendOk then Send(b, w, Binary(Packet(id, CmdOf(m), PayloadOf(m))), true)
        else Write(Delete(b, id), p, Binary(Packet(id, CMD_CLOSE, [])), writeOk)
      else if CmdOf(m) == CMD_CLOSE then
        Delete(Send(b, w, Binary(Packet(id, CMD_CLOSE, [])), sendOk), id)
      else b
  }

  function FromProxy(b: State, p: nat, m: Wire): State {
    b.(fromProxy := Append(b.fromProxy, p, m))
  }

  function FromWorker(b: State, w: nat, m: Wire): State {
    b.(fromWorker := Append(b.fromWorker, w, m))
  }

  // ---- messages from a worker ----------------------------------------------------------

  function WorkerFrame(b: State, w: nat, m: Wire, writeOk: bool): (r: State)
    requires IsFrame(m)
    ensures r == b.(sessions := r.sessions, toProxy := r.toProxy)
  {
    var id := IdOf(m);
    if id !in b.sessions || b.sessions[id].worker != w then b else
      var p := b.sessions[id].proxy;
      var cmd := CmdOf(m);
      if cmd == CMD_DATA || cmd == CMD_UDP_DATA || cmd == CMD_CONNECTED then
        if WriteFails(b, p, writeOk) then Delete(b, id) else Write(b, p, m, writeOk)
      else if cmd == CMD_CLOSE then Delete(Write(b, p, m, writeOk), id)
      else b
  }

  // ---- removal and close ---------------------------------------------------------------

  /** `order` is one order in which `sessions.Range` can meet the sessions of worker `w`. In
      `WorkerRemove`, `oks` says for which of them a closed proxy's queue still takes the close frame. */
  ghost predicate IsOrder(b: State, order: seq<Id>, w: nat) {
    && (forall id :: id in order <==> id in b.sessions && b.sessions[id].worker == w)
    && forall i, j :: 0 <= i < j < |order| ==> order[i] != order[j]
  }

  ghost predicate IsProxyOrder(b: State, order: seq<Id>, p: nat) {
    && (forall id :: id in order <==> id in b.sessions && b.sessions[id].proxy == p)
    && forall i, j :: 0 <= i < j < |order| ==> order[i] != order[j]
  }

  /** One turn of the loop in `removeWorker`. */
  function DropForWorker(b: State, id: Id, writeOk: bool): State {
    if id !in b.sessions then b else
      Delete(Write(b, b.sessions[id].proxy, Binary(Packet(id, CMD_CLOSE, [])), writeOk), id)
  }

  /** One turn of the loop in `ProxyConnection.close`. */
  function DropForProxy(b: State, id: Id): State {
    if id !in b.sessions then b else
      Delete(b.(asyncCloses := b.asyncCloses + {(id, b.sessions[id].worker)}), id)
  }

  function DropAllForWorker(b: State, order: seq<Id>, oks: set<Id>): (r: State)
    ensures r == b.(sessions := r.sessions, toProxy := r.toProxy)
  {
    if order == [] then b else
      var id := order[|order| - 1];
      DropForWorker(DropAllForWorker(b, order[..|order| - 1], oks), id, id in oks)
  }

  function DropAllForProxy(b: State, order: seq<Id>): (r: State)
    ensures r == b.(sessions := r.sessions, asyncCloses := r.asyncCloses)
  {
    if order == [] then b else DropForProxy(DropAllForProxy(b, order[..|order| - 1]), order[|order| - 1])
  }

  function SetReg(b: State, reg: R.State): State {
    b.(reg := reg)
  }

  /** `removeWorker`: the sessions of `w` are dropped, each with a close frame to its proxy. */
  ghost function RemoveWorker(b: State, w: nat, order: seq<Id>, oks: set<Id>): (r: State)
    ensures r == b.(sessions := r.sessions, toProxy := r.toProxy, reg := r.reg)
  {
    if w in b.reg.removed || !IsOrder(b, order, w) then b else
      SetReg(DropAllForWorker(b, order, oks), R.Remove(b.reg, w))
  }

  ghost function RegisterWorker(b: State, w: nat, guid: string, group: string, order: seq<Id>, oks: set<Id>): (r: State)
    ensures r == b.(sessions := r.sessions, toProxy := r.toProxy, reg := r.reg)
  {
    if guid == "" || w in b.reg.guidOf then b else
      var b1 := SetReg(b, R.Add(b.reg, w, guid, group));
      if guid !in b.reg.active then b1 else
        var previous := b.reg.active[guid];
        if previous !in b.reg.removed && !IsOrder(b, order, previous) then b else
        RemoveWorker(b1, previous, order, oks)
  }

  ghost function CloseProxy(b: State, p: nat, order: seq<Id>): (r: State)
    ensures r == b.(sessions := r.sessions, asyncCloses := r.asyncCloses, closed := r.closed)
  {
    if p in b.closed || !IsProxyOrder(b, order, p) then b else
      DropAllForProxy(b.(closed := b.closed + {p}), order)
  }

  ghost function Next(b: State, e: Event): State {
    match e
    case ProxyMessage(p, m, sendOk, writeOk, uuid, errText) =>
      var b1 := FromProxy(b, p, m);
      if m.Text? then Open(b1, p, m.req, sendOk, writeOk, uuid, errText)
      else if IsFrame(m) then ProxyFrame(b1, p, m, sendOk, writeOk)
      else b1
    case ProxyClose(p, order) => CloseProxy(b, p, order)
    case WorkerMessage(w, m, writeOk) =>
      var b1 := FromWorker(b, w, m);
      if IsFrame(m) then WorkerFrame(b1, w, m, writeOk) else b1
    case WorkerRegister(w, guid, group, order, oks) => RegisterWorker(b, w, guid, group, order, oks)
    case WorkerMove(guid, group) => SetReg(b, R.Move(b.reg, guid, group))
    case WorkerRemove(w, order, oks) => RemoveWorker(b, w, order, oks)
    case AsyncClose(id, w, sendOk) =>
      if (id, w) !in b.asyncCloses then b else
        Send(b.(asyncCloses := b.asyncCloses - {(id, w)}), w, Binary(Packet(id, CMD_CLOSE, [])), sendOk)
  }

  // ---- what every event keeps, for an arbitrary session id ------------------------------

  ghost predicate Unbound(b: State, id: Id) {
    && id !in b.sessions && id !in b.past.target && id !in b.past.late
    && (forall w :: !Mentions(At(b.toWorker, w), id))
    && (forall p :: Mentions(At(b.toProxy, p), id) ==> id in b.past.requested)
    && (forall p, m :: m in At(b.toProxy, p) && IsFor(m, id) ==> CmdOf(m) == CMD_ERROR)
    && (forall a :: a in b.asyncCloses ==> a.0 != id)
  }

  /** Only the two ends of the binding ever get a frame of the session. */
  ghost predicate Isolated(b: State, id: Id)
    requires id in b.past.stored
  {
    var s := b.past.stored[id];
    && (forall w :: w != s.worker ==> !Mentions(At(b.toWorker, w), id))
    && (forall p :: p != s.proxy ==> !Mentions(At(b.toProxy, p), id))
    && (forall a :: a in b.asyncCloses && a.0 == id ==> a.1 == s.worker)
  }

  /** Each direction relays, byte for byte, a prefix of the data frames it received since the session was
      stored, and all of them while the session is in the table. */
  ghost predicate Relayed(b: State, id: Id)
    requires id in b.past.stored
  {
    var s := b.past.stored[id];
    && id in b.past.early
    && RelaysFrom(b.past.early[id].up, DataFrames(At(b.fromProxy, s.proxy), id),
                  DataFrames(At(b.toWorker, s.worker), id), id in b.sessions)
    && RelaysFrom(b.past.early[id].down, DataFrames(At(b.fromWorker, s.worker), id),
                  DataFrames(At(b.toProxy, s.proxy), id), id in b.sessions)
  }

  predicate RelaysFrom(early: seq<Wire>, received: seq<Wire>, sent: seq<Wire>, live: bool) {
    early + sent <= received && (live ==> early + sent == received)
  }

  ghost predicate Handshake(b: State, id: Id)
    requires id in b.past.stored
  {
    var s := b.past.stored[id];
    && id in b.past.target
    && (exists m :: m in At(b.fromProxy, s.proxy) && AsksFor(m, id, b.past.target[id], s.mode == "udp"))
    && (forall m :: m in At(b.toWorker, s.worker) && IsConnect(m, id) ==>
          Connects(m, id, b.past.target[id], s.mode == "udp"))
    && (Has(At(b.toProxy, s.proxy), id, CMD_CONNECTED) ==> Has(At(b.fromWorker, s.worker), id, CMD_CONNECTED))
  }

  predicate AsksFor(m: Wire, id: Id, target: Bytes, udp: bool) {
    m.Text? && (m.req.id == id || m.req.id == []) && m.req.target == target && (m.req.mode == "udp" <==> udp)
  }

  /** Both ends are live: the worker always, the proxy exactly when it was open at the store. */
  ghost predicate LiveEnds(b: State, id: Id) {
    id in b.sessions ==>
      && b.sessions[id].worker !in b.reg.removed
      && b.sessions[id].worker in b.reg.guidOf
      && (b.sessions[id].proxy in b.closed <==> id in b.past.late)
  }

  /** A session that left the table did not leave silently. */
  ghost predicate Accounted(b: State, id: Id)
    requires id in b.past.stored
  {
    var p := b.past.stored[id].proxy;
    || id in b.sessions
    || Has(At(b.fromProxy, p), id, CMD_CLOSE)
    || p in b.closed
    || Has(At(b.toProxy, p), id, CMD_CLOSE)
    || Has(At(b.toProxy, p), id, CMD_ERROR)
  }

  ghost predicate Core(b: State, id: Id) {
    && (id !in b.past.stored ==> Unbound(b, id))
    && (id in b.past.stored ==>
          && id in b.past.requested && |id| == ID_LEN
          && (id in b.sessions ==> b.sessions[id] == b.past.stored[id])
          && Isolated(b, id) && Relayed(b, id) && Handshake(b, id) && Accounted(b, id))
  }

  ghost predicate Inv(b: State, id: Id) {
    Core(b, id) && LiveEnds(b, id)
  }

  /** Session ids are never reused. */
  predicate Fresh(b: State, e: Event) {
    e.ProxyMessage? && e.m.Text? ==> RequestId(e.m.req, e.uuid) !in b.past.requested
  }
}
