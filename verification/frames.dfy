/** The multiplexing frame shared by the proxy, the broker and the worker: a 36-byte session id,
    one command byte and a payload; and the message logs that the links between them carry. */
module Frames {

  newtype Byte = x: int | 0 <= x < 256
  type Bytes = seq<Byte>
  type Id = Bytes

  const ID_LEN := 36
  const HEADER_LEN := 37

  /** The most payload a worker puts in one data frame of a stream. */
  const MAX_PACKET_DATA := 32768

  const CMD_DATA: Byte := 0
  const CMD_CONNECT: Byte := 1
  const CMD_CONNECTED: Byte := 2
  const CMD_CLOSE: Byte := 3
  const CMD_ERROR: Byte := 4
  const CMD_UDP_CONNECT: Byte := 5
  const CMD_UDP_DATA: Byte := 6

  /** The JSON request a proxy sends to open a session. */
  datatype Request = Request(id: Id, route: string, target: Bytes, mode: string)

  /** A websocket message: a text message holding a request, or a binary message. */
  datatype Wire = Text(req: Request) | Binary(data: Bytes)

  /** `copy(b[:36], id)`: a longer id is cut, a shorter one leaves zero bytes. */
  function IdField(id: Bytes): (f: Bytes)
    ensures |f| == ID_LEN
    ensures |id| == ID_LEN ==> f == id
  {
    if |id| >= ID_LEN then id[..ID_LEN] else id + seq(ID_LEN - |id|, _ => 0)
  }

  function Packet(id: Bytes, cmd: Byte, data: Bytes): Bytes {
    IdField(id) + [cmd] + data
  }

  predicate IsFrame(m: Wire) {
    m.Binary? && |m.data| >= HEADER_LEN
  }

  function IdOf(m: Wire): (id: Id)
    requires IsFrame(m)
  {
    m.data[..ID_LEN]
  }

  function CmdOf(m: Wire): Byte
    requires IsFrame(m)
  {
    m.data[ID_LEN]
  }

  function PayloadOf(m: Wire): Bytes
    requires IsFrame(m)
  {
    m.data[HEADER_LEN..]
  }

  predicate IsFor(m: Wire, id: Id) {
    IsFrame(m) && IdOf(m) == id
  }

  predicate Carries(m: Wire, id: Id, cmd: Byte) {
    IsFor(m, id) && CmdOf(m) == cmd
  }

  predicate IsData(m: Wire, id: Id) {
    Carries(m, id, CMD_DATA) || Carries(m, id, CMD_UDP_DATA)
  }

  predicate IsConnect(m: Wire, id: Id) {
    Carries(m, id, CMD_CONNECT) || Carries(m, id, CMD_UDP_CONNECT)
  }

  /** A connect frame of the session for this target, over UDP or over TCP. */
  predicate Connects(m: Wire, id: Id, target: Bytes, udp: bool) {
    Carries(m, id, if udp then CMD_UDP_CONNECT else CMD_CONNECT) && PayloadOf(m) == target
  }

  /** Every node recovers from a packet exactly what was put in. */
  lemma PacketParses(id: Id, cmd: Byte, data: Bytes)
    requires |id| == ID_LEN
    ensures var m := Binary(Packet(id, cmd, data));
            IsFrame(m) && IdOf(m) == id && CmdOf(m) == cmd && PayloadOf(m) == data
  {
    var b := Packet(id, cmd, data);
    assert b[..ID_LEN] == id;
    assert b[HEADER_LEN..] == data;
  }

  /** Re-encoding a parsed frame gives the same bytes, so the broker's proxy-to-worker hop,
      which rebuilds the packet, is byte-identical. */
  lemma ReencodingIsIdentity(m: Wire)
    requires IsFrame(m)
    ensures Binary(Packet(IdOf(m), CmdOf(m), PayloadOf(m))) == m
  {
    assert m.data == m.data[..ID_LEN] + [m.data[ID_LEN]] + m.data[HEADER_LEN..];
  }

  // ---- logs ------------------------------------------------------------------------------

  /** Some message of the log is a frame of session `id`. */
  ghost predicate Mentions(log: seq<Wire>, id: Id) {
    exists m :: m in log && IsFor(m, id)
  }

  ghost predicate Has(log: seq<Wire>, id: Id, cmd: Byte) {
    exists m :: m in log && Carries(m, id, cmd)
  }

  ghost predicate HasData(log: seq<Wire>, id: Id) {
    exists m :: m in log && IsData(m, id)
  }

  /** The data frames of session `id`, whole and in order. */
  function DataFrames(log: seq<Wire>, id: Id): seq<Wire> {
    if log == [] then [] else
      var rest := DataFrames(log[..|log| - 1], id);
      var m := log[|log| - 1];
      if IsData(m, id) then rest + [m] else rest
  }

  /** The payloads of the data frames of session `id`, in order. */
  function Payloads(log: seq<Wire>, id: Id): seq<Bytes> {
    if log == [] then [] else
      var rest := Payloads(log[..|log| - 1], id);
      var m := log[|log| - 1];
      if IsData(m, id) then rest + [PayloadOf(m)] else rest
  }

  function Flatten(chunks: seq<Bytes>): Bytes {
    if chunks == [] then [] else Flatten(chunks[..|chunks| - 1]) + chunks[|chunks| - 1]
  }

  lemma DataFramesAppend(log: seq<Wire>, m: Wire, id: Id)
    ensures DataFrames(log + [m], id) == DataFrames(log, id) + (if IsData(m, id) then [m] else [])
  {
    assert (log + [m])[..|log|] == log;
  }

  lemma PayloadsAppend(log: seq<Wire>, m: Wire, id: Id)
    ensures Payloads(log + [m], id) == Payloads(log, id) + (if IsData(m, id) then [PayloadOf(m)] else [])
  {
    assert (log + [m])[..|log|] == log;
  }

  lemma FlattenAppend(chunks: seq<Bytes>, c: Bytes)
    ensures Flatten(chunks + [c]) == Flatten(chunks) + c
  {
    assert (chunks + [c])[..|chunks|] == chunks;
  }

  lemma {:induction false} FlattenPrepend(c: Bytes, chunks: seq<Bytes>)
    ensures Flatten([c] + chunks) == c + Flatten(chunks)
  {
    if chunks == [] {
      FlattenAppend([], c);
      assert [] + [c] == [c] + chunks;
    } else {
      var n := |chunks| - 1;
      FlattenPrepend(c, chunks[..n]);
      assert ([c] + chunks)[..n + 1] == [c] + chunks[..n];
    }
  }

  lemma {:induction false} FlattenPrefix(a: seq<Bytes>, b: seq<Bytes>)
    requires a <= b
    ensures Flatten(a) <= Flatten(b)
  {
    if |a| < |b| {
      var n := |b| - 1;
      FlattenPrefix(a, b[..n]);
      assert Flatten(b) == Flatten(b[..n]) + b[n];
    } else {
      assert a == b;
    }
  }

  lemma {:induction false} PayloadsPrefix(a: seq<Wire>, b: seq<Wire>, id: Id)
    requires a <= b
    ensures Payloads(a, id) <= Payloads(b, id)
  {
    if |a| < |b| {
      PayloadsPrefix(a, b[..|b| - 1], id);
    } else {
      assert a == b;
    }
  }

  lemma {:induction false} FramesPrefix(a: seq<Wire>, b: seq<Wire>, id: Id)
    requires a <= b
    ensures DataFrames(a, id) <= DataFrames(b, id)
  {
    if |a| < |b| {
      FramesPrefix(a, b[..|b| - 1], id);
    } else {
      assert a == b;
    }
  }

  lemma MemberOfPrefix(a: seq<Wire>, b: seq<Wire>, m: Wire)
    requires a <= b && m in a
    ensures m in b
  {
    var i :| 0 <= i < |a| && a[i] == m;
    assert b[i] == m;
  }

  lemma {:induction false} PayloadsOfFrames(log: seq<Wire>, id: Id)
    ensures |Payloads(log, id)| == |DataFrames(log, id)|
    ensures forall i :: 0 <= i < |Payloads(log, id)| ==>
              IsFrame(DataFrames(log, id)[i]) && Payloads(log, id)[i] == PayloadOf(DataFrames(log, id)[i])
  {
    if log != [] {
      PayloadsOfFrames(log[..|log| - 1], id);
    }
  }

  /** Byte-identical frames in order carry the same payloads in order. */
  lemma FramePrefixGivesPayloadPrefix(a: seq<Wire>, b: seq<Wire>, id: Id)
    requires DataFrames(a, id) <= DataFrames(b, id)
    ensures Payloads(a, id) <= Payloads(b, id)
  {
    PayloadsOfFrames(a, id);
    PayloadsOfFrames(b, id);
  }

  /** A log has data frames of `id` exactly when its payload list is not empty. */
  lemma {:induction false} PayloadsIffData(log: seq<Wire>, id: Id)
    ensures (Payloads(log, id) == []) == !HasData(log, id)
    ensures (DataFrames(log, id) == []) == !HasData(log, id)
  {
    if log != [] {
      var n := |log| - 1;
      PayloadsIffData(log[..n], id);
      assert log == log[..n] + [log[n]];
    }
  }

  // ---- one log per link ------------------------------------------------------------------

  type Logs = map<nat, seq<Wire>>

  function At(logs: Logs, k: nat): seq<Wire> {
    if k in logs then logs[k] else []
  }

  function Append(logs: Logs, k: nat, m: Wire): (r: Logs)
    ensures At(r, k) == At(logs, k) + [m]
    ensures forall j: nat :: j != k ==> At(r, j) == At(logs, j)
  {
    logs[k := At(logs, k) + [m]]
  }
}
