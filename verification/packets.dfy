/** The worker's packet path: fragmentation in `remoteReader`, the write loop of `sessionWriter`, and the
    ownership of pooled buffers between `sendPacket`, the send queue and `brokerWriter`. */
module Packets {
  import opened Frames

  /** The inner loop of `remoteReader`: pieces of at most 32768 bytes, none empty, all but the last
      full, that concatenate to the bytes read. */
  method CutIntoFragments(data: Bytes) returns (frames: seq<Bytes>)
    ensures Flatten(frames) == data
    ensures forall i :: 0 <= i < |frames| ==> 0 < |frames[i]| <= MAX_PACKET_DATA
    ensures forall i :: 0 <= i < |frames| - 1 ==> |frames[i]| == MAX_PACKET_DATA
  {
    frames := [];
    var rest := data;
    while |rest| > 0
      invariant Flatten(frames) + rest == data
      invariant forall i :: 0 <= i < |frames| ==> 0 < |frames[i]| <= MAX_PACKET_DATA
      invariant rest != [] ==> forall i :: 0 <= i < |frames| ==> |frames[i]| == MAX_PACKET_DATA
      invariant forall i :: 0 <= i < |frames| - 1 ==> |frames[i]| == MAX_PACKET_DATA
      decreases |rest|
    {
      var size := |rest|;
      if size > MAX_PACKET_DATA {
        size := MAX_PACKET_DATA;
      }
      FlattenAppend(frames, rest[..size]);
      assert Flatten(frames) + rest[..size] + rest[size..] == Flatten(frames) + rest;
      frames := frames + [rest[..size]];
      rest := rest[size..];
    }
  }

  /** What one `conn.Write` reports: the number of bytes it took, and whether it failed. */
  datatype WriteResult = WriteResult(n: int, failed: bool)

  /** The inner loop of `sessionWriter` over the outcomes the socket gives, one per call (running out of
      outcomes stands for a write that has not returned). What reaches the socket is a prefix of the
      chunk, the whole chunk when the loop ends well, and the session is closed otherwise. */
  method WriteChunk(chunk: Bytes, outcomes: seq<WriteResult>)
      returns (written: Bytes, closesSession: bool, calls: nat)
    ensures written <= chunk
    ensures calls <= |outcomes|
    ensures !closesSession && calls < |outcomes| ==> written == chunk
    ensures closesSession ==> calls > 0 && (outcomes[calls - 1].failed || outcomes[calls - 1].n <= 0)
    ensures forall i :: 0 <= i < calls && !(closesSession && i == calls - 1) ==>
              !outcomes[i].failed && outcomes[i].n > 0
  {
    written, closesSession, calls := [], false, 0;
    var data := chunk;
    while |data| > 0 && calls < |outcomes|
      invariant written + data == chunk
      invariant 0 <= calls <= |outcomes|
      invariant !closesSession
      invariant forall i :: 0 <= i < calls ==> !outcomes[i].failed && outcomes[i].n > 0
      decreases |outcomes| - calls
    {
      var r := outcomes[calls];
      var n := if r.n < 0 then 0 else if r.n > |data| then |data| else r.n;
      assert written + data[..n] + data[n..] == written + data;
      written := written + data[..n];
      data := data[n..];
      calls := calls + 1;
      if r.failed || r.n <= 0 {
        closesSession := true;
        return;
      }
    }
  }

  // ---- pooled buffers --------------------------------------------------------------------

  type Buf = nat

  /** A frame in a buffer: `buf[:len]`. `frame` (history) is what `sendPacket` was asked to send. */
  datatype Msg = Msg(buf: Buf, len: nat, pooled: bool, frame: Bytes)

  /** A running `sendPacket`: it has its buffer, and has copied the frame into it or not yet. */
  datatype Sender = Sender(msg: Msg, filled: bool)

  datatype Writer = Idle | Holding(msg: Msg) | Wrote(msg: Msg, ok: bool) | Stopped

  /** `mem`: contents of every buffer. `next`: no buffer of this number or above exists. `senders`: the
      running `sendPacket` calls, by goroutine. `queued` and `wire` (history): the frames put on the
      queue and written to the websocket, in order. */
  datatype State = State(
    pool: set<Buf>, next: nat, mem: map<Buf, Bytes>,
    senders: map<nat, Sender>, queue: seq<Msg>, writer: Writer,
    queued: seq<Bytes>, wire: seq<Bytes>)

  const Init := State({}, 0, map[], map[], [], Idle, [], [])

  /** `GetNew`: `sync.Pool.New`, or `make` for a large frame. `Abandon`: `done` is closed and the buffer
      goes back. `Lose`: the write deadline could not be set and the writer returns. `Forget`:
      `sync.Pool` drops an idle buffer. */
  datatype Event =
    | GetNew(g: nat, frame: Bytes)
    | GetPooled(g: nat, frame: Bytes, buf: Buf)
    | Fill(g: nat)
    | Enqueue(g: nat)
    | Abandon(g: nat)
    | Take
    | WriteMessage(ok: bool)
    | PutBack
    | Lose
    | Forget(buf: Buf)

  const POOLED_CAP := HEADER_LEN + MAX_PACKET_DATA

  predicate Pooled(frame: Bytes) {
    |frame| <= POOLED_CAP
  }

  function Back(s: State, m: Msg): set<Buf> {
    if m.pooled then s.pool + {m.buf} else s.pool
  }

  function Next(s: State, e: Event): State {
    match e
    case GetNew(g, frame) =>
      if g in s.senders then s else
        var cap := if Pooled(frame) then POOLED_CAP else |frame|;
        s.(next := s.next + 1,
           mem := s.mem[s.next := seq(cap, _ => 0)],
           senders := s.senders[g := Sender(Msg(s.next, |frame|, Pooled(frame), frame), false)])
    case GetPooled(g, frame, buf) =>
      if g in s.senders || buf !in s.pool || !Pooled(frame) then s else
        s.(pool := s.pool - {buf}, senders := s.senders[g := Sender(Msg(buf, |frame|, true, frame), false)])
    case Fill(g) =>
      if g !in s.senders then s else
        var m := s.senders[g].msg;
        if m.buf !in s.mem || |s.mem[m.buf]| < |m.frame| then s else
          s.(mem := s.mem[m.buf := m.frame + s.mem[m.buf][|m.frame|..]],
             senders := s.senders[g := Sender(m, true)])
    case Enqueue(g) =>
      if g !in s.senders || !s.senders[g].filled then s else
        s.(senders := s.senders - {g},
           queue := s.queue + [s.senders[g].msg],
           queued := s.queued + [s.senders[g].msg.frame])
    case Abandon(g) =>
      if g !in s.senders then s else
        s.(senders := s.senders - {g}, pool := Back(s, s.senders[g].msg))
    case Take =>
      if s.writer != Idle || s.queue == [] then s else s.(writer := Holding(s.queue[0]), queue := s.queue[1..])
    case WriteMessage(ok) =>
      if !s.writer.Holding? then s else
        var m := s.writer.msg;
        if m.buf !in s.mem || |s.mem[m.buf]| < m.len then s else
          s.(wire := if ok then s.wire + [s.mem[m.buf][..m.len]] else s.wire, writer := Wrote(m, ok))
    case PutBack =>
      if !s.writer.Wrote? then s else
        s.(writer := if s.writer.ok then Idle else Stopped, pool := Back(s, s.writer.msg))
    case Lose => if s.writer.Holding? then s.(writer := Stopped) else s
    case Forget(buf) => s.(pool := s.pool - {buf})
  }

  // ---- one owner at a time ---------------------------------------------------------------

  predicate WriterHas(s: State) {
    s.writer.Holding? || s.writer.Wrote?
  }

  /** No two of the pool, the running senders, the queued messages and the writer hold one buffer. */
  ghost predicate OneOwner(s: State) {
    && (forall g :: g in s.senders ==> s.senders[g].msg.buf !in s.pool)
    && (forall g, h :: g in s.senders && h in s.senders && g != h ==> s.senders[g].msg.buf != s.senders[h].msg.buf)
    && (forall i :: 0 <= i < |s.queue| ==> s.queue[i].buf !in s.pool)
    && (forall i, j :: 0 <= i < j < |s.queue| ==> s.queue[i].buf != s.queue[j].buf)
    && (forall g, i :: g in s.senders && 0 <= i < |s.queue| ==> s.senders[g].msg.buf != s.queue[i].buf)
    && (WriterHas(s) ==>
          && s.writer.msg.buf !in s.pool
          && (forall g :: g in s.senders ==> s.senders[g].msg.buf != s.writer.msg.buf)
          && (forall i :: 0 <= i < |s.queue| ==> s.queue[i].buf != s.writer.msg.buf))
  }

  /** The buffer still holds the frame it was filled with. */
  ghost predicate Intact(mem: map<Buf, Bytes>, m: Msg) {
    m.len == |m.frame| && m.buf in mem && m.len <= |mem[m.buf]| && mem[m.buf][..m.len] == m.frame
  }

  ghost predicate Sized(mem: map<Buf, Bytes>, m: Msg) {
    m.len == |m.frame| && m.buf in mem && m.len <= |mem[m.buf]| && (m.pooled ==> |mem[m.buf]| == POOLED_CAP)
  }

  ghost predicate BuffersOk(s: State) {
    && (forall b :: b in s.mem ==> b < s.next)
    && (forall b :: b in s.pool ==> b in s.mem && |s.mem[b]| == POOLED_CAP)
    && (forall g :: g in s.senders ==>
          Sized(s.mem, s.senders[g].msg) && (s.senders[g].filled ==> Intact(s.mem, s.senders[g].msg)))
    && (forall i :: 0 <= i < |s.queue| ==> Sized(s.mem, s.queue[i]) && Intact(s.mem, s.queue[i]))
    && (WriterHas(s) ==> Sized(s.mem, s.writer.msg))
    && (s.writer.Holding? ==> Intact(s.mem, s.writer.msg))
  }

  function FramesOf(ms: seq<Msg>): seq<Bytes> {
    if ms == [] then [] else [ms[0].frame] + FramesOf(ms[1..])
  }

  /** What was written, is held and waits is exactly what was queued, until the writer fails. */
  ghost predicate WireOk(s: State) {
    && s.wire <= s.queued
    && (s.writer.Stopped? || (s.writer.Wrote? && !s.writer.ok)
        || s.wire + (if s.writer.Holding? then [s.writer.msg.frame] else []) + FramesOf(s.queue) == s.queued)
  }

  ghost predicate Inv(s: State) {
    OneOwner(s) && BuffersOk(s) && WireOk(s)
  }

  lemma {:induction false} FramesOfAppend(ms: seq<Msg>, m: Msg)
    ensures FramesOf(ms + [m]) == FramesOf(ms) + [m.frame]
  {
    if ms == [] {
      assert ms + [m] == [m];
    } else {
      FramesOfAppend(ms[1..], m);
      assert (ms + [m])[1..] == ms[1..] + [m];
    }
  }

  /** Only the owner of a buffer writes into it, so everyone else's frames stay as they were. */
  lemma FillKeeps(s: State, g: nat)
    requires Inv(s) && g in s.senders
    ensures Inv(Next(s, Fill(g)))
  {
    var t, m := Next(s, Fill(g)), s.senders[g].msg;
    assert Sized(s.mem, m);
    assert t.mem[m.buf][..m.len] == m.frame;
    forall h | h in t.senders
      ensures Sized(t.mem, t.senders[h].msg) && (t.senders[h].filled ==> Intact(t.mem, t.senders[h].msg))
    {
      if h != g { assert t.senders[h] == s.senders[h] && Sized(s.mem, s.senders[h].msg); }
    }
    forall i | 0 <= i < |t.queue| ensures Sized(t.mem, t.queue[i]) && Intact(t.mem, t.queue[i]) {
      assert Sized(s.mem, s.queue[i]) && s.queue[i].buf != m.buf;
    }
  }

  lemma GetNewKeeps(s: State, g: nat, frame: Bytes)
    requires Inv(s) && g !in s.senders
    ensures Inv(Next(s, GetNew(g, frame)))
  {
    var t := Next(s, GetNew(g, frame));
    assert s.next !in s.mem;
    forall h | h in t.senders
      ensures Sized(t.mem, t.senders[h].msg) && (t.senders[h].filled ==> Intact(t.mem, t.senders[h].msg))
    {
      if h != g { assert t.senders[h] == s.senders[h] && Sized(s.mem, s.senders[h].msg); }
    }
    forall i | 0 <= i < |t.queue| ensures Sized(t.mem, t.queue[i]) && Intact(t.mem, t.queue[i]) {
      assert Sized(s.mem, s.queue[i]);
    }
  }

  lemma EnqueueWire(s: State, g: nat)
    requires WireOk(s) && g in s.senders && s.senders[g].filled
    ensures WireOk(Next(s, Enqueue(g)))
  {
    var m := s.senders[g].msg;
    FramesOfAppend(s.queue, m);
    var held := s.wire + (if s.writer.Holding? then [s.writer.msg.frame] else []);
    assert held + (FramesOf(s.queue) + [m.frame]) == held + FramesOf(s.queue) + [m.frame];
  }

  lemma EnqueueKeeps(s: State, g: nat)
    requires Inv(s) && g in s.senders && s.senders[g].filled
    ensures Inv(Next(s, Enqueue(g)))
  {
    var t, m := Next(s, Enqueue(g)), s.senders[g].msg;
    EnqueueWire(s, g);
    forall i | 0 <= i < |t.queue| ensures Sized(t.mem, t.queue[i]) && Intact(t.mem, t.queue[i]) {
      if i < |s.queue| { assert t.queue[i] == s.queue[i]; } else { assert t.queue[i] == m; }
    }
  }

  lemma TakeKeeps(s: State)
    requires Inv(s) && s.writer == Idle && s.queue != []
    ensures Inv(Next(s, Take))
  {
    var t, m := Next(s, Take), s.queue[0];
    assert s.wire + ([m.frame] + FramesOf(s.queue[1..])) == s.wire + [m.frame] + FramesOf(s.queue[1..]);
    assert s.wire + [] + FramesOf(s.queue) == s.wire + FramesOf(s.queue);
    forall i | 0 <= i < |t.queue| ensures t.queue[i] == s.queue[i + 1] {
    }
    assert Sized(s.mem, s.queue[0]) && Intact(s.mem, s.queue[0]);
  }

  lemma GetPooledKeeps(s: State, g: nat, frame: Bytes, buf: Buf)
    requires Inv(s)
    ensures Inv(Next(s, GetPooled(g, frame, buf)))
  {
  }

  lemma AbandonKeeps(s: State, g: nat)
    requires Inv(s)
    ensures Inv(Next(s, Abandon(g)))
  {
    if g in s.senders {
      var t, m := Next(s, Abandon(g)), s.senders[g].msg;
      assert Sized(s.mem, m);
      assert OneOwner(t) && BuffersOk(t) && WireOk(t);
    }
  }

  lemma WriterKeeps(s: State, e: Event)
    requires Inv(s) && (e.WriteMessage? || e.PutBack? || e.Lose? || e.Forget?)
    ensures Inv(Next(s, e))
  {
    match e
    case WriteMessage(ok) => WriteKeeps(s, ok);
    case PutBack => PutBackKeeps(s);
    case Lose =>
    case Forget(buf) =>
  }

  lemma WriteKeeps(s: State, ok: bool)
    requires Inv(s)
    ensures Inv(Next(s, WriteMessage(ok)))
  {
    var t := Next(s, WriteMessage(ok));
    assert OneOwner(t) && BuffersOk(t);
    if t != s && ok {
      var f := s.writer.msg.frame;
      assert s.wire + [f] + [] == s.wire + [f];
    }
  }

  lemma PutBackKeeps(s: State)
    requires Inv(s)
    ensures Inv(Next(s, PutBack))
  {
    var t := Next(s, PutBack);
    assert OneOwner(t) && BuffersOk(t);
  }

  lemma StepKeeps(s: State, e: Event)
    requires Inv(s)
    ensures Inv(Next(s, e))
  {
    match e
    case GetNew(g, frame) => if g !in s.senders { GetNewKeeps(s, g, frame); }
    case Fill(g) => if g in s.senders { FillKeeps(s, g); }
    case Enqueue(g) => if g in s.senders && s.senders[g].filled { EnqueueKeeps(s, g); }
    case Take => if s.writer == Idle && s.queue != [] { TakeKeeps(s); }
    case GetPooled(g, frame, buf) => GetPooledKeeps(s, g, frame, buf);
    case Abandon(g) => AbandonKeeps(s, g);
    case _ => WriterKeeps(s, e);
  }

  function Run(es: seq<Event>): State {
    if es == [] then Init else Next(Run(es[..|es| - 1]), es[|es| - 1])
  }

  lemma {:induction false} RunKeeps(es: seq<Event>)
    ensures Inv(Run(es))
  {
    if es != [] {
      RunKeeps(es[..|es| - 1]);
      StepKeeps(Run(es[..|es| - 1]), es[|es| - 1]);
    }
  }

  /** Over every interleaving of senders, writer and pool: a buffer has one owner at a time, a queued
      frame is unchanged until it is written, and what reaches the websocket is, frame by frame and in
      order, what `sendPacket` was asked to send. */
  lemma BuffersHaveOneOwner(es: seq<Event>)
    ensures var s := Run(es);
            && OneOwner(s)
            && (forall i :: 0 <= i < |s.queue| ==> Intact(s.mem, s.queue[i]))
            && (s.writer.Holding? ==> Intact(s.mem, s.writer.msg))
            && s.wire <= s.queued
            && (s.writer.Idle? ==> s.wire + FramesOf(s.queue) == s.queued)
  {
    RunKeeps(es);
    var s := Run(es);
    assert s.wire + [] == s.wire;
  }
}
