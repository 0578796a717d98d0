/** What the broker owes the two ends of a session: a session does not end without its worker being told, a
    request is granted or refused as it asks, and what ends a session ends it for good. */
module BrokerAnswers {
  import opened Frames
  import opened Broker
  import opened BrokerProofs
  import R = Registry

  // ---- no silent loss towards the worker -----------------------------------------------------

  /** The session is in the table, or its worker has been told that it is over, is about to be, has said so
      itself, or is removed. */
  ghost predicate Told(b: State, id: Id, w: nat) {
    || id in b.sessions
    || Has(At(b.toWorker, w), id, CMD_CLOSE)
    || (id, w) in b.asyncCloses
    || w in b.reg.removed
    || Has(At(b.fromWorker, w), id, CMD_CLOSE)
  }

  /** In state `b`, event `e` opens, relays or closes session `id` of binding `s`, and its own send to the
      worker, or its own write to a closed proxy, is refused. */
  predicate Refused(b: State, e: Event, id: Id, s: Session) {
    match e
    case ProxyMessage(p, m, sendOk, _, uuid, _) =>
      p == s.proxy && !sendOk &&
      if m.Text? then id !in b.past.stored && RequestId(m.req, uuid) == id
      else id in b.sessions && (IsData(m, id) || Carries(m, id, CMD_CLOSE))
    case WorkerMessage(w, m, writeOk) =>
      w == s.worker && !writeOk && s.proxy in b.closed
      && id in b.sessions && (IsData(m, id) || Carries(m, id, CMD_CONNECTED))
    case AsyncClose(x, w, sendOk) => x == id && w == s.worker && !sendOk && (id, w) in b.asyncCloses
    case _ => false
  }

  /** What told the worker stays, and the session stays in the table or told the worker as it left. */
  lemma ToldStays(b: State, c: State, id: Id, w: nat)
    requires Told(b, id, w) && Extends(b.toWorker, c.toWorker) && Extends(b.fromWorker, c.fromWorker)
    requires b.reg.removed <= c.reg.removed && (id in b.sessions ==> Told(c, id, w))
    requires (id, w) in b.asyncCloses ==> Told(c, id, w)
    ensures Told(c, id, w)
  {
    assert At(b.toWorker, w) <= At(c.toWorker, w) && At(b.fromWorker, w) <= At(c.fromWorker, w);
    if Has(At(b.toWorker, w), id, CMD_CLOSE) { HasStays(At(b.toWorker, w), At(c.toWorker, w), id, CMD_CLOSE); }
    if Has(At(b.fromWorker, w), id, CMD_CLOSE) { HasStays(At(b.fromWorker, w), At(c.fromWorker, w), id, CMD_CLOSE); }
  }

  lemma HasStays(a: seq<Wire>, b: seq<Wire>, id: Id, cmd: Byte)
    requires a <= b && Has(a, id, cmd)
    ensures Has(b, id, cmd)
  {
    var m :| m in a && Carries(m, id, cmd);
    MemberOfPrefix(a, b, m);
  }

  lemma OpenTold(b: State, e: Event, id: Id)
    requires e.ProxyMessage? && e.m.Text? && Inv(b, id) && Fresh(b, e) && id in Next(b, e).past.stored
    requires id in b.past.stored ==> Told(b, id, b.past.stored[id].worker)
    ensures var s := Next(b, e).past.stored[id]; Told(Next(b, e), id, s.worker) || Refused(b, e, id, s)
  {
    var c := Next(b, e);
    StoredGrows(b, e);
    OpenLeaves(b, e);
    if id in b.past.stored {
      ProxyMessageGrows(b, e);
      ToldStays(b, c, id, b.past.stored[id].worker);
    }
  }

  /** A request touches only the session of its own id. */
  ghost predicate OnlySession(b: State, c: State, x: Id) {
    && (forall id :: id != x && id in b.sessions ==> id in c.sessions)
    && c.asyncCloses == b.asyncCloses && c.reg.removed == b.reg.removed
  }

  lemma TailLeaves(b: State, p: nat, w: nat, mode: string, req: Request, sendOk: bool, writeOk: bool,
                   errText: Bytes, x: Id)
    ensures var c := OpenTail(b, p, w, mode, req, sendOk, writeOk, errText, x);
            OnlySession(b, c, x) && (sendOk && x in b.sessions ==> x in c.sessions)
  {
  }

  lemma GrantLeaves(b: State, p: nat, req: Request, mode: string, sendOk: bool, writeOk: bool, errText: Bytes, x: Id)
    ensures var c := Grant(b, p, req, mode, sendOk, writeOk, errText, x);
            OnlySession(b, c, x) && (c.past.stored != b.past.stored && sendOk ==> x in c.sessions)
  {
    var (reg, picked) := R.Pick(b.reg, req.route);
    var b1 := SetReg(b, reg);
    if picked.Some? {
      var b2 := Bind(b1, x, Session(p, picked.value, mode), req.target);
      assert OnlySession(b, b2, x) && x in b2.sessions;
      TailLeaves(b2, p, picked.value, mode, req, sendOk, writeOk, errText, x);
    }
  }

  lemma OpenLeaves(b: State, e: Event)
    requires e.ProxyMessage? && e.m.Text?
    ensures var x, c := RequestId(e.m.req, e.uuid), Next(b, e);
            OnlySession(b, c, x) && (c.past.stored != b.past.stored && e.sendOk ==> x in c.sessions)
  {
    var x := RequestId(e.m.req, e.uuid);
    var b1 := Noted(FromProxy(b, e.p, e.m), x);
    assert OnlySession(b, b1, x);
    var mode := if e.m.req.mode == "" then "tcp" else e.m.req.mode;
    GrantLeaves(b1, e.p, e.m.req, mode, e.sendOk, e.writeOk, e.errText, x);
  }

  lemma ProxyFrameTold(b: State, e: Event, id: Id)
    requires e.ProxyMessage? && !e.m.Text? && Inv(b, id)
    requires id in b.past.stored && Told(b, id, b.past.stored[id].worker)
    ensures var s := b.past.stored[id]; Told(Next(b, e), id, s.worker) || Refused(b, e, id, s)
  {
    var c, s := Next(b, e), b.past.stored[id];
    ProxyMessageGrows(b, e);
    if id in b.sessions && id !in c.sessions {
      ProxyFrameEnds(b, e, id);
    } else {
      ToldStays(b, c, id, s.worker);
    }
  }

  /** A proxy frame ends a session only by a refused send or by a close that reaches the worker's queue. */
  lemma ProxyFrameEnds(b: State, e: Event, id: Id)
    requires e.ProxyMessage? && !e.m.Text? && id in b.sessions && id !in Next(b, e).sessions
    ensures var s := b.sessions[id]; Refused(b, e, id, s) || Has(At(Next(b, e).toWorker, s.worker), id, CMD_CLOSE)
  {
    var s := b.sessions[id];
    if e.sendOk {
      var close := Binary(Packet(id, CMD_CLOSE, []));
      PacketIsFor(id, CMD_CLOSE, []);
      Appended(b.toWorker, s.worker, close, id);
    }
  }

  lemma WorkerFrameTold(b: State, e: Event, id: Id)
    requires e.WorkerMessage? && Inv(b, id) && id in b.past.stored && Told(b, id, b.past.stored[id].worker)
    ensures var s := b.past.stored[id]; Told(Next(b, e), id, s.worker) || Refused(b, e, id, s)
  {
    var c, s := Next(b, e), b.past.stored[id];
    WorkerMessageGrows(b, e);
    assert Extends(b.fromWorker, c.fromWorker);
    if id in b.sessions && id !in c.sessions {
      WorkerFrameEnds(b, e, id);
    } else {
      WorkerKeepsTables(b, e);
      ToldStays(b, c, id, s.worker);
    }
  }

  lemma WorkerKeepsTables(b: State, e: Event)
    requires e.WorkerMessage?
    ensures Next(b, e).asyncCloses == b.asyncCloses && Next(b, e).reg == b.reg
  {
  }

  /** A worker frame ends a session only by a refused write or by a close. */
  lemma WorkerFrameEnds(b: State, e: Event, id: Id)
    requires e.WorkerMessage? && id in b.sessions && id !in Next(b, e).sessions
    ensures var s := b.sessions[id]; Refused(b, e, id, s) || Has(At(Next(b, e).fromWorker, s.worker), id, CMD_CLOSE)
  {
    Appended(b.fromWorker, e.w, e.m, id);
  }

  lemma {:induction false} DropsFor(b: State, order: seq<Id>, oks: set<Id>, id: Id)
    ensures id in b.sessions ==> (id in DropAllForWorker(b, order, oks).sessions <==> id !in order)
    ensures id in b.sessions && id in order ==>
              (id, b.sessions[id].worker) in DropAllForProxy(b, order).asyncCloses
    ensures id in b.sessions && id !in order ==>
              id in DropAllForProxy(b, order).sessions && DropAllForProxy(b, order).sessions[id] == b.sessions[id]
    ensures b.asyncCloses <= DropAllForProxy(b, order).asyncCloses
  {
    if order != [] {
      var n := |order| - 1;
      assert order == order[..n] + [order[n]];
      DropsFor(b, order[..n], oks, id);
    }
  }

  lemma CloseTold(b: State, p: nat, order: seq<Id>, id: Id)
    requires Inv(b, id) && id in b.past.stored && Told(b, id, b.past.stored[id].worker)
    ensures Told(CloseProxy(b, p, order), id, b.past.stored[id].worker)
  {
    var c := CloseProxy(b, p, order);
    DropsFor(b.(closed := b.closed + {p}), order, {}, id);
    CloseGrows(b, p, order);
    ToldStays(b, c, id, b.past.stored[id].worker);
  }

  lemma RemoveTold(b: State, w: nat, order: seq<Id>, oks: set<Id>, id: Id, v: nat)
    requires Told(b, id, v) && (id in b.sessions ==> b.sessions[id].worker == v && v in b.reg.guidOf)
    requires b.reg.guidOf.Keys == b.reg.groupOf.Keys
    ensures Told(RemoveWorker(b, w, order, oks), id, v)
  {
    DropsFor(b, order, oks, id);
    RemoveGrows(b, w, order, oks);
    ToldStays(b, RemoveWorker(b, w, order, oks), id, v);
  }

  lemma RegisterTold(b: State, w: nat, guid: string, group: string, order: seq<Id>, oks: set<Id>, id: Id)
    requires InvAll(b) && id in b.past.stored && Told(b, id, b.past.stored[id].worker)
    ensures Told(RegisterWorker(b, w, guid, group, order, oks), id, b.past.stored[id].worker)
  {
    assert Inv(b, id);
    if guid != "" && w !in b.reg.guidOf && guid in b.reg.active {
      assert R.ActiveOk(b.reg, guid);
      RemoveTold(SetReg(b, R.Add(b.reg, w, guid, group)), b.reg.active[guid], order, oks, id, b.past.stored[id].worker);
    }
  }

  lemma AsyncTold(b: State, x: Id, w: nat, sendOk: bool, id: Id)
    requires Inv(b, id) && id in b.past.stored && Told(b, id, b.past.stored[id].worker)
    ensures var s := b.past.stored[id];
            var e := AsyncClose(x, w, sendOk);
            Told(Next(b, e), id, s.worker) || Refused(b, e, id, s)
  {
    var s := b.past.stored[id];
    var c := Next(b, AsyncClose(x, w, sendOk));
    AsyncGrows(b, x, w, sendOk);
    if (x, w) in b.asyncCloses && x == id && w == s.worker {
      PacketIsFor(id, CMD_CLOSE, []);
      Appended(b.toWorker, w, Binary(Packet(id, CMD_CLOSE, [])), id);
    } else {
      ToldStays(b, c, id, s.worker);
    }
  }

  lemma EventTold(b: State, e: Event, id: Id)
    requires InvAll(b) && !(e.ProxyMessage? && e.m.Text?)
    requires id in b.past.stored && Told(b, id, b.past.stored[id].worker)
    ensures var s := b.past.stored[id]; Told(Next(b, e), id, s.worker) || Refused(b, e, id, s)
  {
    assert Inv(b, id);
    match e
    case ProxyMessage(_, _, _, _, _, _) => ProxyFrameTold(b, e, id);
    case ProxyClose(p, order) => CloseTold(b, p, order, id);
    case WorkerMessage(_, _, _) => WorkerFrameTold(b, e, id);
    case WorkerRegister(w, guid, group, order, oks) => RegisterTold(b, w, guid, group, order, oks, id);
    case WorkerMove(guid, group) =>
    case WorkerRemove(w, order, oks) => RemoveTold(b, w, order, oks, id, b.past.stored[id].worker);
    case AsyncClose(x, w, sendOk) => AsyncTold(b, x, w, sendOk, id);
  }

  /** Event `k` of the run opened, relayed or closed the session and was refused. */
  ghost predicate RefusedAt(es: seq<Event>, k: nat, id: Id, s: Session) {
    k < |es| && Refused(Run(es[..k]), es[k], id, s)
  }

  /** No silent loss towards the worker: every session the broker ever stored is still in the table, or a close
      frame for it was put on its worker's queue or is about to be, or the worker is removed or sent the close
      itself, or an event that opened, relayed or closed the session had its send or its write refused. */
  lemma {:induction false} WorkerIsTold(es: seq<Event>, id: Id)
    requires NoReuse(es)
    ensures id in Run(es).past.stored ==>
              var b := Run(es);
              var s := b.past.stored[id];
              || id in b.sessions
              || Has(At(b.toWorker, s.worker), id, CMD_CLOSE)
              || (id, s.worker) in b.asyncCloses
              || s.worker in b.reg.removed
              || Has(At(b.fromWorker, s.worker), id, CMD_CLOSE)
              || exists k: nat :: RefusedAt(es, k, id, s)
  {
    if es != [] && id in Run(es).past.stored {
      var n := |es| - 1;
      var b, e, s := Run(es[..n]), es[n], Run(es).past.stored[id];
      WorkerIsTold(es[..n], id);
      RunKeeps(es[..n]);
      SameBinding(b, e, id);
      if k: nat :| id in b.past.stored && RefusedAt(es[..n], k, id, s) {
        RefusedStays(es, k, id, s);
      } else {
        StepTold(b, e, id);
        assert Refused(b, e, id, s) ==> RefusedAt(es, n, id, s);
      }
    }
  }

  lemma RefusedStays(es: seq<Event>, k: nat, id: Id, s: Session)
    requires es != [] && RefusedAt(es[..|es| - 1], k, id, s)
    ensures RefusedAt(es, k, id, s)
  {
    assert es[..|es| - 1][..k] == es[..k];
  }

  lemma SameBinding(b: State, e: Event, id: Id)
    requires InvAll(b) && Fresh(b, e)
    ensures id in b.past.stored ==> id in Next(b, e).past.stored && Next(b, e).past.stored[id] == b.past.stored[id]
  {
    assert Inv(b, id);
    StoredGrows(b, e);
  }

  lemma StepTold(b: State, e: Event, id: Id)
    requires InvAll(b) && Fresh(b, e) && id in Next(b, e).past.stored
    requires id in b.past.stored ==> Told(b, id, b.past.stored[id].worker)
    ensures var s := Next(b, e).past.stored[id]; Told(Next(b, e), id, s.worker) || Refused(b, e, id, s)
  {
    assert Inv(b, id);
    if e.ProxyMessage? && e.m.Text? {
      OpenTold(b, e, id);
    } else {
      KeepStored(b, e);
      EventTold(b, e, id);
    }
  }

  // ---- what ends a session -------------------------------------------------------------------

  /** The events that end session `id`: a close from either end, data that cannot be relayed, the close of its
      proxy connection, the removal of its worker or a new registration of that worker's GUID. */
  ghost predicate EndsSession(b: State, e: Event, id: Id)
    requires id in b.sessions
  {
    var s := b.sessions[id];
    match e
    case ProxyMessage(p, m, sendOk, _, _, _) =>
      p == s.proxy && (Carries(m, id, CMD_CLOSE) || (IsData(m, id) && !sendOk))
    case WorkerMessage(w, m, writeOk) =>
      && w == s.worker
      && (|| Carries(m, id, CMD_CLOSE)
          || ((IsData(m, id) || Carries(m, id, CMD_CONNECTED)) && s.proxy in b.closed && !writeOk))
    case ProxyClose(p, order) => p == s.proxy && p !in b.closed && IsProxyOrder(b, order, p)
    case WorkerRemove(w, order, _) => w == s.worker && IsOrder(b, order, w)
    case WorkerRegister(w, guid, _, order, _) =>
      && guid != "" && w !in b.reg.guidOf && guid in b.reg.active && b.reg.active[guid] == s.worker
      && IsOrder(b, order, s.worker)
    case _ => false
  }

  lemma FrameEndsIff(b: State, e: Event, id: Id)
    requires id in b.sessions && ((e.ProxyMessage? && !e.m.Text?) || e.WorkerMessage?)
    ensures id !in Next(b, e).sessions <==> EndsSession(b, e, id)
  {
    if e.ProxyMessage? { ProxyFrameEndsIff(b, e, id); } else { WorkerFrameEndsIff(b, e, id); }
  }

  lemma ProxyFrameEndsIff(b: State, e: Event, id: Id)
    requires id in b.sessions && e.ProxyMessage? && !e.m.Text?
    ensures id !in Next(b, e).sessions <==>
              e.p == b.sessions[id].proxy && (Carries(e.m, id, CMD_CLOSE) || (IsData(e.m, id) && !e.sendOk))
  {
    if !IsFor(e.m, id) { assert id in Next(b, e).sessions; }
  }

  lemma WorkerFrameEndsIff(b: State, e: Event, id: Id)
    requires id in b.sessions && e.WorkerMessage?
    ensures var s := b.sessions[id];
            id !in Next(b, e).sessions <==>
              && e.w == s.worker
              && (|| Carries(e.m, id, CMD_CLOSE)
                  || ((IsData(e.m, id) || Carries(e.m, id, CMD_CONNECTED)) && WriteFails(b, s.proxy, e.writeOk)))
  {
    if !IsFor(e.m, id) { assert id in Next(b, e).sessions; }
  }

  lemma TableEndsIff(b: State, e: Event, id: Id)
    requires InvAll(b) && id in b.sessions && (e.ProxyClose? || e.WorkerRemove? || e.WorkerRegister?)
    ensures id !in Next(b, e).sessions <==> EndsSession(b, e, id)
  {
    assert Inv(b, id);
    match e
    case ProxyClose(p, order) => ProxyDropsIff(b.(closed := b.closed + {p}), order, id);
    case WorkerRemove(w, order, oks) => DropsFor(b, order, oks, id);
    case WorkerRegister(w, guid, group, order, oks) => RegisterEndsIff(b, e, id);
  }

  lemma {:induction false} ProxyDropsIff(b: State, order: seq<Id>, id: Id)
    ensures id in b.sessions ==> (id in DropAllForProxy(b, order).sessions <==> id !in order)
  {
    if order != [] {
      var n := |order| - 1;
      assert order == order[..n] + [order[n]];
      ProxyDropsIff(b, order[..n], id);
    }
  }

  lemma RegisterEndsIff(b: State, e: Event, id: Id)
    requires InvAll(b) && id in b.sessions && e.WorkerRegister?
    ensures id !in Next(b, e).sessions <==> EndsSession(b, e, id)
  {
    assert Inv(b, id);
    if e.guid in b.reg.active {
      assert R.ActiveOk(b.reg, e.guid);
      var b1 := SetReg(b, R.Add(b.reg, e.w, e.guid, e.group));
      assert IsOrder(b1, e.order, b.reg.active[e.guid]) <==> IsOrder(b, e.order, b.reg.active[e.guid]);
      DropsFor(b1, e.order, e.oks, id);
    }
  }

  /** In every run, an event ends a session of the table if and only if it is one of those. */
  lemma SessionEndsIff(es: seq<Event>, k: nat, id: Id)
    requires NoReuse(es) && k < |es| && id in Run(es[..k]).sessions
    ensures id !in Run(es[..k + 1]).sessions <==> EndsSession(Run(es[..k]), es[k], id)
  {
    Prefixes(es, k);
    RunKeeps(es[..k]);
    StepEndsIff(Run(es[..k]), es[k], id);
  }

  lemma StepEndsIff(b: State, e: Event, id: Id)
    requires InvAll(b) && Fresh(b, e) && id in b.sessions
    ensures id !in Next(b, e).sessions <==> EndsSession(b, e, id)
  {
    if e.ProxyClose? || e.WorkerRemove? || e.WorkerRegister? {
      TableEndsIff(b, e, id);
    } else if (e.ProxyMessage? && !e.m.Text?) || e.WorkerMessage? {
      FrameEndsIff(b, e, id);
    } else if e.ProxyMessage? {
      RequestEndsNone(b, e, id);
    }
  }

  lemma RequestEndsNone(b: State, e: Event, id: Id)
    requires Inv(b, id) && Fresh(b, e) && id in b.sessions && e.ProxyMessage? && e.m.Text?
    ensures id in Next(b, e).sessions && !EndsSession(b, e, id)
  {
    OpenLeaves(b, e);
  }

  /** The first `k + 1` events of a run are a run that ends with event `k`. */
  lemma {:induction false} Prefixes(es: seq<Event>, k: nat)
    requires NoReuse(es) && k < |es|
    ensures Run(es[..k + 1]) == Next(Run(es[..k]), es[k])
    ensures NoReuse(es[..k]) && NoReuse(es[..k + 1]) && Fresh(Run(es[..k]), es[k])
  {
    var n := |es| - 1;
    assert es[..n + 1] == es;
    assert es[..k + 1][..k] == es[..k];
    if k < n {
      assert es[..n][..k] == es[..k] && es[..n][..k + 1] == es[..k + 1];
      Prefixes(es[..n], k);
    }
  }

  /** A session that has left the table never comes back. */
  lemma {:induction false} GoneForGood(es: seq<Event>, k: nat, id: Id)
    requires NoReuse(es) && k <= |es| && id in Run(es[..k]).past.stored && id !in Run(es[..k]).sessions
    ensures id !in Run(es).sessions
  {
    if k == |es| {
      assert es[..k] == es;
    } else {
      var n := |es| - 1;
      assert es[..n][..k] == es[..k];
      GoneForGood(es[..n], k, id);
      BindingNeverChanges(es[..n], k, id);
      RunKeeps(es[..n]);
      assert Inv(Run(es[..n]), id);
      StaysOut(Run(es[..n]), es[n], id);
    }
  }

  lemma StaysOut(b: State, e: Event, id: Id)
    requires id !in b.sessions && id in b.past.requested && Fresh(b, e)
    ensures id !in Next(b, e).sessions
  {
    match e
    case ProxyMessage(_, m, _, _, _, _) => if m.Text? { OpenAddsOnly(b, e); }
    case ProxyClose(p, order) => DropsAddNone(b.(closed := b.closed + {p}), order, {}, id);
    case WorkerMessage(_, _, _) =>
    case WorkerRegister(w, guid, group, order, oks) =>
      DropsAddNone(SetReg(b, R.Add(b.reg, w, guid, group)), order, oks, id);
    case WorkerMove(_, _) =>
    case WorkerRemove(_, order, oks) => DropsAddNone(b, order, oks, id);
    case AsyncClose(_, _, _) =>
  }

  lemma {:induction false} DropsAddNone(b: State, order: seq<Id>, oks: set<Id>, id: Id)
    requires id !in b.sessions
    ensures id !in DropAllForWorker(b, order, oks).sessions && id !in DropAllForProxy(b, order).sessions
  {
    if order != [] {
      DropsAddNone(b, order[..|order| - 1], oks, id);
    }
  }

  lemma OpenAddsOnly(b: State, e: Event)
    requires e.ProxyMessage? && e.m.Text?
    ensures Next(b, e).sessions.Keys <= b.sessions.Keys + {RequestId(e.m.req, e.uuid)}
  {
    var x := RequestId(e.m.req, e.uuid);
    var b1 := Noted(FromProxy(b, e.p, e.m), x);
    var mode := if e.m.req.mode == "" then "tcp" else e.m.req.mode;
    GrantAddsOnly(b1, e.p, e.m.req, mode, e.sendOk, e.writeOk, e.errText, x);
  }

  lemma GrantAddsOnly(b: State, p: nat, req: Request, mode: string, sendOk: bool, writeOk: bool, errText: Bytes, x: Id)
    ensures Grant(b, p, req, mode, sendOk, writeOk, errText, x).sessions.Keys <= b.sessions.Keys + {x}
  {
  }

  // ---- what a request gets ---------------------------------------------------------------------

  /** The request is one that can be granted: a known mode, an id of the right length and a group with workers. */
  predicate Grantable(b: State, req: Request, id: Id) {
    req.mode in {"", "tcp", "udp"} && |id| == ID_LEN && req.route in b.reg.groups
  }

  lemma GrantBinds(b: State, p: nat, req: Request, mode: string, sendOk: bool, writeOk: bool, errText: Bytes, id: Id)
    requires R.Inv(b.reg) && id !in b.past.stored
    ensures var c := Grant(b, p, req, mode, sendOk, writeOk, errText, id);
            && (id in c.past.stored <==> req.route in b.reg.groups)
            && (id in c.past.stored ==>
                  && c.past.stored[id].proxy == p && c.past.stored[id].mode == mode
                  && c.past.stored[id].worker in b.reg.groups[req.route].workers
                  && id in c.past.target && c.past.target[id] == req.target)
  {
    R.PickKeeps(b.reg, req.route);
  }

  /** What a request leads to, once the broker has seen its mode and its id. */
  lemma OpenIsGrant(b: State, e: Event, id: Id)
    requires e.ProxyMessage? && e.m.Text? && id !in b.sessions
    requires id == if e.m.req.id == [] then e.uuid else e.m.req.id
    ensures var b1 := Noted(FromProxy(b, e.p, e.m), id);
            var mode := if e.m.req.mode == "" then "tcp" else e.m.req.mode;
            Next(b, e) == if e.m.req.mode in {"", "tcp", "udp"} && |id| == ID_LEN
                          then Grant(b1, e.p, e.m.req, mode, e.sendOk, e.writeOk, e.errText, id) else b1
  {
  }

  lemma FreshIsNew(b: State, e: Event, id: Id)
    requires Inv(b, id) && Fresh(b, e) && e.ProxyMessage? && e.m.Text?
    requires id == if e.m.req.id == [] then e.uuid else e.m.req.id
    ensures id !in b.past.stored && id !in b.sessions && id !in b.past.requested
  {
  }

  lemma OpenBindsIff(b: State, e: Event, id: Id)
    requires InvAll(b) && Fresh(b, e) && e.ProxyMessage? && e.m.Text?
    requires id == if e.m.req.id == [] then e.uuid else e.m.req.id
    ensures id !in b.past.stored
    ensures id in Next(b, e).past.stored <==> Grantable(b, e.m.req, id)
    ensures id in Next(b, e).past.stored ==> AsAsked(b, e, Next(b, e), id)
  {
    assert Inv(b, id);
    FreshIsNew(b, e, id);
    OpenIsGrant(b, e, id);
    var mode := if e.m.req.mode == "" then "tcp" else e.m.req.mode;
    GrantBinds(Noted(FromProxy(b, e.p, e.m), id), e.p, e.m.req, mode, e.sendOk, e.writeOk, e.errText, id);
  }

  /** In state `c` the session that request `e` opened in state `b` is bound as the request asks. */
  ghost predicate AsAsked(b: State, e: Event, c: State, id: Id)
    requires e.ProxyMessage? && e.m.Text?
  {
    && id in c.past.stored && id in c.past.target
    && c.past.stored[id].proxy == e.p && c.past.target[id] == e.m.req.target
    && (c.past.stored[id].mode == "udp" <==> e.m.req.mode == "udp")
    && e.m.req.route in b.reg.groups && c.past.stored[id].worker in b.reg.groups[e.m.req.route].workers
  }

  /** In every run, the request that event `k` handles stores its session if and only if it can be granted; for
      the rest of the run the session then belongs to the requesting proxy and to a worker that was listed in the
      group asked for, with the target and the mode asked for. */
  lemma StoredIffGrantable(es: seq<Event>, k: nat, id: Id)
    requires NoReuse(es) && k < |es| && es[k].ProxyMessage? && es[k].m.Text?
    requires id == if es[k].m.req.id == [] then es[k].uuid else es[k].m.req.id
    ensures BoundAt(es, k, id) <==> Grantable(Run(es[..k]), es[k].m.req, id)
    ensures BoundAt(es, k, id) ==> AsAsked(Run(es[..k]), es[k], Run(es), id)
  {
    Prefixes(es, k);
    RunKeeps(es[..k]);
    OpenBindsIff(Run(es[..k]), es[k], id);
    if BoundAt(es, k, id) {
      BindingNeverChanges(es, k + 1, id);
      TargetNeverChanges(es, k + 1, id);
    }
  }

  lemma {:induction false} TargetNeverChanges(es: seq<Event>, k: nat, id: Id)
    requires NoReuse(es) && k <= |es| && id in Run(es[..k]).past.target
    ensures id in Run(es).past.target && Run(es).past.target[id] == Run(es[..k]).past.target[id]
  {
    if k == |es| {
      assert es[..k] == es;
    } else {
      var n := |es| - 1;
      assert es[..n][..k] == es[..k];
      TargetNeverChanges(es[..n], k, id);
      RunKeeps(es[..n]);
      assert Inv(Run(es[..n]), id);
      StoredGrows(Run(es[..n]), es[n]);
    }
  }

  /** In every run, a connect frame on the queue of a session's worker asks for the target and the mode of the
      request that stored the session, and there is one unless the send was refused. */
  lemma ConnectIsAsAsked(es: seq<Event>, k: nat, id: Id)
    requires NoReuse(es) && k < |es| && es[k].ProxyMessage? && es[k].m.Text? && BoundAt(es, k, id)
    ensures id in Run(es).past.stored
    ensures var b, w, req := Run(es), Run(es).past.stored[id].worker, es[k].m.req;
            && (forall m :: m in At(b.toWorker, w) && IsConnect(m, id) ==>
                  PayloadOf(m) == req.target && (CmdOf(m) == CMD_UDP_CONNECT <==> req.mode == "udp"))
            && (es[k].sendOk ==> exists m :: m in At(b.toWorker, w) && IsConnect(m, id))
  {
    StoredByItsRequest(es, k, id);
    StoredIffGrantable(es, k, id);
    RunKeeps(es);
    assert Inv(Run(es), id) && Handshake(Run(es), id);
    if es[k].sendOk {
      ConnectIsQueued(es, k, id);
    }
  }

  lemma StoredByItsRequest(es: seq<Event>, k: nat, id: Id)
    requires NoReuse(es) && BoundAt(es, k, id)
    ensures es[k].ProxyMessage? && es[k].m.Text?
    ensures id == if es[k].m.req.id == [] then es[k].uuid else es[k].m.req.id
  {
    Prefixes(es, k);
    StoredGrows(Run(es[..k]), es[k]);
  }

  lemma ConnectIsQueued(es: seq<Event>, k: nat, id: Id)
    requires NoReuse(es) && BoundAt(es, k, id) && es[k].ProxyMessage? && es[k].m.Text? && es[k].sendOk
    ensures id in Run(es).past.stored
    ensures exists m :: m in At(Run(es).toWorker, Run(es).past.stored[id].worker) && IsConnect(m, id)
  {
    StoredByItsRequest(es, k, id);
    Prefixes(es, k);
    RunKeeps(es[..k]);
    var m := OpenQueuesConnect(Run(es[..k]), es[k], id);
    BindingNeverChanges(es, k + 1, id);
    QueuesGrow(es, k + 1);
    MemberStays(Run(es[..k + 1]).toWorker, Run(es).toWorker, Run(es).past.stored[id].worker, m);
  }

  lemma MemberStays(a: Logs, b: Logs, k: nat, m: Wire)
    requires Extends(a, b) && m in At(a, k)
    ensures m in At(b, k)
  {
    MemberOfPrefix(At(a, k), At(b, k), m);
  }

  lemma GrantQueuesConnect(b: State, p: nat, req: Request, mode: string, writeOk: bool, errText: Bytes, id: Id)
    returns (m: Wire)
    requires id !in b.past.stored && |id| == ID_LEN
    ensures var c := Grant(b, p, req, mode, true, writeOk, errText, id);
            id in c.past.stored ==> m in At(c.toWorker, c.past.stored[id].worker) && IsConnect(m, id)
  {
    var cmd := if mode == "udp" then CMD_UDP_CONNECT else CMD_CONNECT;
    m := Binary(Packet(id, cmd, req.target));
    PacketIsFor(id, cmd, req.target);
  }

  lemma OpenQueuesConnect(b: State, e: Event, id: Id) returns (m: Wire)
    requires Inv(b, id) && Fresh(b, e) && e.ProxyMessage? && e.m.Text? && e.sendOk && id in Next(b, e).past.stored
    requires id == if e.m.req.id == [] then e.uuid else e.m.req.id
    ensures m in At(Next(b, e).toWorker, Next(b, e).past.stored[id].worker) && IsConnect(m, id)
  {
    FreshIsNew(b, e, id);
    OpenIsGrant(b, e, id);
    var mode := if e.m.req.mode == "" then "tcp" else e.m.req.mode;
    m := GrantQueuesConnect(Noted(FromProxy(b, e.p, e.m), id), e.p, e.m.req, mode, e.writeOk, e.errText, id);
  }

  ghost predicate QueuesExtend(b: State, c: State) {
    Extends(b.toProxy, c.toProxy) && Extends(b.toWorker, c.toWorker)
  }

  lemma EventGrows(b: State, e: Event)
    ensures QueuesExtend(b, Next(b, e))
  {
    if e.ProxyMessage? {
      ProxyMessageGrows(b, e);
    } else if e.WorkerMessage? {
      WorkerMessageGrows(b, e);
    } else {
      InternalGrows(b, e);
    }
  }

  /** What is queued stays queued. */
  lemma {:induction false} QueuesGrow(es: seq<Event>, k: nat)
    requires k <= |es|
    ensures QueuesExtend(Run(es[..k]), Run(es))
  {
    if k == |es| {
      assert es[..k] == es;
    } else {
      var n := |es| - 1;
      assert es[..n][..k] == es[..k];
      QueuesGrow(es[..n], k);
      EventGrows(Run(es[..n]), es[n]);
      ExtendsTwice(Run(es[..k]), Run(es[..n]), Run(es));
    }
  }

  lemma ExtendsTwice(a: State, b: State, c: State)
    requires QueuesExtend(a, b) && QueuesExtend(b, c)
    ensures QueuesExtend(a, c)
  {
    forall k ensures At(a.toProxy, k) <= At(c.toProxy, k) && At(a.toWorker, k) <= At(c.toWorker, k) {
      assert At(a.toProxy, k) <= At(b.toProxy, k) <= At(c.toProxy, k);
      assert At(a.toWorker, k) <= At(b.toWorker, k) <= At(c.toWorker, k);
    }
  }

  /** In every run, a request with a known mode and a good id that finds no worker is answered with an error frame,
      unless its proxy connection is closed and the write refused. */
  lemma RefusalIsAnswered(es: seq<Event>, k: nat, id: Id)
    requires NoReuse(es) && k < |es| && es[k].ProxyMessage? && es[k].m.Text?
    requires id == if es[k].m.req.id == [] then es[k].uuid else es[k].m.req.id
    requires es[k].m.req.mode in {"", "tcp", "udp"} && |id| == ID_LEN && !BoundAt(es, k, id)
    ensures Has(At(Run(es).toProxy, es[k].p), id, CMD_ERROR) || (es[k].p in Run(es[..k]).closed && !es[k].writeOk)
  {
    var b, c, d := Run(es[..k]), Run(es[..k + 1]), Run(es);
    FreshAtItsEvent(es, k, id);
    Prefixes(es, k);
    RunKeeps(es[..k]);
    QueuesGrow(es, k + 1);
    ErrorStays(b, es[k], c, d, id);
  }

  lemma FreshAtItsEvent(es: seq<Event>, k: nat, id: Id)
    requires NoReuse(es) && k < |es| && es[k].ProxyMessage? && es[k].m.Text?
    requires id == if es[k].m.req.id == [] then es[k].uuid else es[k].m.req.id
    ensures id !in Run(es[..k]).past.stored
  {
    Prefixes(es, k);
    RunKeeps(es[..k]);
    assert Inv(Run(es[..k]), id);
    FreshIsNew(Run(es[..k]), es[k], id);
  }

  lemma ErrorStays(b: State, e: Event, c: State, d: State, id: Id)
    requires InvAll(b) && Fresh(b, e) && e.ProxyMessage? && e.m.Text? && c == Next(b, e) && QueuesExtend(c, d)
    requires id == if e.m.req.id == [] then e.uuid else e.m.req.id
    requires e.m.req.mode in {"", "tcp", "udp"} && |id| == ID_LEN && id !in c.past.stored
    ensures Has(At(d.toProxy, e.p), id, CMD_ERROR) || (e.p in b.closed && !e.writeOk)
  {
    OpenBindsIff(b, e, id);
    if !WriteFails(b, e.p, e.writeOk) {
      OpenQueuesError(b, e, id);
      HasStays(At(c.toProxy, e.p), At(d.toProxy, e.p), id, CMD_ERROR);
    }
  }

  lemma OpenQueuesError(b: State, e: Event, id: Id)
    requires InvAll(b) && Fresh(b, e) && e.ProxyMessage? && e.m.Text? && !WriteFails(b, e.p, e.writeOk)
    requires id == if e.m.req.id == [] then e.uuid else e.m.req.id
    requires e.m.req.mode in {"", "tcp", "udp"} && |id| == ID_LEN && e.m.req.route !in b.reg.groups
    ensures Has(At(Next(b, e).toProxy, e.p), id, CMD_ERROR)
  {
    assert Inv(b, id);
    FreshIsNew(b, e, id);
    OpenIsGrant(b, e, id);
    PacketIsFor(id, CMD_ERROR, e.errText);
    Appended(b.toProxy, e.p, Binary(Packet(id, CMD_ERROR, e.errText)), id);
  }

  /** In any state at all, ids reused or not: a request with an unknown mode, an id of the wrong length or the id of
      a session in the table changes no table and no queue. */
  lemma BadRequestChangesNothing(b: State, e: Event, id: Id)
    requires e.ProxyMessage? && e.m.Text?
    requires id == if e.m.req.id == [] then e.uuid else e.m.req.id
    requires e.m.req.mode !in {"", "tcp", "udp"} || |id| != ID_LEN || id in b.sessions
    ensures var c := Next(b, e);
            && c.sessions == b.sessions && c.reg == b.reg && c.toProxy == b.toProxy && c.toWorker == b.toWorker
            && c.past.stored == b.past.stored
  {
  }

  // ---- what a frame of the worker gets ----------------------------------------------------------

  lemma WorkerFrameIsWritten(b: State, e: Event, id: Id)
    requires e.WorkerMessage? && (Carries(e.m, id, CMD_CONNECTED) || Carries(e.m, id, CMD_CLOSE))
    requires id in b.sessions && b.sessions[id].worker == e.w && !WriteFails(b, b.sessions[id].proxy, e.writeOk)
    ensures e.m in At(Next(b, e).toProxy, b.sessions[id].proxy)
  {
    var p := b.sessions[id].proxy;
    assert Next(b, e).toProxy == Append(b.toProxy, p, e.m);
    assert e.m in At(Append(b.toProxy, p, e.m), p);
  }

  /** In every run, a confirmation or a close of a session in the table, from its own worker, is relayed byte for
      byte to its proxy, unless that connection is closed and the write refused. */
  lemma WorkerFrameIsRelayed(es: seq<Event>, k: nat, id: Id)
    requires NoReuse(es) && k < |es| && es[k].WorkerMessage?
    requires Carries(es[k].m, id, CMD_CONNECTED) || Carries(es[k].m, id, CMD_CLOSE)
    requires id in Run(es[..k]).sessions && Run(es[..k]).sessions[id].worker == es[k].w
    ensures var p := Run(es[..k]).sessions[id].proxy;
            es[k].m in At(Run(es).toProxy, p) || (p in Run(es[..k]).closed && !es[k].writeOk)
  {
    var p := Run(es[..k]).sessions[id].proxy;
    Prefixes(es, k);
    QueuesGrow(es, k + 1);
    if !(p in Run(es[..k]).closed && !es[k].writeOk) {
      WorkerFrameIsWritten(Run(es[..k]), es[k], id);
      MemberStays(Run(es[..k + 1]).toProxy, Run(es).toProxy, p, es[k].m);
    }
  }
}
