/** The broker's global tables updated in place, handler by handler, proved against module Broker. */
module BrokerServer {
  import opened Frames
  import B = Broker
  import BP = BrokerProofs
  import R = Registry

  class Server {
    const registry: R.WorkerRegistry
    var sessions: map<Id, B.Session>
    var closed: set<nat>
    var asyncCloses: set<(Id, nat)>
    var fromProxy: Logs
    var toProxy: Logs
    var fromWorker: Logs
    var toWorker: Logs
    ghost var past: B.Past

    ghost function Value(): B.State
      reads this, registry
    {
      B.State(registry.Value(), sessions, closed, asyncCloses, fromProxy, toProxy, fromWorker, toWorker, past)
    }

    /** The invariant of the registry and of every session id. */
    ghost predicate Valid()
      reads this, registry
    {
      BP.InvAll(Value())
    }

    constructor ()
      ensures fresh(registry) && Value() == B.Init && Valid()
    {
      registry := new R.WorkerRegistry();
      sessions, closed, asyncCloses := map[], {}, {};
      fromProxy, toProxy, fromWorker, toWorker := map[], map[], map[], map[];
      past := B.Init.past;
      new;
      BP.RunKeeps([]);
    }

    /** `ProxyConnection.write`. */
    method WriteToProxy(p: nat, m: Wire, writeOk: bool) returns (failed: bool)
      modifies this`toProxy
      ensures Value() == B.Write(old(Value()), p, m, writeOk)
      ensures failed == B.WriteFails(old(Value()), p, writeOk)
    {
      failed := p in closed && !writeOk;
      if !failed {
        toProxy := Append(toProxy, p, m);
      }
    }

    /** `sendToWorker`. */
    method SendToWorker(w: nat, m: Wire, sendOk: bool)
      modifies this`toWorker
      ensures Value() == B.Send(old(Value()), w, m, sendOk)
    {
      if sendOk {
        toWorker := Append(toWorker, w, m);
      }
    }

    method OpenProxySession(p: nat, req: Request, sendOk: bool, writeOk: bool, uuid: Id, errText: Bytes)
      modifies this, registry
      ensures Value() == B.Open(old(Value()), p, req, sendOk, writeOk, uuid, errText)
    {
      var mode := if req.mode == "" then "tcp" else req.mode;
      var id := if req.id == [] then uuid else req.id;
      past := B.Noted(Value(), id).past;
      if (mode != "tcp" && mode != "udp") || |id| != ID_LEN || id in sessions {
        return;
      }
      StoreSession(p, req, mode, sendOk, writeOk, errText, id);
    }

    /** The second half of `openProxySession`: pick, store, connect. */
    method StoreSession(p: nat, req: Request, mode: string, sendOk: bool, writeOk: bool, errText: Bytes, id: Id)
      modifies this, registry
      ensures Value() == B.Grant(old(Value()), p, req, mode, sendOk, writeOk, errText, id)
    {
      var picked := registry.GetWorker(req.route);
      assert Value() == B.SetReg(old(Value()), R.Pick(old(Value()).reg, req.route).0);
      if picked.None? {
        var _ := WriteToProxy(p, Binary(Packet(id, CMD_ERROR, errText)), writeOk);
      } else {
        var s := B.Session(p, picked.value, mode);
        past := B.Bound(Value(), id, s, req.target);
        sessions := sessions[id := s];
        ConnectWorker(p, picked.value, req, mode, sendOk, writeOk, errText, id);
      }
    }

    method ConnectWorker(p: nat, w: nat, req: Request, mode: string, sendOk: bool, writeOk: bool, errText: Bytes,
                         id: Id)
      modifies this
      ensures Value() == B.OpenTail(old(Value()), p, w, mode, req, sendOk, writeOk, errText, id)
    {
      var cmd := if mode == "udp" then CMD_UDP_CONNECT else CMD_CONNECT;
      if sendOk {
        SendToWorker(w, Binary(Packet(id, cmd, req.target)), true);
      } else {
        sessions := sessions - {id};
        var _ := WriteToProxy(p, Binary(Packet(id, CMD_ERROR, errText)), writeOk);
      }
    }

    /** The binary case of the `proxyHandler` loop. */
    method HandleProxyFrame(p: nat, m: Wire, sendOk: bool, writeOk: bool)
      requires IsFrame(m)
      modifies this
      ensures Value() == B.ProxyFrame(old(Value()), p, m, sendOk, writeOk)
    {
      var id, cmd := IdOf(m), CmdOf(m);
      if id !in sessions || sessions[id].proxy != p {
        return;
      }
      var w := sessions[id].worker;
      if cmd == CMD_DATA || cmd == CMD_UDP_DATA {
        if sendOk {
          SendToWorker(w, Binary(Packet(id, cmd, PayloadOf(m))), true);
        } else {
          sessions := sessions - {id};
          var _ := WriteToProxy(p, Binary(Packet(id, CMD_CLOSE, [])), writeOk);
        }
      } else if cmd == CMD_CLOSE {
        SendToWorker(w, Binary(Packet(id, CMD_CLOSE, [])), sendOk);
        sessions := sessions - {id};
      }
    }

    /** One turn of the `proxyHandler` loop; the invariant is kept as long as ids are not reused. */
    method HandleProxyMessage(p: nat, m: Wire, sendOk: bool, writeOk: bool, uuid: Id, errText: Bytes)
      requires Valid()
      modifies this, registry
      ensures Value() == B.Next(old(Value()), B.ProxyMessage(p, m, sendOk, writeOk, uuid, errText))
      ensures B.Fresh(old(Value()), B.ProxyMessage(p, m, sendOk, writeOk, uuid, errText)) ==> Valid()
    {
      TakeProxyMessage(p, m, sendOk, writeOk, uuid, errText);
      ghost var e := B.ProxyMessage(p, m, sendOk, writeOk, uuid, errText);
      if B.Fresh(old(Value()), e) {
        BP.StepKeeps(old(Value()), e);
      }
    }

    method TakeProxyMessage(p: nat, m: Wire, sendOk: bool, writeOk: bool, uuid: Id, errText: Bytes)
      modifies this, registry
      ensures Value() == B.Next(old(Value()), B.ProxyMessage(p, m, sendOk, writeOk, uuid, errText))
    {
      fromProxy := Append(fromProxy, p, m);
      if m.Text? {
        OpenProxySession(p, m.req, sendOk, writeOk, uuid, errText);
      } else if IsFrame(m) {
        HandleProxyFrame(p, m, sendOk, writeOk);
      }
    }

    /** One turn of the `workerReader` loop. */
    method HandleWorkerMessage(w: nat, m: Wire, writeOk: bool)
      requires Valid()
      modifies this
      ensures Valid() && Value() == B.Next(old(Value()), B.WorkerMessage(w, m, writeOk))
    {
      TakeWorkerMessage(w, m, writeOk);
      BP.StepKeeps(old(Value()), B.WorkerMessage(w, m, writeOk));
    }

    method TakeWorkerMessage(w: nat, m: Wire, writeOk: bool)
      modifies this
      ensures Value() == B.Next(old(Value()), B.WorkerMessage(w, m, writeOk))
    {
      fromWorker := Append(fromWorker, w, m);
      if !IsFrame(m) {
        return;
      }
      var id, cmd := IdOf(m), CmdOf(m);
      if id !in sessions || sessions[id].worker != w {
        return;
      }
      var p := sessions[id].proxy;
      if cmd == CMD_DATA || cmd == CMD_UDP_DATA || cmd == CMD_CONNECTED {
        var failed := WriteToProxy(p, m, writeOk);
        if failed {
          sessions := sessions - {id};
        }
      } else if cmd == CMD_CLOSE {
        var _ := WriteToProxy(p, m, writeOk);
        sessions := sessions - {id};
      }
    }

    method DropOneOfWorker(id: Id, writeOk: bool)
      requires id in sessions
      modifies this`sessions, this`toProxy
      ensures Value() == B.DropForWorker(old(Value()), id, writeOk) && sessions == old(sessions) - {id}
    {
      var _ := WriteToProxy(sessions[id].proxy, Binary(Packet(id, CMD_CLOSE, [])), writeOk);
      sessions := sessions - {id};
    }

    /** The loop of `removeWorker` over the session table, in any order. */
    method DropSessionsOfWorker(w: nat, oks: set<Id>) returns (ghost order: seq<Id>)
      modifies this
      ensures B.IsOrder(old(Value()), order, w)
      ensures Value() == B.DropAllForWorker(old(Value()), order, oks)
    {
      ghost var before := Value();
      ghost var mine := set id | id in sessions && sessions[id].worker == w;
      order := [];
      var todo := sessions.Keys;
      while todo != {}
        invariant Value() == B.DropAllForWorker(before, order, oks)
        invariant todo <= sessions.Keys <= before.sessions.Keys
        invariant forall id :: id in sessions ==> sessions[id] == before.sessions[id]
        invariant Met(mine, todo, order)
        invariant unchanged(registry)
        decreases todo
      {
        var id :| id in todo;
        MetNext(mine, todo, order, id);
        todo := todo - {id};
        if sessions[id].worker == w {
          OneMoreOfWorker(before, order, id, oks);
          DropOneOfWorker(id, id in oks);
          order := order + [id];
        }
      }
    }

    method RemoveWorker(w: nat, oks: set<Id>) returns (ghost order: seq<Id>)
      requires Valid()
      modifies this, registry
      ensures Valid() && Value() == B.Next(old(Value()), B.WorkerRemove(w, order, oks))
      ensures w !in old(Value()).reg.removed ==> B.IsOrder(old(Value()), order, w)
    {
      order := TakeRemoval(w, oks);
      BP.StepKeeps(old(Value()), B.WorkerRemove(w, order, oks));
    }

    method TakeRemoval(w: nat, oks: set<Id>) returns (ghost order: seq<Id>)
      modifies this, registry
      ensures Value() == B.Next(old(Value()), B.WorkerRemove(w, order, oks))
      ensures w !in old(Value()).reg.removed ==> B.IsOrder(old(Value()), order, w)
    {
      order := [];
      if w in registry.removed {
        return;
      }
      order := DropSessionsOfWorker(w, oks);
      registry.RemoveWorker(w);
    }

    /** `syncWorkersFromDB` for one row. */
    method MoveWorker(guid: string, group: string)
      requires Valid()
      modifies registry
      ensures Valid() && Value() == B.Next(old(Value()), B.WorkerMove(guid, group))
    {
      registry.MoveWorker(guid, group);
      BP.StepKeeps(old(Value()), B.WorkerMove(guid, group));
    }

    /** The goroutine that `ProxyConnection.close` left behind for one session. */
    method SendAsyncClose(id: Id, w: nat, sendOk: bool)
      requires Valid()
      modifies this
      ensures Valid() && Value() == B.Next(old(Value()), B.AsyncClose(id, w, sendOk))
    {
      if (id, w) in asyncCloses {
        asyncCloses := asyncCloses - {(id, w)};
        SendToWorker(w, Binary(Packet(id, CMD_CLOSE, [])), sendOk);
      }
      BP.StepKeeps(old(Value()), B.AsyncClose(id, w, sendOk));
    }

    /** `workerHandler` after the hello: the new connection is the active one of its GUID, and the one it
        displaces is removed with its sessions. */
    method RegisterWorker(w: nat, guid: string, group: string, oks: set<Id>) returns (ghost order: seq<Id>)
      requires Valid()
      modifies this, registry
      ensures Valid() && Value() == B.Next(old(Value()), B.WorkerRegister(w, guid, group, order, oks))
      ensures guid != "" && w !in old(Value()).reg.guidOf ==>
                && guid in registry.active && registry.active[guid] == w
                && (guid in old(Value()).reg.active ==>
                      B.IsOrder(old(Value()), order, old(Value()).reg.active[guid])
                      && old(Value()).reg.active[guid] in registry.removed)
    {
      assert guid in registry.active ==> R.ActiveOk(Value().reg, guid);
      order := TakeRegistration(w, guid, group, oks);
      BP.StepKeeps(old(Value()), B.WorkerRegister(w, guid, group, order, oks));
      if guid != "" && w !in old(Value()).reg.guidOf {
        Replaces(old(Value()), w, guid, group, order, oks);
      }
    }

    /** What a registration leaves in the registry. */
    static lemma Replaces(b: B.State, w: nat, guid: string, group: string, order: seq<Id>, oks: set<Id>)
      requires R.Inv(b.reg) && guid != "" && w !in b.reg.guidOf
      requires guid in b.reg.active ==> B.IsOrder(b, order, b.reg.active[guid])
      ensures var reg := B.RegisterWorker(b, w, guid, group, order, oks).reg;
              && guid in reg.active && reg.active[guid] == w
              && (guid in b.reg.active ==> b.reg.active[guid] in reg.removed)
    {
      if guid in b.reg.active {
        assert R.ActiveOk(b.reg, guid);
      }
    }

    method TakeRegistration(w: nat, guid: string, group: string, oks: set<Id>) returns (ghost order: seq<Id>)
      requires guid in registry.active ==> registry.active[guid] !in registry.removed
      modifies this, registry
      ensures Value() == B.Next(old(Value()), B.WorkerRegister(w, guid, group, order, oks))
      ensures guid != "" && w !in old(Value()).reg.guidOf && guid in old(Value()).reg.active ==>
                B.IsOrder(old(Value()), order, old(Value()).reg.active[guid])
    {
      order := [];
      if guid == "" || w in registry.guidOf {
        return;
      }
      ghost var before := Value();
      var displaces := guid in registry.active;
      var displaced := if displaces then registry.active[guid] else 0;
      registry.RegisterWorker(w, guid, group);
      if displaces {
        ghost var middle := Value();
        order := DropSessionsOfWorker(displaced, oks);
        assert B.IsOrder(before, order, displaced);
        DropIgnoresReg(before, R.Add(before.reg, w, guid, group), middle.reg, order, oks);
        assert middle == B.SetReg(before, middle.reg);
      }
    }

    /** The loop does not look at the registry. */
    static lemma {:induction false} DropIgnoresReg(b: B.State, r1: R.State, r2: R.State, order: seq<Id>, oks: set<Id>)
      ensures B.DropAllForWorker(B.SetReg(b, r2), order, oks)
              == B.SetReg(B.DropAllForWorker(B.SetReg(b, r1), order, oks), r2)
    {
      if order != [] {
        DropIgnoresReg(b, r1, r2, order[..|order| - 1], oks);
      }
    }

    /** `ProxyConnection.close`: the close frames to the workers are left to goroutines. */
    method CloseProxy(p: nat) returns (ghost order: seq<Id>)
      requires Valid()
      modifies this
      ensures Valid() && Value() == B.Next(old(Value()), B.ProxyClose(p, order))
      ensures p !in old(Value()).closed ==> B.IsProxyOrder(old(Value()), order, p)
    {
      order := [];
      if p in closed {
        return;
      }
      closed := closed + {p};
      order := DropSessionsOfProxy(p);
      BP.StepKeeps(old(Value()), B.ProxyClose(p, order));
    }

    /** `order` lists, once each, those of `mine` that the loop has met. */
    static ghost predicate Met(mine: set<Id>, todo: set<Id>, order: seq<Id>) {
      && (forall id :: id in order <==> id in mine && id !in todo)
      && forall i, j :: 0 <= i < j < |order| ==> order[i] != order[j]
    }

    static lemma MetNext(mine: set<Id>, todo: set<Id>, order: seq<Id>, id: Id)
      requires Met(mine, todo, order) && id in todo
      ensures Met(mine, todo - {id}, if id in mine then order + [id] else order)
    {
    }

    static lemma OneMoreOfWorker(b: B.State, order: seq<Id>, id: Id, oks: set<Id>)
      ensures B.DropAllForWorker(b, order + [id], oks)
           == B.DropForWorker(B.DropAllForWorker(b, order, oks), id, id in oks)
    {
      assert (order + [id])[..|order + [id]| - 1] == order;
    }

    static lemma OneMoreOfProxy(b: B.State, order: seq<Id>, id: Id)
      ensures B.DropAllForProxy(b, order + [id]) == B.DropForProxy(B.DropAllForProxy(b, order), id)
    {
      assert (order + [id])[..|order + [id]| - 1] == order;
    }

    method DropOneOfProxy(id: Id)
      requires id in sessions
      modifies this`sessions, this`asyncCloses
      ensures Value() == B.DropForProxy(old(Value()), id) && sessions == old(sessions) - {id}
    {
      asyncCloses := asyncCloses + {(id, sessions[id].worker)};
      sessions := sessions - {id};
    }

    /** The loop of `ProxyConnection.close` over the session table. */
    method DropSessionsOfProxy(p: nat) returns (ghost order: seq<Id>)
      modifies this`sessions, this`asyncCloses
      ensures Value() == B.DropAllForProxy(old(Value()), order)
      ensures B.IsProxyOrder(old(Value()), order, p)
    {
      order := [];
      ghost var before := Value();
      ghost var mine := set id | id in sessions && sessions[id].proxy == p;
      var todo := sessions.Keys;
      while todo != {}
        invariant Value() == B.DropAllForProxy(before, order)
        invariant todo <= sessions.Keys <= before.sessions.Keys
        invariant forall id :: id in sessions ==> sessions[id] == before.sessions[id]
        invariant Met(mine, todo, order)
        decreases todo
      {
        var id :| id in todo;
        MetNext(mine, todo, order, id);
        todo := todo - {id};
        if sessions[id].proxy == p {
          OneMoreOfProxy(before, order, id);
          DropOneOfProxy(id);
          order := order + [id];
        }
      }
    }
  }
}
