/** Where a worker is listed after it registers, moves or leaves, and what the other lists then are. */
module RegistryLists {
  import opened Registry

  /** The workers of a group, in turn order; a group that does not exist has none. */
  function ListOf(s: State, g: string): seq<WorkerRef> {
    if g in s.groups then s.groups[g].workers else []
  }

  /** The same workers in the same order, less `w`. */
  function Others(ws: seq<WorkerRef>, w: WorkerRef): (r: seq<WorkerRef>)
    ensures w !in r
    ensures w !in ws ==> r == ws
  {
    if ws == [] then [] else
      var n := |ws| - 1;
      if ws[n] == w then Others(ws[..n], w) else Others(ws[..n], w) + [ws[n]]
  }

  lemma OthersStep(ws: seq<WorkerRef>, x: WorkerRef, w: WorkerRef)
    ensures Others(ws + [x], w) == Others(ws, w) + (if x == w then [] else [x])
  {
    assert (ws + [x])[..|ws|] == ws;
  }

  lemma {:induction false} OthersPrepend(x: WorkerRef, ws: seq<WorkerRef>, w: WorkerRef)
    ensures Others([x] + ws, w) == (if x == w then [] else [x]) + Others(ws, w)
  {
    if ws == [] {
      assert [x] + ws == [] + [x];
      OthersStep([], x, w);
    } else {
      var n := |ws| - 1;
      var init, last := ws[..n], ws[n];
      OthersPrepend(x, init, w);
      OthersStep(init, last, w);
      OthersStep([x] + init, last, w);
      Assoc([x], init, [last]);
      Assoc(if x == w then [] else [x], Others(init, w), if last == w then [] else [last]);
      assert ws == init + [last];
    }
  }

  lemma Assoc(a: seq<WorkerRef>, b: seq<WorkerRef>, c: seq<WorkerRef>)
    ensures (a + b) + c == a + (b + c)
  {
  }

  /** Without duplicates, cutting the first occurrence leaves the others. */
  lemma {:induction false} WithoutIsOthers(ws: seq<WorkerRef>, w: WorkerRef)
    requires NoDup(ws)
    ensures Without(ws, w) == Others(ws, w)
  {
    if ws != [] {
      assert ws == [ws[0]] + ws[1..];
      OthersPrepend(ws[0], ws[1..], w);
      if ws[0] == w {
        assert w !in ws[1..];
      } else {
        WithoutIsOthers(ws[1..], w);
      }
    }
  }

  lemma CutList(s: State, g: string, w: WorkerRef)
    requires Inv(s)
    ensures var cut := RemoveFromGroup(s.groups, g, w);
            && (if g in cut then cut[g].workers else []) == Others(ListOf(s, g), w)
            && forall h :: h != g ==> (h in cut <==> h in s.groups) && (h in cut ==> cut[h] == s.groups[h])
  {
    if g in s.groups {
      assert GroupOk(s, g, {});
      WithoutIsOthers(s.groups[g].workers, w);
    }
  }

  /** A worker is listed in its own group only. */
  lemma ListedAtHome(s: State, g: string, w: WorkerRef)
    requires Inv(s) && w in ListOf(s, g)
    ensures w in s.groupOf && s.groupOf[w] == g && IsActive(s, w)
  {
    assert GroupOk(s, g, {}) && MemberOk(s, g, w, {});
  }

  lemma MovedList(s: State, guid: string, group: string, g: string)
    requires Inv(s) && guid in s.active
    ensures var w, t := s.active[guid], Move(s, guid, group);
            && w in s.groupOf
            && ListOf(t, g) == (if g != group then Others(ListOf(s, g), w)
                                else if group == "" || s.groupOf[w] == group then ListOf(s, g)
                                else ListOf(s, g) + [w])
  {
    assert ActiveOk(s, guid);
    var w := s.active[guid];
    if w in ListOf(s, g) { ListedAtHome(s, g, w); }
    if w in ListOf(s, group) { ListedAtHome(s, group, w); }
    if s.groupOf[w] != group { CutList(s, s.groupOf[w], w); }
  }

  /** After any run and a sync of an active worker: it has the new group name; it is listed at the end of that
      group, unless it was there before or the name is empty; and every other group holds the same workers in the
      same order, less this one. */
  lemma MoveLands(ops: seq<Op>, guid: string, group: string)
    requires guid in Run(ops).active
    ensures var s, t := Run(ops), Run(ops + [OpMove(guid, group)]);
            var w := s.active[guid];
            && w in s.groupOf && t.groupOf == s.groupOf[w := group]
            && t.active == s.active && t.removed == s.removed
            && (group != "" ==> w in ListOf(t, group))
            && (group != "" && s.groupOf[w] != group ==> ListOf(t, group) == ListOf(s, group) + [w])
            && (group == "" || s.groupOf[w] == group ==> ListOf(t, group) == ListOf(s, group))
            && forall g :: g != group ==> ListOf(t, g) == Others(ListOf(s, g), w)
  {
    var s, t := Run(ops), Run(ops + [OpMove(guid, group)]);
    var w := s.active[guid];
    RegistryIsConsistent(ops);
    OneMoreOp(ops, OpMove(guid, group));
    assert ActiveOk(s, guid);
    assert s.groupOf[w] == group ==> s.groupOf == s.groupOf[w := group];
    forall g ensures g != group ==> ListOf(t, g) == Others(ListOf(s, g), w) { MovedList(s, guid, group, g); }
    MovedList(s, guid, group, group);
  }

  lemma OneMoreOp(ops: seq<Op>, op: Op)
    ensures Run(ops + [op]) == Step(Run(ops), op)
  {
    assert (ops + [op])[..|ops|] == ops;
  }

  /** Those of a list that a new connection of the GUID leaves there. */
  function Staying(s: State, guid: string, ws: seq<WorkerRef>): seq<WorkerRef> {
    if guid in s.active then Others(ws, s.active[guid]) else ws
  }

  lemma AddedList(s: State, w: WorkerRef, guid: string, group: string, g: string)
    ensures ListOf(Add(s, w, guid, group), g) == ListOf(s, g) + (if g == group then [w] else [])
  {
  }

  lemma RegisteredList(s: State, w: WorkerRef, guid: string, group: string, g: string)
    requires Inv(s) && guid != "" && w !in s.guidOf
    ensures ListOf(Register(s, w, guid, group), g)
         == Staying(s, guid, ListOf(s, g)) + (if g == group then [w] else [])
  {
    AddedList(s, w, guid, group, g);
    if guid in s.active {
      assert ActiveOk(s, guid);
      if g == group { OthersStep(ListOf(s, g), w, s.active[guid]); }
      DisplacedList(s, w, guid, group, g);
    }
  }

  /** The registration of a new connection takes the displaced one out of its list. */
  lemma DisplacedList(s: State, w: WorkerRef, guid: string, group: string, g: string)
    requires Inv(s) && guid != "" && w !in s.guidOf && guid in s.active
    ensures var t := Add(s, w, guid, group);
            ListOf(Remove(t, s.active[guid]), g) == Others(ListOf(t, g), s.active[guid])
  {
    var t := Add(s, w, guid, group);
    AddKeeps(s, w, guid, group);
    ListedOnce(t, s.active[guid], g, {s.active[guid]});
    RemovedList(t, s.active[guid], g);
  }

  /** After any run and the registration of a new connection: it is the active one of its GUID, has the group name
      it gave and is listed at the end of that group; every list keeps its other workers in order, less the
      connection that was displaced, which is removed. */
  lemma RegisterLands(ops: seq<Op>, w: WorkerRef, guid: string, group: string)
    requires guid != "" && w !in Run(ops).guidOf
    ensures var s, t := Run(ops), Run(ops + [OpRegister(w, guid, group)]);
            && t.active == s.active[guid := w] && t.groupOf == s.groupOf[w := group] && t.guidOf == s.guidOf[w := guid]
            && t.removed == s.removed + (if guid in s.active then {s.active[guid]} else {})
            && ListOf(t, group) == Staying(s, guid, ListOf(s, group)) + [w]
            && forall g :: g != group ==> ListOf(t, g) == Staying(s, guid, ListOf(s, g))
  {
    var s, t := Run(ops), Run(ops + [OpRegister(w, guid, group)]);
    RegistryIsConsistent(ops);
    OneMoreOp(ops, OpRegister(w, guid, group));
    if guid in s.active { assert ActiveOk(s, guid); }
    forall g ensures g != group ==> ListOf(t, g) == Staying(s, guid, ListOf(s, g)) {
      RegisteredList(s, w, guid, group, g);
    }
    RegisteredList(s, w, guid, group, group);
  }

  /** After any run and the removal of a connection: it is listed nowhere and active under no GUID, and every list
      keeps its other workers in order. */
  lemma RemoveLeaves(ops: seq<Op>, w: WorkerRef)
    ensures var s, t := Run(ops), Run(ops + [OpRemove(w)]);
            && (forall g :: w !in ListOf(t, g) && ListOf(t, g) == Others(ListOf(s, g), w))
            && (forall guid :: guid in t.active <==> guid in s.active && s.active[guid] != w)
            && (forall guid :: guid in t.active ==> t.active[guid] == s.active[guid])
  {
    var s, t := Run(ops), Run(ops + [OpRemove(w)]);
    RegistryIsConsistent(ops);
    OneMoreOp(ops, OpRemove(w));
    forall g ensures ListOf(t, g) == Others(ListOf(s, g), w) {
      ListedOnce(s, w, g, {});
      RemovedList(s, w, g);
    }
    forall guid | guid in s.active ensures guid in t.active <==> s.active[guid] != w {
      assert ActiveOk(s, guid);
    }
  }

  /** A worker is listed at most once, in its own group, and not once it is removed. */
  ghost predicate AtHome(s: State, w: WorkerRef, g: string) {
    && NoDup(ListOf(s, g))
    && (w in ListOf(s, g) ==> w in s.groupOf && s.groupOf[w] == g && w in s.guidOf && w !in s.removed)
  }

  lemma ListedOnce(s: State, w: WorkerRef, g: string, ex: set<WorkerRef>)
    requires InvBut(s, ex)
    ensures AtHome(s, w, g)
  {
    if g in s.groups {
      assert GroupOk(s, g, ex);
      if w in s.groups[g].workers { assert MemberOk(s, g, w, ex); }
    }
  }

  lemma RemovedList(s: State, w: WorkerRef, g: string)
    requires AtHome(s, w, g)
    ensures ListOf(Remove(s, w), g) == Others(ListOf(s, g), w)
  {
    WithoutIsOthers(ListOf(s, g), w);
  }
}
