/** The broker's registry of workers: `activeWorkers`, the per-group lists and their round-robin
    counters. `State` and the functions on it are the specification; class `WorkerRegistry` at the
    end updates the same tables in place and is proved against them. */
module Registry {
  import opened Options

  /** Name of one registered worker connection (a `*Worker`); never reused. */
  type WorkerRef = nat

  datatype Group = Group(workers: seq<WorkerRef>, rr: nat)

  datatype State = State(
    active: map<string, WorkerRef>,
    groups: map<string, Group>,
    guidOf: map<WorkerRef, string>,
    groupOf: map<WorkerRef, string>,
    removed: set<WorkerRef>)

  const Init := State(map[], map[], map[], map[], {})

  function Without(ws: seq<WorkerRef>, w: WorkerRef): (r: seq<WorkerRef>)
    ensures forall x :: x in r ==> x in ws
    ensures forall x :: x in ws && x != w ==> x in r
    ensures w !in ws ==> r == ws
  {
    if ws == [] then [] else if ws[0] == w then ws[1..] else [ws[0]] + Without(ws[1..], w)
  }

  function AddToGroup(groups: map<string, Group>, g: string, w: WorkerRef): (r: map<string, Group>)
    ensures r.Keys == groups.Keys + {g}
    ensures forall h :: h in groups && h != g ==> r[h] == groups[h]
  {
    var grp := if g in groups then groups[g] else Group([], 0);
    groups[g := Group(grp.workers + [w], grp.rr)]
  }

  function RemoveFromGroup(groups: map<string, Group>, g: string, w: WorkerRef): map<string, Group> {
    if g !in groups then groups else
      var ws := Without(groups[g].workers, w);
      if ws == [] then groups - {g} else groups[g := Group(ws, groups[g].rr)]
  }

  /** `setActiveWorker` and `addWorkerToGroup` for a new connection. */
  function Add(s: State, w: WorkerRef, guid: string, group: string): State {
    s.(active := s.active[guid := w],
       groups := AddToGroup(s.groups, group, w),
       guidOf := s.guidOf[w := guid],
       groupOf := s.groupOf[w := group])
  }

  /** The registry part of `removeWorker`, which runs once per connection. */
  function Remove(s: State, w: WorkerRef): State {
    if w in s.removed || w !in s.guidOf || w !in s.groupOf then s else
      var guid := s.guidOf[w];
      s.(active := if guid in s.active && s.active[guid] == w then s.active - {guid} else s.active,
         groups := RemoveFromGroup(s.groups, s.groupOf[w], w),
         removed := s.removed + {w})
  }

  /** `workerHandler` once the hello was accepted: the new connection is listed before the one it
      replaces is removed. An empty GUID is refused. */
  function Register(s: State, w: WorkerRef, guid: string, group: string): State {
    if guid == "" || w in s.guidOf then s else
      var s1 := Add(s, w, guid, group);
      if guid in s.active then Remove(s1, s.active[guid]) else s1
  }

  /** `syncWorkersFromDB` for one row: `moveWorkerToGroup` on the active worker of that GUID. */
  function Move(s: State, guid: string, group: string): State {
    if guid !in s.active || s.active[guid] !in s.groupOf then s else
      var w := s.active[guid];
      var from := s.groupOf[w];
      if from == group then s else
        var cut := RemoveFromGroup(s.groups, from, w);
        s.(groups := if group != "" then AddToGroup(cut, group, w) else cut,
           groupOf := s.groupOf[w := group])
  }

  /** `getWorker`: the next worker of the group, if it has any. */
  function Pick(s: State, g: string): (r: (State, Option<WorkerRef>)) {
    if g !in s.groups || s.groups[g].workers == [] then (s, None) else
      var grp := s.groups[g];
      (s.(groups := s.groups[g := grp.(rr := grp.rr + 1)]),
       Some(grp.workers[grp.rr % |grp.workers|]))
  }

  // ---- the invariant, over every run ---------------------------------------------------

  ghost predicate NoDup(ws: seq<WorkerRef>) {
    forall i, j :: 0 <= i < j < |ws| ==> ws[i] != ws[j]
  }

  ghost predicate IsActive(s: State, w: WorkerRef) {
    w in s.guidOf && s.guidOf[w] in s.active && s.active[s.guidOf[w]] == w
  }

  ghost predicate GroupOk(s: State, g: string, ex: set<WorkerRef>)
    requires g in s.groups
  {
    && s.groups[g].workers != []
    && NoDup(s.groups[g].workers)
    && forall x :: x in s.groups[g].workers ==> MemberOk(s, g, x, ex)
  }

  ghost predicate MemberOk(s: State, g: string, x: WorkerRef, ex: set<WorkerRef>) {
    x in s.groupOf && s.groupOf[x] == g && (IsActive(s, x) || x in ex) && x !in s.removed
  }

  ghost predicate ActiveOk(s: State, guid: string)
    requires guid in s.active
  {
    var w := s.active[guid];
    && guid != ""
    && w in s.guidOf && s.guidOf[w] == guid && w in s.groupOf && w !in s.removed
    && (s.groupOf[w] != "" ==> s.groupOf[w] in s.groups && w in s.groups[s.groupOf[w]].workers)
  }

  /** The registry is consistent, except that the workers in `ex` may be listed without being active. */
  ghost predicate InvBut(s: State, ex: set<WorkerRef>) {
    && (forall g :: g in s.groups ==> GroupOk(s, g, ex))
    && (forall k :: k in s.active ==> ActiveOk(s, k))
    && s.guidOf.Keys == s.groupOf.Keys
    && s.removed <= s.guidOf.Keys
  }

  ghost predicate Inv(s: State) {
    InvBut(s, {})
  }

  lemma {:induction false} WithoutAt(ws: seq<WorkerRef>, w: WorkerRef, i: nat)
    requires i < |ws| && ws[i] == w && forall j :: 0 <= j < i ==> ws[j] != w
    ensures Without(ws, w) == ws[..i] + ws[i + 1..]
  {
    if i > 0 {
      WithoutAt(ws[1..], w, i - 1);
      assert ws[1..][..i - 1] == ws[1..i] && ws[1..][i..] == ws[i + 1..];
      assert ws[..i] == [ws[0]] + ws[1..i];
    }
  }

  lemma {:induction false} WithoutNoDup(ws: seq<WorkerRef>, w: WorkerRef)
    requires NoDup(ws)
    ensures NoDup(Without(ws, w)) && w !in Without(ws, w)
  {
    if ws != [] && ws[0] != w {
      WithoutNoDup(ws[1..], w);
      var r := Without(ws[1..], w);
      assert forall x :: x in r ==> x in ws[1..];
      assert ws[0] !in ws[1..];
    }
  }

  lemma NoDupAppend(ws: seq<WorkerRef>, w: WorkerRef)
    requires NoDup(ws) && w !in ws
    ensures NoDup(ws + [w])
  {
  }

  lemma AddKeepsGroup(s: State, w: WorkerRef, guid: string, group: string, g: string)
    requires Inv(s) && guid != "" && w !in s.guidOf && g in Add(s, w, guid, group).groups
    ensures GroupOk(Add(s, w, guid, group), g, if guid in s.active then {s.active[guid]} else {})
  {
    var t := Add(s, w, guid, group);
    var ex := if guid in s.active then {s.active[guid]} else {};
    var before := if g in s.groups then s.groups[g].workers else [];
    assert NoDup(before) && w !in before by {
      if g in s.groups { assert GroupOk(s, g, {}); }
    }
    forall x | x in before
      ensures MemberOk(t, g, x, ex)
    {
      assert GroupOk(s, g, {});
      assert MemberOk(s, g, x, {});
    }
    if g == group {
      NoDupAppend(before, w);
      assert MemberOk(t, g, w, ex);
      assert t.groups[g].workers == before + [w];
    } else {
      assert t.groups[g].workers == before;
      assert GroupOk(s, g, {});
    }
  }

  lemma AddKeeps(s: State, w: WorkerRef, guid: string, group: string)
    requires Inv(s) && guid != "" && w !in s.guidOf
    ensures InvBut(Add(s, w, guid, group), if guid in s.active then {s.active[guid]} else {})
  {
    var t := Add(s, w, guid, group);
    forall g | g in t.groups
      ensures GroupOk(t, g, if guid in s.active then {s.active[guid]} else {})
    {
      AddKeepsGroup(s, w, guid, group, g);
    }
    forall k | k in t.active
      ensures ActiveOk(t, k)
    {
      if k != guid { assert ActiveOk(s, k); }
    }
  }

  lemma RemoveKeeps(s: State, w: WorkerRef, ex: set<WorkerRef>)
    requires InvBut(s, ex)
    ensures InvBut(Remove(s, w), ex - {w})
  {
    var t := Remove(s, w);
    if w in s.removed || w !in s.guidOf {
      forall g | g in s.groups
        ensures GroupOk(t, g, ex - {w})
      {
        assert GroupOk(s, g, ex);
        forall x | x in s.groups[g].workers ensures MemberOk(t, g, x, ex - {w}) {
          assert MemberOk(s, g, x, ex);
        }
      }
    } else {
      var mine := s.groupOf[w];
      if mine in s.groups {
        assert GroupOk(s, mine, ex);
        WithoutNoDup(s.groups[mine].workers, w);
      }
      forall g | g in t.groups
        ensures GroupOk(t, g, ex - {w})
      {
        assert GroupOk(s, g, ex);
        forall x | x in t.groups[g].workers
          ensures MemberOk(t, g, x, ex - {w})
        {
          assert MemberOk(s, g, x, ex);
        }
      }
      forall k | k in t.active
        ensures ActiveOk(t, k)
      {
        assert ActiveOk(s, k);
      }
    }
  }

  lemma RegisterKeeps(s: State, w: WorkerRef, guid: string, group: string)
    requires Inv(s)
    ensures Inv(Register(s, w, guid, group))
  {
    if guid != "" && w !in s.guidOf {
      AddKeeps(s, w, guid, group);
      if guid in s.active {
        RemoveKeeps(Add(s, w, guid, group), s.active[guid], {s.active[guid]});
      }
    }
  }

  lemma MoveKeepsGroup(s: State, guid: string, group: string, g: string)
    requires Inv(s) && guid in s.active && s.groupOf[s.active[guid]] != group
    requires g in Move(s, guid, group).groups
    ensures GroupOk(Move(s, guid, group), g, {})
  {
    var t := Move(s, guid, group);
    var w := s.active[guid];
    var from := s.groupOf[w];
    assert ActiveOk(s, guid);
    var before := if g in s.groups then s.groups[g].workers else [];
    assert NoDup(before) && (g != from ==> w !in before) by {
      if g in s.groups { assert GroupOk(s, g, {}); }
    }
    forall x | x in before
      ensures x != w ==> MemberOk(t, g, x, {})
    {
      assert GroupOk(s, g, {});
      assert MemberOk(s, g, x, {});
    }
    if g == from {
      WithoutNoDup(before, w);
      assert t.groups[g].workers == Without(before, w);
    } else if g == group && group != "" {
      NoDupAppend(before, w);
      assert MemberOk(t, g, w, {});
      assert t.groups[g].workers == before + [w];
    } else {
      assert g in s.groups && GroupOk(s, g, {});
      assert t.groups[g].workers == before;
    }
  }

  lemma MoveKeeps(s: State, guid: string, group: string)
    requires Inv(s)
    ensures Inv(Move(s, guid, group))
  {
    var t := Move(s, guid, group);
    if guid in s.active && s.groupOf[s.active[guid]] != group {
      forall g | g in t.groups
        ensures GroupOk(t, g, {})
      {
        MoveKeepsGroup(s, guid, group, g);
      }
      forall k | k in t.active
        ensures ActiveOk(t, k)
      {
        assert ActiveOk(s, k);
        assert ActiveOk(s, guid);
      }
    }
  }

  lemma PickKeeps(s: State, g: string)
    requires Inv(s)
    ensures Inv(Pick(s, g).0)
    ensures Pick(s, g).1.Some? ==>
              IsActive(s, Pick(s, g).1.value) && Pick(s, g).1.value !in s.removed
              && g in s.groups && Pick(s, g).1.value in s.groups[g].workers
    ensures Pick(s, g).1.None? <==> g !in s.groups
    ensures Pick(s, g).0.removed == s.removed
  {
    var t := Pick(s, g).0;
    if g in s.groups {
      assert GroupOk(s, g, {});
      assert MemberOk(s, g, Pick(s, g).1.value, {});
    }
    forall h | h in t.groups
      ensures GroupOk(t, h, {})
    {
      assert GroupOk(s, h, {});
      forall x | x in t.groups[h].workers ensures MemberOk(t, h, x, {}) {
        assert MemberOk(s, h, x, {});
      }
    }
    forall k | k in t.active
      ensures ActiveOk(t, k)
    {
      assert ActiveOk(s, k);
    }
  }

  datatype Op =
    | OpRegister(w: WorkerRef, guid: string, group: string)
    | OpMove(guid: string, group: string)
    | OpRemove(w: WorkerRef)
    | OpPick(group: string)

  function Step(s: State, op: Op): State {
    match op
    case OpRegister(w, guid, group) => Register(s, w, guid, group)
    case OpMove(guid, group) => Move(s, guid, group)
    case OpRemove(w) => Remove(s, w)
    case OpPick(g) => Pick(s, g).0
  }

  function Run(ops: seq<Op>): State {
    if ops == [] then Init else Step(Run(ops[..|ops| - 1]), ops[|ops| - 1])
  }

  /** After any run of registrations, syncs, removals and picks: group lists are non-empty and
      duplicate-free, their members are exactly active workers of that group, and every active
      worker with a group name is listed. */
  lemma {:induction false} RegistryIsConsistent(ops: seq<Op>)
    ensures Inv(Run(ops))
  {
    if ops != [] {
      var s := Run(ops[..|ops| - 1]);
      RegistryIsConsistent(ops[..|ops| - 1]);
      match ops[|ops| - 1]
      case OpRegister(w, guid, group) => RegisterKeeps(s, w, guid, group);
      case OpMove(guid, group) => MoveKeeps(s, guid, group);
      case OpRemove(w) => RemoveKeeps(s, w, {});
      case OpPick(g) => PickKeeps(s, g);
    }
  }

  // ---- round robin ---------------------------------------------------------------------

  function RunFrom(s: State, ops: seq<Op>): State {
    if ops == [] then s else Step(RunFrom(s, ops[..|ops| - 1]), ops[|ops| - 1])
  }

  /** What the picks of group `g` return in a segment of a run, whatever happens between them. */
  function Got(s: State, ops: seq<Op>, g: string): seq<Option<WorkerRef>> {
    if ops == [] then [] else
      var n := |ops| - 1;
      var front := Got(s, ops[..n], g);
      if ops[n] == OpPick(g) then front + [Pick(RunFrom(s, ops[..n]), g).1] else front
  }

  /** The list of the group is `ws` all through the segment. */
  ghost predicate Unchanged(s: State, ops: seq<Op>, g: string, ws: seq<WorkerRef>) {
    && (ops != [] ==> Unchanged(s, ops[..|ops| - 1], g, ws))
    && g in RunFrom(s, ops).groups && RunFrom(s, ops).groups[g].workers == ws
  }

  function Count(got: seq<Option<WorkerRef>>, w: WorkerRef): nat {
    if got == [] then 0 else
      Count(got[..|got| - 1], w) + (if got[|got| - 1] == Some(w) then 1 else 0)
  }

  /** Only a pick of the group moves its counter, as long as the group stays. */
  lemma CounterMoves(s: State, op: Op, g: string)
    requires g in s.groups && s.groups[g].workers != [] && g in Step(s, op).groups
    ensures Step(s, op).groups[g].rr == s.groups[g].rr + (if op == OpPick(g) then 1 else 0)
  {
    match op
    case OpRegister(w, guid, group) =>
      if guid != "" && w !in s.guidOf && guid in s.active { CounterStays(Add(s, w, guid, group), s.active[guid], g); }
    case OpMove(guid, group) =>
    case OpRemove(w) => CounterStays(s, w, g);
    case OpPick(h) =>
  }

  lemma CounterStays(s: State, w: WorkerRef, g: string)
    requires g in s.groups && g in Remove(s, w).groups
    ensures Remove(s, w).groups[g].rr == s.groups[g].rr
  {
  }

  lemma {:induction false} CounterCounts(s: State, ops: seq<Op>, g: string, ws: seq<WorkerRef>)
    requires Unchanged(s, ops, g, ws) && ws != [] && g in s.groups
    ensures RunFrom(s, ops).groups[g].rr == s.groups[g].rr + |Got(s, ops, g)|
  {
    if ops != [] {
      var n := |ops| - 1;
      CounterCounts(s, ops[..n], g, ws);
      CounterMoves(RunFrom(s, ops[..n]), ops[n], g);
    }
  }

  /** How many of the numbers below `m` have remainder `j` modulo `n`. */
  function Hits(m: nat, n: nat, j: nat): nat
    requires j < n
  {
    (m + n - 1 - j) / n
  }

  lemma MulSign(d: int, n: int)
    requires n > 0
    ensures d >= 1 ==> d * n >= n
    ensures d <= -1 ==> d * n <= -n
  {
  }

  lemma DivUnique(x: int, n: int, q: int, r: int)
    requires n > 0 && x == q * n + r && 0 <= r < n
    ensures x / n == q && x % n == r
  {
    var d := x / n - q;
    assert d * n == r - x % n;
    MulSign(d, n);
  }

  lemma HitsStep(m: nat, n: nat, j: nat)
    requires j < n
    ensures Hits(m + 1, n, j) == Hits(m, n, j) + (if m % n == j then 1 else 0)
  {
    var q, r := m / n, m % n;
    assert m == q * n + r;
    if r < j {
      DivUnique(m + n - 1 - j, n, q, r + n - 1 - j);
      DivUnique(m + n - j, n, q, r + n - j);
    } else if r == j {
      DivUnique(m + n - 1 - j, n, q, n - 1);
      assert m + n - j == (q + 1) * n + 0;
      DivUnique(m + n - j, n, q + 1, 0);
    } else {
      assert m + n - 1 - j == (q + 1) * n + (r - 1 - j);
      DivUnique(m + n - 1 - j, n, q + 1, r - 1 - j);
      assert m + n - j == (q + 1) * n + (r - j);
      DivUnique(m + n - j, n, q + 1, r - j);
    }
  }

  lemma {:induction false} CountIsHits(s: State, ops: seq<Op>, g: string, ws: seq<WorkerRef>, j: nat)
    requires g in s.groups && Unchanged(s, ops, g, ws) && NoDup(ws) && j < |ws|
    ensures var rr := s.groups[g].rr;
            Count(Got(s, ops, g), ws[j]) == Hits(rr + |Got(s, ops, g)|, |ws|, j) - Hits(rr, |ws|, j)
  {
    if ops != [] {
      var n := |ops| - 1;
      CountIsHits(s, ops[..n], g, ws, j);
      if ops[n] == OpPick(g) {
        CounterCounts(s, ops[..n], g, ws);
        OnePickCounts(s, ops, g, ws, j);
      }
    }
  }

  /** One more pick: it returns the worker whose turn the counter says it is. */
  lemma OnePickCounts(s: State, ops: seq<Op>, g: string, ws: seq<WorkerRef>, j: nat)
    requires ops != [] && ops[|ops| - 1] == OpPick(g) && NoDup(ws) && j < |ws| && g in s.groups
    requires var t := RunFrom(s, ops[..|ops| - 1]);
             && g in t.groups && t.groups[g].workers == ws
             && t.groups[g].rr == s.groups[g].rr + |Got(s, ops[..|ops| - 1], g)|
    ensures var rr, k := s.groups[g].rr, |Got(s, ops[..|ops| - 1], g)|;
            && |Got(s, ops, g)| == k + 1
            && Count(Got(s, ops, g), ws[j]) - Count(Got(s, ops[..|ops| - 1], g), ws[j])
               == Hits(rr + k + 1, |ws|, j) - Hits(rr + k, |ws|, j)
  {
    var front := Got(s, ops[..|ops| - 1], g);
    var turn := s.groups[g].rr + |front|;
    var all := front + [Some(ws[turn % |ws|])];
    assert all[..|front|] == front;
    assert ws[turn % |ws|] == ws[j] <==> turn % |ws| == j;
    HitsStep(turn, |ws|, j);
  }

  lemma DivSpread(a: nat, k: nat, n: nat)
    requires n > 0
    ensures k / n <= (a + k) / n - a / n <= (k + n - 1) / n
  {
    var qa, ra, qk, rk := a / n, a % n, k / n, k % n;
    assert a == qa * n + ra && k == qk * n + rk;
    assert a + k == (qa + qk) * n + (ra + rk);
    if ra + rk < n {
      DivUnique(a + k, n, qa + qk, ra + rk);
    } else {
      assert a + k == (qa + qk + 1) * n + (ra + rk - n);
      DivUnique(a + k, n, qa + qk + 1, ra + rk - n);
    }
    if rk == 0 {
      DivUnique(k + n - 1, n, qk, n - 1);
    } else {
      assert k + n - 1 == (qk + 1) * n + (rk - 1);
      DivUnique(k + n - 1, n, qk + 1, rk - 1);
    }
  }

  lemma HitsSpread(rr: nat, k: nat, n: nat, j: nat)
    requires j < n
    ensures k / n <= Hits(rr + k, n, j) - Hits(rr, n, j) <= (k + n - 1) / n
  {
    DivSpread(rr + n - 1 - j, k, n);
  }

  lemma SegmentIsFair(s: State, ops: seq<Op>, g: string, ws: seq<WorkerRef>, w: WorkerRef)
    requires g in s.groups && NoDup(ws) && w in ws && Unchanged(s, ops, g, ws)
    ensures var got := Got(s, ops, g); |got| / |ws| <= Count(got, w) <= (|got| + |ws| - 1) / |ws|
  {
    var j :| 0 <= j < |ws| && ws[j] == w;
    CountIsHits(s, ops, g, ws, j);
    HitsSpread(s.groups[g].rr, |Got(s, ops, g)|, |ws|, j);
  }

  /** In any segment of a run in which the list of a group of n workers does not change, whatever else
      happens between them, k picks of the group give each worker floor(k/n) or ceil(k/n) sessions. */
  lemma RoundRobinIsFair(before: seq<Op>, ops: seq<Op>, g: string, w: WorkerRef)
    requires g in Run(before).groups && w in Run(before).groups[g].workers
    requires Unchanged(Run(before), ops, g, Run(before).groups[g].workers)
    ensures var n, got := |Run(before).groups[g].workers|, Got(Run(before), ops, g);
            |got| / n <= Count(got, w) <= (|got| + n - 1) / n
  {
    assert NoDup(Run(before).groups[g].workers) by {
      RegistryIsConsistent(before);
      assert GroupOk(Run(before), g, {});
    }
    SegmentIsFair(Run(before), ops, g, Run(before).groups[g].workers, w);
  }

  // ---- the tables updated in place -----------------------------------------------------

  class WorkerRegistry {
    var active: map<string, WorkerRef>
    var groups: map<string, Group>
    var guidOf: map<WorkerRef, string>
    var groupOf: map<WorkerRef, string>
    var removed: set<WorkerRef>

    ghost function Value(): State
      reads this
    {
      State(active, groups, guidOf, groupOf, removed)
    }

    constructor ()
      ensures Value() == Init
    {
      active, groups, guidOf, groupOf, removed := map[], map[], map[], map[], {};
    }

    /** The scan shared by `removeWorkerFromGroup` and `moveWorkerToGroup`. */
    method CutFromList(ws: seq<WorkerRef>, w: WorkerRef) returns (r: seq<WorkerRef>)
      ensures r == Without(ws, w)
    {
      var i := 0;
      while i < |ws|
        invariant 0 <= i <= |ws|
        invariant forall j :: 0 <= j < i ==> ws[j] != w
      {
        if ws[i] == w {
          WithoutAt(ws, w, i);
          return ws[..i] + ws[i + 1..];
        }
        i := i + 1;
      }
      r := ws;
    }

    method CutFromGroup(g: string, w: WorkerRef)
      modifies this`groups
      ensures groups == RemoveFromGroup(old(groups), g, w)
    {
      if g !in groups {
        return;
      }
      var ws := CutFromList(groups[g].workers, w);
      if |ws| == 0 {
        groups := groups - {g};
      } else {
        groups := groups[g := Group(ws, groups[g].rr)];
      }
    }

    method AppendToGroup(g: string, w: WorkerRef)
      modifies this`groups
      ensures groups == AddToGroup(old(groups), g, w)
    {
      if g !in groups {
        groups := groups[g := Group([], 0)];
      }
      groups := groups[g := Group(groups[g].workers + [w], groups[g].rr)];
    }

    method RemoveWorker(w: WorkerRef)
      modifies this
      ensures Value() == Remove(old(Value()), w)
    {
      if w in removed || w !in guidOf || w !in groupOf {
        return;
      }
      var guid := guidOf[w];
      if guid in active && active[guid] == w {
        active := active - {guid};
      }
      CutFromGroup(groupOf[w], w);
      removed := removed + {w};
    }

    method RegisterWorker(w: WorkerRef, guid: string, group: string)
      modifies this
      ensures Value() == Register(old(Value()), w, guid, group)
    {
      if guid == "" || w in guidOf {
        return;
      }
      var previous := if guid in active then Some(active[guid]) else None;
      active := active[guid := w];
      guidOf, groupOf := guidOf[w := guid], groupOf[w := group];
      AppendToGroup(group, w);
      if previous.Some? {
        RemoveWorker(previous.value);
      }
    }

    method MoveWorker(guid: string, group: string)
      modifies this
      ensures Value() == Move(old(Value()), guid, group)
    {
      if guid !in active || active[guid] !in groupOf {
        return;
      }
      var w := active[guid];
      var from := groupOf[w];
      if from == group {
        return;
      }
      CutFromGroup(from, w);
      if group != "" {
        AppendToGroup(group, w);
      }
      groupOf := groupOf[w := group];
    }

    method GetWorker(g: string) returns (w: Option<WorkerRef>)
      modifies this`groups
      ensures (Value(), w) == Pick(old(Value()), g)
    {
      if g !in groups || |groups[g].workers| == 0 {
        return None;
      }
      var grp := groups[g];
      w := Some(grp.workers[grp.rr % |grp.workers|]);
      groups := groups[g := grp.(rr := grp.rr + 1)];
    }
  }
}
