/** The deadline list of the thread backend, which callbacks change while it is walked, with
    the `timers_map` of every actor. */
module Timers {

  type Actor = int
  type Id = nat

  /** `serial` is the position in the order in which timers were started. */
  datatype Node = Node(id: Id, owner: Actor, deadline: int, serial: nat)

  /** One invocation of a timer's callback. */
  datatype Call = Call(id: Id, cancelled: bool)

  datatype State = State(
    now: int,
    nodes: seq<Node>,              // timer_nodes
    owned: map<Actor, set<Id>>,    // timers_map of each actor
    started: seq<Id>,              // ids of all timers started so far
    calls: seq<Call>)              // callbacks invoked so far

  /** What a callback does, as a finite tree: it starts timers and cancels timers, whose own
      callbacks do something in turn. */
  datatype Script =
    | Done
    | Begin(owner: Actor, id: Id, interval: nat, rest: Script)
    | Stop(id: Id, nested: Script, rest: Script)

  /** The behaviour of every callback: what it does when it fires in a given state. */
  type Behaviour = (State, Id) -> Script

  const EMPTY := State(0, [], map[], [], [])

  function Owned(owned: map<Actor, set<Id>>, a: Actor): set<Id> {
    if a in owned then owned[a] else {}
  }

  /** Before the first node whose deadline is later. */
  function Insert(nodes: seq<Node>, n: Node): seq<Node> {
    if nodes == [] then [n]
    else if n.deadline < nodes[0].deadline then [n] + nodes
    else [nodes[0]] + Insert(nodes[1..], n)
  }

  /** Position of the node with this id, or the length of the list. */
  function Find(nodes: seq<Node>, id: Id): (k: nat)
    ensures k <= |nodes|
    ensures k < |nodes| ==> nodes[k].id == id
    ensures forall i :: 0 <= i < k ==> nodes[i].id != id
  {
    if nodes == [] || nodes[0].id == id then 0 else 1 + Find(nodes[1..], id)
  }

  ghost predicate HasId(nodes: seq<Node>, id: Id) {
    exists n :: n in nodes && n.id == id
  }

  function Erase(nodes: seq<Node>, id: Id): seq<Node> {
    if nodes == [] then []
    else if nodes[0].id == id then nodes[1..]
    else [nodes[0]] + Erase(nodes[1..], id)
  }

  function StartTimer(s: State, owner: Actor, id: Id, interval: nat): State {
    s.(nodes := Insert(s.nodes, Node(id, owner, s.now + interval, |s.started|)),
       owned := s.owned[owner := Owned(s.owned, owner) + {id}],
       started := s.started + [id])
  }

  /** `on_timer_trigger`: the callback runs first, then the actor forgets the timer. */
  function Trigger(s: State, owner: Actor, id: Id, cancelled: bool, script: Script, active: set<Id>): State
    decreases script, 1
  {
    if id !in Owned(s.owned, owner) then s
    else
      var s1 := Exec(s.(calls := s.calls + [Call(id, cancelled)]), script, active);
      s1.(owned := s1.owned[owner := Owned(s1.owned, owner) - {id}])
  }

  /** Runs a callback. Timers in `active` have their callbacks under way; an operation that
      the source asserts away (a timer that is not there, or one that is under way) is
      skipped, and so is the reuse of an id. */
  function Exec(s: State, script: Script, active: set<Id>): State
    decreases script, 0
  {
    match script
    case Done => s
    case Begin(owner, id, interval, rest) =>
      Exec(if id in s.started then s else StartTimer(s, owner, id, interval), rest, active)
    case Stop(id, nested, rest) =>
      Exec(if id in active then s else CancelTimer(s, id, nested, active), rest, active)
  }

  function CancelTimer(s: State, id: Id, nested: Script, active: set<Id>): State
    decreases nested, 2
  {
    var k := Find(s.nodes, id);
    if k == |s.nodes| then s
    else
      var s1 := Trigger(s, s.nodes[k].owner, id, true, nested, active + {id});
      s1.(nodes := Erase(s1.nodes, id))
  }

  // ---------------------------------------------------------------- invariant

  /** By deadline, and among equal deadlines in the order of starting. */
  ghost predicate Before(m: Node, n: Node) {
    m.deadline < n.deadline || (m.deadline == n.deadline && m.serial < n.serial)
  }

  ghost predicate Sorted(nodes: seq<Node>) {
    forall i, j :: 0 <= i < j < |nodes| ==> Before(nodes[i], nodes[j])
  }

  ghost predicate Distinct(nodes: seq<Node>) {
    forall i, j :: 0 <= i < j < |nodes| ==> nodes[i].id != nodes[j].id
  }

  ghost predicate WellNumbered(s: State) {
    && (forall i, j :: 0 <= i < j < |s.started| ==> s.started[i] != s.started[j])
    && (forall n :: n in s.nodes ==> n.serial < |s.started| && s.started[n.serial] == n.id)
  }

  /** The ids in the list are exactly the keys of the actors' timer maps. */
  ghost predicate Coupled(nodes: seq<Node>, owned: map<Actor, set<Id>>) {
    && (forall n :: n in nodes ==> n.id in Owned(owned, n.owner))
    && (forall a, id :: id in Owned(owned, a) ==> exists n :: n in nodes && n.id == id && n.owner == a)
  }

  ghost predicate Called(s: State, id: Id) {
    exists c :: c in s.calls && c.id == id
  }

  /** No callback is invoked twice, and those not yet invoked are waiting in the list. */
  ghost predicate CalledOnce(s: State, active: set<Id>) {
    && (forall i, j :: 0 <= i < j < |s.calls| ==> s.calls[i].id != s.calls[j].id)
    && (forall id :: id in s.started <==> HasId(s.nodes, id) || Called(s, id))
    && (forall id :: HasId(s.nodes, id) && Called(s, id) <==> id in active)
  }

  ghost predicate Inv(s: State, active: set<Id>) {
    Sorted(s.nodes) && Distinct(s.nodes) && WellNumbered(s) && Coupled(s.nodes, s.owned) && CalledOnce(s, active)
  }

  lemma {:induction false} InsertKeeps(nodes: seq<Node>, n: Node)
    requires Sorted(nodes) && Distinct(nodes)
    requires forall m :: m in nodes ==> m.serial < n.serial && m.id != n.id
    ensures Sorted(Insert(nodes, n)) && Distinct(Insert(nodes, n))
    ensures forall m :: m in Insert(nodes, n) <==> m in nodes || m == n
  {
    if nodes != [] && n.deadline >= nodes[0].deadline {
      assert nodes == [nodes[0]] + nodes[1..];
      InsertKeeps(nodes[1..], n);
      HeadFirst(nodes);
      PrependKeeps(nodes[0], Insert(nodes[1..], n));
    } else if nodes != [] {
      forall i | 0 <= i < |nodes| ensures Before(n, nodes[i]) {
        assert i > 0 ==> Before(nodes[0], nodes[i]);
      }
    }
  }

  lemma HeadFirst(nodes: seq<Node>)
    requires nodes != [] && Sorted(nodes) && Distinct(nodes)
    ensures forall m :: m in nodes[1..] ==> Before(nodes[0], m) && m.id != nodes[0].id
  {
    forall m | m in nodes[1..] ensures Before(nodes[0], m) && m.id != nodes[0].id {
      var i :| 0 < i < |nodes| && nodes[i] == m;
    }
  }

  lemma PrependKeeps(first: Node, rest: seq<Node>)
    requires Sorted(rest) && Distinct(rest)
    requires forall m :: m in rest ==> Before(first, m) && m.id != first.id
    ensures Sorted([first] + rest) && Distinct([first] + rest)
  {}

  lemma {:induction false} EraseKeeps(nodes: seq<Node>, id: Id)
    requires Sorted(nodes) && Distinct(nodes)
    ensures Sorted(Erase(nodes, id)) && Distinct(Erase(nodes, id))
    ensures forall m :: m in Erase(nodes, id) <==> m in nodes && m.id != id
  {
    if nodes != [] {
      assert nodes == [nodes[0]] + nodes[1..];
      forall m | m in nodes[1..] ensures Before(nodes[0], m) && m.id != nodes[0].id {
        var i :| 0 <= i < |nodes[1..]| && nodes[1..][i] == m;
        assert m == nodes[i + 1];
      }
      EraseKeeps(nodes[1..], id);
    }
  }

  /** Ids of the expired timers, in list order. */
  function Expired(nodes: seq<Node>, now: int): seq<Id> {
    if nodes == [] then []
    else if nodes[0].deadline < now then [nodes[0].id] + Expired(nodes[1..], now)
    else Expired(nodes[1..], now)
  }

  function Without(ids: seq<Id>, gone: set<Id>): seq<Id> {
    if ids == [] then []
    else if ids[0] in gone then Without(ids[1..], gone)
    else [ids[0]] + Without(ids[1..], gone)
  }

  function CancelledIn(calls: seq<Call>): set<Id> {
    set c | c in calls && c.cancelled :: c.id
  }

  lemma {:induction false} InsertExpired(nodes: seq<Node>, n: Node, now: int)
    requires n.deadline >= now
    ensures Expired(Insert(nodes, n), now) == Expired(nodes, now)
  {
    if nodes != [] && n.deadline >= nodes[0].deadline {
      InsertExpired(nodes[1..], n, now);
      assert Insert(nodes, n)[1..] == Insert(nodes[1..], n);
    } else {
      assert ([n] + nodes)[1..] == nodes;
    }
  }

  lemma {:induction false} EraseExpired(nodes: seq<Node>, id: Id, now: int)
    requires Distinct(nodes)
    ensures Expired(Erase(nodes, id), now) == Without(Expired(nodes, now), {id})
  {
    if nodes != [] {
      assert Distinct(nodes[1..]);
      if nodes[0].id == id {
        forall n | n in nodes[1..] ensures n.id != id {
          var i :| 0 <= i < |nodes[1..]| && nodes[1..][i] == n;
          assert n == nodes[i + 1];
        }
        NotExpired(nodes[1..], id, now);
        NothingWithout(Expired(nodes[1..], now), {id});
      } else {
        EraseExpired(nodes[1..], id, now);
        assert Erase(nodes, id) == [nodes[0]] + Erase(nodes[1..], id);
      }
    }
  }

  lemma {:induction false} NotExpired(nodes: seq<Node>, id: Id, now: int)
    requires !HasId(nodes, id)
    ensures id !in Expired(nodes, now)
  {
    if nodes != [] {
      assert nodes[0] in nodes;
      assert forall n :: n in nodes[1..] ==> n in nodes;
      NotExpired(nodes[1..], id, now);
    }
  }

  lemma {:induction false} NothingWithout(ids: seq<Id>, gone: set<Id>)
    requires forall id :: id in ids ==> id !in gone
    ensures Without(ids, gone) == ids
  {
    if ids != [] {
      NothingWithout(ids[1..], gone);
    }
  }

  lemma {:induction false} WithoutTwice(ids: seq<Id>, a: set<Id>, b: set<Id>)
    ensures Without(Without(ids, a), b) == Without(ids, a + b)
  {
    if ids != [] {
      WithoutTwice(ids[1..], a, b);
      assert ids[0] !in a ==> Without(ids, a)[1..] == Without(ids[1..], a);
    }
  }

  // ---------------------------------------------------------------- callbacks

  /** What running a callback, however it is made, does to the rest of the world. */
  ghost predicate Ran(s: State, s': State, active: set<Id>) {
    && s'.now == s.now
    && |s.calls| <= |s'.calls| && s'.calls[..|s.calls|] == s.calls
    && (forall c :: c in s'.calls[|s.calls|..] ==> c.cancelled)
    && (forall n :: n in s.nodes && n.id in active ==> n in s'.nodes)
    && Expired(s'.nodes, s.now) == Without(Expired(s.nodes, s.now), CancelledIn(s'.calls[|s.calls|..]))
  }

  lemma RanNothing(s: State, active: set<Id>)
    ensures Ran(s, s, active)
  {
    NothingWithout(Expired(s.nodes, s.now), {});
    assert s.calls[|s.calls|..] == [];
    assert CancelledIn(s.calls[|s.calls|..]) == {};
  }

  lemma RanTrans(s: State, t: State, u: State, active: set<Id>)
    requires Ran(s, t, active) && Ran(t, u, active)
    ensures Ran(s, u, active)
  {
    hide Expired, Without;
    var m, n := |s.calls|, |t.calls|;
    assert u.calls[m..] == t.calls[m..] + u.calls[n..] by {
      assert u.calls == t.calls + u.calls[n..];
    }
    assert CancelledIn(u.calls[m..]) == CancelledIn(t.calls[m..]) + CancelledIn(u.calls[n..]);
    WithoutTwice(Expired(s.nodes, s.now), CancelledIn(t.calls[m..]), CancelledIn(u.calls[n..]));
    assert u.calls[..m] == u.calls[..n][..m];
  }

  lemma StartCoupled(s: State, s': State, n: Node, interval: nat)
    requires Coupled(s.nodes, s.owned) && s' == StartTimer(s, n.owner, n.id, interval)
    requires forall m :: m in s'.nodes <==> m in s.nodes || m == n
    ensures Coupled(s'.nodes, s'.owned)
  {
    hide Insert;
    forall a, i | i in Owned(s'.owned, a) ensures exists m :: m in s'.nodes && m.id == i && m.owner == a {
      if a == n.owner && i == n.id {
        assert n in s'.nodes;
      } else {
        assert i in Owned(s.owned, a);
      }
    }
  }

  lemma StartKeeps(s: State, owner: Actor, id: Id, interval: nat, active: set<Id>)
    requires Inv(s, active) && id !in s.started
    ensures Inv(StartTimer(s, owner, id, interval), active)
    ensures Ran(s, StartTimer(s, owner, id, interval), active)
  {
    hide Coupled;
    var s' := StartTimer(s, owner, id, interval);
    var n := Node(id, owner, s.now + interval, |s.started|);
    forall m | m in s.nodes ensures m.id != id {
      assert s.started[m.serial] == m.id;
    }
    InsertKeeps(s.nodes, n);
    InsertExpired(s.nodes, n, s.now);
    RanNothing(s, active);
    assert s'.calls[|s.calls|..] == [];
    StartCalledOnce(s, s', n, active);
    StartCoupled(s, s', n, interval);
  }

  lemma StartCalledOnce(s: State, s': State, n: Node, active: set<Id>)
    requires CalledOnce(s, active) && s'.calls == s.calls && s'.started == s.started + [n.id]
    requires n.id !in s.started
    requires forall m :: m in s'.nodes <==> m in s.nodes || m == n
    ensures CalledOnce(s', active)
  {
    assert forall id :: HasId(s'.nodes, id) <==> HasId(s.nodes, id) || id == n.id by {
      forall id | HasId(s.nodes, id) || id == n.id ensures HasId(s'.nodes, id) {
        assert id == n.id ==> n in s'.nodes;
      }
    }
    assert forall id :: Called(s', id) <==> Called(s, id);
  }

  /** Once its callback has returned, a timer leaves the actor's map and the list. */
  function Forget(s: State, owner: Actor, id: Id): State {
    s.(owned := s.owned[owner := Owned(s.owned, owner) - {id}], nodes := Erase(s.nodes, id))
  }

  function Logged(s: State, id: Id, cancelled: bool): State {
    s.(calls := s.calls + [Call(id, cancelled)])
  }

  lemma LoggedKeeps(s: State, n: Node, cancelled: bool, active: set<Id>)
    requires Inv(s, active) && n in s.nodes && n.id !in active
    ensures Inv(Logged(s, n.id, cancelled), active + {n.id})
  {
    var s' := Logged(s, n.id, cancelled);
    assert HasId(s.nodes, n.id) && !Called(s, n.id);
    forall i, j | 0 <= i < j < |s'.calls| ensures s'.calls[i].id != s'.calls[j].id {
      assert j == |s.calls| ==> s.calls[i] in s.calls;
    }
    forall id ensures Called(s', id) <==> Called(s, id) || id == n.id {
      if Called(s, id) {
        var c :| c in s.calls && c.id == id;
        assert c in s'.calls;
      }
      if id == n.id {
        assert Call(id, cancelled) in s'.calls;
      }
    }
  }

  lemma ForgetKeeps(s: State, n: Node, active: set<Id>)
    requires Inv(s, active + {n.id}) && n in s.nodes && n.id !in active
    ensures Inv(Forget(s, n.owner, n.id), active)
  {
    var s' := Forget(s, n.owner, n.id);
    EraseKeeps(s.nodes, n.id);
    assert HasId(s.nodes, n.id);
    forall id ensures HasId(s'.nodes, id) <==> HasId(s.nodes, id) && id != n.id {
      if HasId(s.nodes, id) && id != n.id {
        var m :| m in s.nodes && m.id == id;
        assert m in s'.nodes;
      }
    }
    assert forall id :: Called(s', id) <==> Called(s, id);
    ForgetCoupled(s, n);
  }

  lemma SameId(nodes: seq<Node>, m: Node, n: Node)
    requires Distinct(nodes) && m in nodes && n in nodes && m.id == n.id
    ensures m == n
  {}

  lemma ForgetCoupled(s: State, n: Node)
    requires Coupled(s.nodes, s.owned) && Sorted(s.nodes) && Distinct(s.nodes) && n in s.nodes
    ensures var s' := Forget(s, n.owner, n.id); Coupled(s'.nodes, s'.owned)
  {
    var s' := Forget(s, n.owner, n.id);
    EraseKeeps(s.nodes, n.id);
    forall a, id | id in Owned(s'.owned, a) ensures exists m :: m in s'.nodes && m.id == id && m.owner == a {
      assert id in Owned(s.owned, a);
      var m :| m in s.nodes && m.id == id && m.owner == a;
      if id == n.id {
        SameId(s.nodes, m, n);
      }
      assert m in s'.nodes;
    }
  }

  lemma FindIn(nodes: seq<Node>, id: Id)
    ensures Find(nodes, id) < |nodes| ==> nodes[Find(nodes, id)] in nodes
  {}

  /** Whatever a callback does, the invariant holds and timers under way stay in place. */
  lemma {:induction false} ExecKeeps(s: State, script: Script, active: set<Id>)
    requires Inv(s, active)
    ensures Inv(Exec(s, script, active), active) && Ran(s, Exec(s, script, active), active)
    decreases script, 0
  {
    match script
    case Done => RanNothing(s, active);
    case Begin(owner, id, interval, rest) =>
      var s1 := if id in s.started then s else StartTimer(s, owner, id, interval);
      if id in s.started {
        RanNothing(s, active);
      } else {
        StartKeeps(s, owner, id, interval, active);
      }
      ExecKeeps(s1, rest, active);
      RanTrans(s, s1, Exec(s1, rest, active), active);
    case Stop(id, nested, rest) =>
      var s1 := if id in active then s else CancelTimer(s, id, nested, active);
      if id in active {
        RanNothing(s, active);
      } else {
        CancelKeeps(s, id, nested, active);
      }
      ExecKeeps(s1, rest, active);
      RanTrans(s, s1, Exec(s1, rest, active), active);
  }

  lemma {:induction false} CancelKeeps(s: State, id: Id, nested: Script, active: set<Id>)
    requires Inv(s, active) && id !in active
    ensures Inv(CancelTimer(s, id, nested, active), active)
    ensures Ran(s, CancelTimer(s, id, nested, active), active)
    decreases nested, 1
  {
    var k := Find(s.nodes, id);
    if k == |s.nodes| {
      RanNothing(s, active);
    } else {
      var n := s.nodes[k];
      FindIn(s.nodes, id);
      LoggedKeeps(s, n, true, active);
      var s0 := Logged(s, id, true);
      ExecKeeps(s0, nested, active + {id});
      var s1 := Exec(s0, nested, active + {id});
      ForgetKeeps(s1, n, active);
      CancelRan(s, s1, n, active);
      assert CancelTimer(s, id, nested, active) == Forget(s1, n.owner, id);
    }
  }

  lemma CancelledFirst(c: Call, calls: seq<Call>)
    requires c.cancelled
    ensures CancelledIn([c] + calls) == CancelledIn(calls) + {c.id}
  {}

  lemma CancelRan(s: State, s1: State, n: Node, active: set<Id>)
    requires Inv(s1, active + {n.id}) && n.id !in active
    requires Ran(Logged(s, n.id, true), s1, active + {n.id})
    ensures Ran(s, Forget(s1, n.owner, n.id), active)
  {
    hide CancelledIn, Without, Expired;
    var m := |s.calls|;
    var news := s1.calls[m + 1..];
    EraseKeeps(s1.nodes, n.id);
    assert s1.calls[m] == Call(n.id, true) by {
      assert s1.calls[..m + 1][m] == Call(n.id, true);
    }
    assert s1.calls[..m] == s1.calls[..m + 1][..m];
    assert s1.calls[m..] == [Call(n.id, true)] + news;
    CancelledFirst(Call(n.id, true), news);
    EraseExpired(s1.nodes, n.id, s.now);
    WithoutTwice(Expired(s.nodes, s.now), CancelledIn(news), {n.id});
  }

  // ---------------------------------------------------------------- a pass over expired timers

  function FiredIn(calls: seq<Call>): seq<Id> {
    if calls == [] then []
    else if calls[0].cancelled then FiredIn(calls[1..])
    else [calls[0].id] + FiredIn(calls[1..])
  }

  /** One round of the loop: the first node fires and is erased. */
  function Fire(s: State, behave: Behaviour): State
    requires s.nodes != []
  {
    var n := s.nodes[0];
    var s1 := Trigger(s, n.owner, n.id, false, behave(s, n.id), {n.id});
    s1.(nodes := Erase(s1.nodes, n.id))
  }

  lemma FireIsForget(s: State, behave: Behaviour)
    requires Inv(s, {}) && s.nodes != []
    ensures var n := s.nodes[0];
            Fire(s, behave) == Forget(Exec(Logged(s, n.id, false), behave(s, n.id), {n.id}), n.owner, n.id)
  {
    hide Exec, Erase;
    var n := s.nodes[0];
    assert HasId(s.nodes, n.id);
    assert n.id in Owned(s.owned, n.owner);
  }

  /** Besides the fired timer, exactly what its callback has cancelled is no longer due. */
  lemma FireExpires(s: State, n: Node, s1: State, m: nat)
    requires s.nodes != [] && n == s.nodes[0] && n.deadline < s.now && Distinct(s.nodes) && Distinct(s1.nodes)
    requires |s1.calls| > m && s1.calls[m] == Call(n.id, false)
    requires forall i, j :: 0 <= i < j < |s1.calls| ==> s1.calls[i].id != s1.calls[j].id
    requires Expired(s1.nodes, s.now) == Without(Expired(s.nodes, s.now), CancelledIn(s1.calls[m + 1..]))
    ensures Expired(s.nodes, s.now) == [n.id] + Expired(s.nodes[1..], s.now)
    ensures Expired(Erase(s1.nodes, n.id), s.now) ==
            Without(Expired(s.nodes[1..], s.now), CancelledIn(s1.calls[m + 1..]))
  {
    hide Without, Erase;
    var news := s1.calls[m + 1..];
    forall c | c in news ensures c.id != n.id {
      var i :| 0 <= i < |news| && news[i] == c;
      assert s1.calls[m + 1 + i] == c && s1.calls[m] == Call(n.id, false);
    }
    EraseExpired(s1.nodes, n.id, s.now);
    TailWithout(s.nodes, s.now, CancelledIn(news));
  }

  lemma FireKeeps(s: State, behave: Behaviour)
    requires Inv(s, {}) && s.nodes != [] && s.nodes[0].deadline < s.now
    ensures var s', n, m := Fire(s, behave), s.nodes[0], |s.calls|;
            && Inv(s', {}) && s'.now == s.now
            && |s'.calls| > m && s'.calls[..m] == s.calls && s'.calls[m] == Call(n.id, false)
            && (forall c :: c in s'.calls[m + 1..] ==> c.cancelled)
            && Expired(s.nodes, s.now) == [n.id] + Expired(s.nodes[1..], s.now)
            && Expired(s'.nodes, s.now) == Without(Expired(s.nodes[1..], s.now), CancelledIn(s'.calls[m + 1..]))
  {
    hide Exec, Fire, Expired, Without, Erase, CancelledIn, WellNumbered, Coupled;
    var n, m := s.nodes[0], |s.calls|;
    LoggedKeeps(s, n, false, {});
    var s0 := Logged(s, n.id, false);
    assert {} + {n.id} == {n.id};
    ExecKeeps(s0, behave(s, n.id), {n.id});
    var s1 := Exec(s0, behave(s, n.id), {n.id});
    assert n in s1.nodes;
    ForgetKeeps(s1, n, {});
    FireIsForget(s, behave);
    assert s1.calls[..m] == s1.calls[..m + 1][..m];
    FireExpires(s, n, s1, m);
  }

  lemma TailWithout(nodes: seq<Node>, now: int, gone: set<Id>)
    requires nodes != [] && Distinct(nodes) && nodes[0].id !in gone && nodes[0].deadline < now
    ensures Without(Without(Expired(nodes, now), gone), {nodes[0].id}) == Without(Expired(nodes[1..], now), gone)
  {
    var id, tail := nodes[0].id, Expired(nodes[1..], now);
    forall n | n in nodes[1..] ensures n.id != id {
      var i :| 0 <= i < |nodes[1..]| && nodes[1..][i] == n;
      assert n == nodes[i + 1];
    }
    NotExpired(nodes[1..], id, now);
    WithoutTwice(Expired(nodes, now), gone, {id});
    WithoutTwice(Expired(nodes, now), {id}, gone);
    assert gone + {id} == {id} + gone;
    NothingWithout(tail, {id});
    assert ([id] + tail)[1..] == tail;
  }

  lemma {:induction false} WithoutShorter(ids: seq<Id>, gone: set<Id>)
    ensures |Without(ids, gone)| <= |ids|
  {
    if ids != [] {
      WithoutShorter(ids[1..], gone);
    }
  }

  lemma FireShortens(s: State, behave: Behaviour)
    requires Inv(s, {}) && s.nodes != [] && s.nodes[0].deadline < s.now
    ensures |Expired(Fire(s, behave).nodes, s.now)| < |Expired(s.nodes, s.now)|
  {
    FireKeeps(s, behave);
    WithoutShorter(Expired(s.nodes[1..], s.now), CancelledIn(Fire(s, behave).calls[|s.calls| + 1..]));
  }

  /** The loop of `update_time`. It ends, because a callback cannot add an expired timer. */
  function Pass(s: State, behave: Behaviour): State
    requires Inv(s, {})
    decreases |Expired(s.nodes, s.now)|
  {
    if s.nodes == [] || s.nodes[0].deadline >= s.now then s
    else
      FireKeeps(s, behave);
      FireShortens(s, behave);
      Pass(Fire(s, behave), behave)
  }

  function UpdateTime(s: State, clock: int, behave: Behaviour): State
    requires Inv(s, {})
  {
    assert Inv(s.(now := clock), {});
    Pass(s.(now := clock), behave)
  }

  lemma {:induction false} NoneExpired(nodes: seq<Node>, now: int)
    requires forall n :: n in nodes ==> n.deadline >= now
    ensures Expired(nodes, now) == []
  {
    if nodes != [] {
      NoneExpired(nodes[1..], now);
    }
  }

  lemma {:induction false} NoneFired(calls: seq<Call>)
    requires forall c :: c in calls ==> c.cancelled
    ensures FiredIn(calls) == []
  {
    if calls != [] {
      NoneFired(calls[1..]);
    }
  }

  lemma {:induction false} FiredAppend(a: seq<Call>, b: seq<Call>)
    ensures FiredIn(a + b) == FiredIn(a) + FiredIn(b)
  {
    if a == [] {
      assert a + b == b;
    } else {
      assert (a + b)[1..] == a[1..] + b;
      FiredAppend(a[1..], b);
    }
  }

  /** The pass fires exactly the timers that were expired at its start and that no callback
      cancelled meanwhile, in list order, and leaves no expired timer behind. */
  lemma {:induction false} PassFiresExactly(s: State, behave: Behaviour)
    requires Inv(s, {})
    ensures var s' := Pass(s, behave);
            && Inv(s', {}) && s'.now == s.now
            && |s.calls| <= |s'.calls| && s'.calls[..|s.calls|] == s.calls
            && FiredIn(s'.calls[|s.calls|..]) ==
               Without(Expired(s.nodes, s.now), CancelledIn(s'.calls[|s.calls|..]))
            && Expired(s'.nodes, s.now) == []
    decreases |Expired(s.nodes, s.now)|
  {
    var s', m := Pass(s, behave), |s.calls|;
    if s.nodes == [] || s.nodes[0].deadline >= s.now {
      forall n | n in s.nodes ensures n.deadline >= s.now {
        var i :| 0 <= i < |s.nodes| && s.nodes[i] == n;
        assert i > 0 ==> Before(s.nodes[0], s.nodes[i]);
      }
      NoneExpired(s.nodes, s.now);
      assert s.calls[m..] == [];
    } else {
      var s1 := Fire(s, behave);
      FireKeeps(s, behave);
      FireShortens(s, behave);
      PassFiresExactly(s1, behave);
      PassJoins(s, s1, s');
    }
  }

  /** The calls of one round and of the rounds after it. */
  lemma CallsJoin(calls1: seq<Call>, calls': seq<Call>, m: nat)
    requires m < |calls1| <= |calls'| && calls'[..|calls1|] == calls1
    ensures calls'[..m] == calls1[..m]
    ensures calls'[m..] == [calls1[m]] + calls1[m + 1..] + calls'[|calls1|..]
  {
    assert calls' == calls1 + calls'[|calls1|..];
  }

  /** A call that fires, the cancellations of its round, and what follows. */
  lemma FiredJoin(first: Call, round: seq<Call>, after: seq<Call>)
    requires !first.cancelled && forall c :: c in round ==> c.cancelled
    ensures FiredIn([first] + round + after) == [first.id] + FiredIn(after)
    ensures CancelledIn([first] + round + after) == CancelledIn(round) + CancelledIn(after)
  {
    FiredAppend([first] + round, after);
    FiredAppend([first], round);
    NoneFired(round);
    assert FiredIn([first]) == [first.id];
  }

  lemma WithoutStep(id: Id, ids: seq<Id>, gone: set<Id>)
    requires id !in gone
    ensures Without([id] + ids, gone) == [id] + Without(ids, gone)
  {
    assert ([id] + ids)[1..] == ids;
  }

  lemma NotCancelledAfter(calls: seq<Call>, m: nat, id: Id)
    requires m < |calls| && calls[m] == Call(id, false)
    requires forall i, j :: 0 <= i < j < |calls| ==> calls[i].id != calls[j].id
    ensures id !in CancelledIn(calls[m..])
  {
    forall c | c in calls[m..] && c.cancelled ensures c.id != id {
      var i :| 0 <= i < |calls[m..]| && calls[m..][i] == c;
      assert calls[m + i] == c;
    }
  }

  lemma PassJoins(s: State, s1: State, s': State)
    requires Inv(s', {}) && s.nodes != []
    requires var n, m := s.nodes[0], |s.calls|;
             && |s1.calls| > m && s1.calls[..m] == s.calls && s1.calls[m] == Call(n.id, false)
             && (forall c :: c in s1.calls[m + 1..] ==> c.cancelled)
             && Expired(s.nodes, s.now) == [n.id] + Expired(s.nodes[1..], s.now)
             && Expired(s1.nodes, s.now) == Without(Expired(s.nodes[1..], s.now), CancelledIn(s1.calls[m + 1..]))
             && |s1.calls| <= |s'.calls| && s'.calls[..|s1.calls|] == s1.calls
             && FiredIn(s'.calls[|s1.calls|..]) ==
                Without(Expired(s1.nodes, s.now), CancelledIn(s'.calls[|s1.calls|..]))
    ensures s'.calls[..|s.calls|] == s.calls
    ensures FiredIn(s'.calls[|s.calls|..]) ==
            Without(Expired(s.nodes, s.now), CancelledIn(s'.calls[|s.calls|..]))
  {
    hide Sorted, Distinct, WellNumbered, Coupled, Expired, FiredIn, CancelledIn, Without;
    var n, m := s.nodes[0], |s.calls|;
    var round, after := s1.calls[m + 1..], s'.calls[|s1.calls|..];
    CallsJoin(s1.calls, s'.calls, m);
    FiredJoin(Call(n.id, false), round, after);
    var gone := CancelledIn(s'.calls[m..]);
    WithoutTwice(Expired(s.nodes[1..], s.now), CancelledIn(round), CancelledIn(after));
    NotCancelledAfter(s'.calls, m, n.id);
    WithoutStep(n.id, Expired(s.nodes[1..], s.now), gone);
  }

  /** The order in which a pass fires: by deadline, equal deadlines in the order of starting. */
  lemma {:induction false} FiredInOrder(nodes: seq<Node>, now: int, gone: set<Id>, i: nat, j: nat)
    requires Sorted(nodes) && i < j < |Without(Expired(nodes, now), gone)|
    ensures var fired := Without(Expired(nodes, now), gone);
            exists m, n :: m in nodes && n in nodes && m.id == fired[i] && n.id == fired[j] && Before(m, n)
  {
    var fired := Without(Expired(nodes, now), gone);
    var head, tail := nodes[0], nodes[1..];
    assert forall n :: n in tail ==> n in nodes && Before(head, n);
    if head.deadline < now && head.id !in gone {
      assert Expired(nodes, now)[1..] == Expired(tail, now);
      assert fired == [head.id] + Without(Expired(tail, now), gone);
      if i == 0 {
        var n := FiredFrom(tail, now, gone, j - 1);
        assert Before(head, n);
      } else {
        FiredInOrder(tail, now, gone, i - 1, j - 1);
      }
    } else {
      assert head.deadline < now ==> Expired(nodes, now)[1..] == Expired(tail, now);
      FiredInOrder(tail, now, gone, i, j);
    }
  }

  lemma {:induction false} FiredFrom(nodes: seq<Node>, now: int, gone: set<Id>, i: nat) returns (n: Node)
    requires i < |Without(Expired(nodes, now), gone)|
    ensures n in nodes && n.id == Without(Expired(nodes, now), gone)[i] && n.deadline < now
  {
    var head, tail := nodes[0], nodes[1..];
    if head.deadline < now {
      assert Expired(nodes, now)[1..] == Expired(tail, now);
    }
    if head.deadline < now && head.id !in gone && i == 0 {
      n := head;
    } else {
      n := FiredFrom(tail, now, gone, if head.deadline < now && head.id !in gone then i - 1 else i);
    }
  }

  // ---------------------------------------------------------------- runs

  datatype Event =
    | StartAt(owner: Actor, id: Id, interval: nat)
    | CancelAt(id: Id, nested: Script)
    | Tick(clock: int, behave: Behaviour)

  /** Ids are not reused, so starting one again is no event. */
  function Step(s: State, e: Event): (s': State)
    requires Inv(s, {})
    ensures Inv(s', {})
  {
    match e
    case StartAt(owner, id, interval) =>
      if id in s.started then s
      else
        StartKeeps(s, owner, id, interval, {});
        StartTimer(s, owner, id, interval)
    case CancelAt(id, nested) =>
      CancelKeeps(s, id, nested, {});
      CancelTimer(s, id, nested, {})
    case Tick(clock, behave) =>
      PassFiresExactly(s.(now := clock), behave);
      UpdateTime(s, clock, behave)
  }

  function Run(es: seq<Event>): (s: State)
    ensures Inv(s, {})
  {
    if es == [] then EMPTY else Step(Run(es[..|es| - 1]), es[|es| - 1])
  }

  /** In every reachable state a timer that was started either waits, in the list and in its
      actor's map, or had its callback invoked, once, as fired or as cancelled; the list is
      in deadline order. */
  lemma EveryTimerIsCalledOnce(es: seq<Event>, id: Id)
    ensures var s := Run(es);
            && Sorted(s.nodes)
            && (id in s.started <==> HasId(s.nodes, id) || Called(s, id))
            && !(HasId(s.nodes, id) && Called(s, id))
            && (HasId(s.nodes, id) <==> exists a :: id in Owned(s.owned, a))
            && (forall i, j :: 0 <= i < j < |s.calls| ==> !(s.calls[i].id == id && s.calls[j].id == id))
  {
    var s := Run(es);
    if HasId(s.nodes, id) {
      var n :| n in s.nodes && n.id == id;
      assert id in Owned(s.owned, n.owner);
    }
  }

  /** None of the timers that fire in a pass was started during it, and after the pass no
      timer is overdue. */
  lemma TickFiresOnlyOldTimers(es: seq<Event>, clock: int, behave: Behaviour)
    ensures var s, s' := Run(es), Step(Run(es), Tick(clock, behave));
            && |s.calls| <= |s'.calls|
            && (forall id :: id in FiredIn(s'.calls[|s.calls|..]) ==> id in s.started && !Called(s, id))
            && (forall n :: n in s'.nodes ==> n.deadline >= clock)
  {
    hide Run, FiredIn, Expired, Without, CancelledIn;
    var s, s' := Run(es), Step(Run(es), Tick(clock, behave));
    PassFiresExactly(s.(now := clock), behave);
    var gone := CancelledIn(s'.calls[|s.calls|..]);
    var fired := FiredIn(s'.calls[|s.calls|..]);
    forall id | id in fired ensures id in s.started && !Called(s, id) {
      var i :| 0 <= i < |fired| && fired[i] == id;
      var n := FiredFrom(s.nodes, clock, gone, i);
      assert HasId(s.nodes, id);
    }
    AllOnTime(s'.nodes, clock);
  }

  // ---------------------------------------------------------------- when a timer is due

  /** The script begins timer `id` of `owner` with this interval, at whatever depth. */
  predicate Begins(script: Script, owner: Actor, id: Id, interval: int)
    decreases script
  {
    match script
    case Done => false
    case Begin(a, i, d, rest) => (a == owner && i == id && d == interval) || Begins(rest, owner, id, interval)
    case Stop(_, nested, rest) => Begins(nested, owner, id, interval) || Begins(rest, owner, id, interval)
  }

  lemma {:induction false} InsertMembers(nodes: seq<Node>, n: Node, m: Node)
    ensures m in Insert(nodes, n) <==> m in nodes || m == n
  {
    if nodes != [] && n.deadline >= nodes[0].deadline {
      InsertMembers(nodes[1..], n, m);
      assert nodes == [nodes[0]] + nodes[1..];
    }
  }

  lemma {:induction false} EraseMembers(nodes: seq<Node>, id: Id, m: Node)
    requires m in Erase(nodes, id)
    ensures m in nodes
  {
    if nodes[0].id != id && m != nodes[0] {
      EraseMembers(nodes[1..], id, m);
    }
  }

  /** A node has been there before, or its timer is a new one of the script, due its interval
      from now. */
  ghost predicate Dated(s: State, s': State, script: Script, m: Node) {
    && (forall id :: id in s.started ==> id in s'.started)
    && (m in s'.nodes ==>
          m in s.nodes || (m.id !in s.started && Begins(script, m.owner, m.id, m.deadline - s.now)))
  }

  lemma {:induction false} ExecDates(s: State, script: Script, active: set<Id>, m: Node)
    requires Inv(s, active)
    ensures Dated(s, Exec(s, script, active), script, m)
    decreases script, 0
  {
    hide Inv, Insert, Ran;
    match script
    case Done =>
    case Begin(owner, id, interval, rest) =>
      if id in s.started {
        ExecDates(s, rest, active, m);
      } else {
        InsertMembers(s.nodes, Node(id, owner, s.now + interval, |s.started|), m);
        StartKeeps(s, owner, id, interval, active);
        ExecDates(StartTimer(s, owner, id, interval), rest, active, m);
      }
    case Stop(id, nested, rest) =>
      if id in active {
        ExecDates(s, rest, active, m);
      } else {
        CancelDates(s, id, nested, active, m);
        CancelKeeps(s, id, nested, active);
        SameNow(s, CancelTimer(s, id, nested, active), active);
        ExecDates(CancelTimer(s, id, nested, active), rest, active, m);
      }
  }

  lemma SameNow(s: State, s': State, active: set<Id>)
    requires Ran(s, s', active)
    ensures s'.now == s.now
  {}

  lemma {:induction false} CancelDates(s: State, id: Id, nested: Script, active: set<Id>, m: Node)
    requires Inv(s, active) && id !in active
    ensures Dated(s, CancelTimer(s, id, nested, active), nested, m)
    decreases nested, 1
  {
    hide Inv, Exec, CancelTimer;
    if Find(s.nodes, id) < |s.nodes| {
      var n := s.nodes[Find(s.nodes, id)];
      FindIn(s.nodes, id);
      LoggedKeeps(s, n, true, active);
      CancelIsForget(s, n, nested, active);
      ExecDates(Logged(s, id, true), nested, active + {id}, m);
      if m in CancelTimer(s, id, nested, active).nodes {
        EraseMembers(Exec(Logged(s, id, true), nested, active + {id}).nodes, id, m);
      }
    } else {
      CancelUnknown(s, id, nested, active);
    }
  }

  lemma CancelUnknown(s: State, id: Id, nested: Script, active: set<Id>)
    requires Find(s.nodes, id) == |s.nodes|
    ensures CancelTimer(s, id, nested, active) == s
  {}

  lemma CancelIsForget(s: State, n: Node, nested: Script, active: set<Id>)
    requires Inv(s, active) && Find(s.nodes, n.id) < |s.nodes| && n == s.nodes[Find(s.nodes, n.id)]
    ensures CancelTimer(s, n.id, nested, active) ==
            Forget(Exec(Logged(s, n.id, true), nested, active + {n.id}), n.owner, n.id)
  {
    hide Exec, Erase;
    assert n in s.nodes;
    assert n.id in Owned(s.owned, n.owner);
  }

  /** As in `Dated`, for some callback of the behaviour. */
  ghost predicate DatedBy(s: State, s': State, behave: Behaviour, m: Node) {
    && (forall id :: id in s.started ==> id in s'.started)
    && (m in s'.nodes ==>
          m in s.nodes ||
          (m.id !in s.started && exists t, i :: Begins(behave(t, i), m.owner, m.id, m.deadline - s.now)))
  }

  lemma FireDates(s: State, behave: Behaviour, m: Node)
    requires Inv(s, {}) && s.nodes != [] && s.nodes[0].deadline < s.now
    ensures DatedBy(s, Fire(s, behave), behave, m)
  {
    hide Exec, Begins;
    var n := s.nodes[0];
    LoggedKeeps(s, n, false, {});
    assert {} + {n.id} == {n.id};
    FireIsForget(s, behave);
    ExecDates(Logged(s, n.id, false), behave(s, n.id), {n.id}, m);
    if m in Fire(s, behave).nodes {
      EraseMembers(Exec(Logged(s, n.id, false), behave(s, n.id), {n.id}).nodes, n.id, m);
    }
  }

  lemma {:induction false} PassDates(s: State, behave: Behaviour, m: Node)
    requires Inv(s, {})
    ensures DatedBy(s, Pass(s, behave), behave, m)
    decreases |Expired(s.nodes, s.now)|
  {
    hide Inv, Fire, Expired, Begins;
    if s.nodes != [] && s.nodes[0].deadline < s.now {
      FireKeeps(s, behave);
      FireShortens(s, behave);
      FireDates(s, behave, m);
      PassDates(Fire(s, behave), behave, m);
    }
  }

  /** The event starts timer `id` of `owner`, due at `due`. */
  ghost predicate Starts(s: State, e: Event, owner: Actor, id: Id, due: int) {
    match e
    case StartAt(a, i, interval) => a == owner && i == id && due == s.now + interval
    case CancelAt(_, nested) => Begins(nested, owner, id, due - s.now)
    case Tick(clock, behave) => exists t, i :: Begins(behave(t, i), owner, id, due - clock)
  }

  ghost predicate FirstStarted(es: seq<Event>, k: nat, id: Id) {
    k < |es| && id !in Run(es[..k]).started && id in Run(es[..k + 1]).started
  }

  /** Event `k` of the run has started the timer. */
  ghost predicate StartedBy(es: seq<Event>, k: nat, owner: Actor, id: Id, due: int) {
    FirstStarted(es, k, id) && Starts(Run(es[..k]), es[k], owner, id, due)
  }

  lemma NodesAreStarted(s: State, m: Node)
    requires Inv(s, {}) && m in s.nodes
    ensures m.id in s.started
  {
    assert s.started[m.serial] == m.id;
  }

  lemma StepDates(s: State, e: Event, m: Node)
    requires Inv(s, {}) && m in Step(s, e).nodes
    ensures m in s.nodes || (m.id !in s.started && Starts(s, e, m.owner, m.id, m.deadline))
  {
    hide Inv, Exec, Insert, Begins;
    match e
    case StartAt(owner, id, interval) =>
      if id !in s.started { InsertMembers(s.nodes, Node(id, owner, s.now + interval, |s.started|), m); }
    case CancelAt(id, nested) => CancelDates(s, id, nested, {}, m);
    case Tick(clock, behave) =>
      TickKeepsInv(s, clock);
      PassDates(s.(now := clock), behave, m);
  }

  lemma TickKeepsInv(s: State, clock: int)
    requires Inv(s, {})
    ensures Inv(s.(now := clock), {})
  {}

  /** In every run each waiting timer is due its interval after the time at which it was
      started, by an actor, by a callback of a pass or by one that was cancelled. */
  lemma {:induction false} WaitingIsDue(es: seq<Event>, m: Node)
    requires m in Run(es).nodes
    ensures exists k: nat :: StartedBy(es, k, m.owner, m.id, m.deadline)
    decreases |es|
  {
    hide Step, Starts, Inv;
    if es != [] {
      var init := es[..|es| - 1];
      StepDates(Run(init), es[|es| - 1], m);
      if m in Run(init).nodes {
        WaitingIsDue(init, m);
        var k: nat :| StartedBy(init, k, m.owner, m.id, m.deadline);
        assert init[..k] == es[..k] && init[..k + 1] == es[..k + 1];
        assert StartedBy(es, k, m.owner, m.id, m.deadline);
      } else {
        NodesAreStarted(Run(es), m);
        assert es[..|es|] == es;
        assert StartedBy(es, |es| - 1, m.owner, m.id, m.deadline);
      }
    }
  }

  /** The calls of the pass of an event. */
  function NewCalls(s: State, s': State): seq<Call> {
    if |s.calls| <= |s'.calls| then s'.calls[|s.calls|..] else []
  }

  lemma {:induction false} FiredIff(calls: seq<Call>, id: Id)
    ensures id in FiredIn(calls) <==> Call(id, false) in calls
  {
    if calls != [] {
      FiredIff(calls[1..], id);
      assert calls == [calls[0]] + calls[1..];
    }
  }

  lemma {:induction false} ExpiredIff(nodes: seq<Node>, now: int, m: Node)
    requires Distinct(nodes) && m in nodes
    ensures m.id in Expired(nodes, now) <==> m.deadline < now
  {
    if m == nodes[0] {
      forall n | n in nodes[1..] ensures n.id != m.id {
        var i :| 0 <= i < |nodes[1..]| && nodes[1..][i] == n;
        assert n == nodes[i + 1];
      }
      NotExpired(nodes[1..], m.id, now);
    } else {
      var i :| 0 <= i < |nodes| && nodes[i] == m;
      assert nodes[1..][i - 1] == m;
      ExpiredIff(nodes[1..], now, m);
    }
  }

  lemma {:induction false} WithoutIff(ids: seq<Id>, gone: set<Id>, id: Id)
    ensures id in Without(ids, gone) <==> id in ids && id !in gone
  {
    if ids != [] {
      WithoutIff(ids[1..], gone, id);
    }
  }

  /** A waiting timer fires in a pass if and only if its deadline has passed and no callback of
      the pass cancels it. */
  lemma FiresIffDue(es: seq<Event>, clock: int, behave: Behaviour, m: Node)
    requires m in Run(es).nodes
    ensures var news := NewCalls(Run(es), Step(Run(es), Tick(clock, behave)));
            Call(m.id, false) in news <==> m.deadline < clock && m.id !in CancelledIn(news)
  {
    hide Run, Expired, Without, CancelledIn, FiredIn;
    var s, s' := Run(es), Step(Run(es), Tick(clock, behave));
    TickKeepsInv(s, clock);
    PassFiresExactly(s.(now := clock), behave);
    FiredIff(NewCalls(s, s'), m.id);
    ExpiredIff(s.nodes, clock, m);
    WithoutIff(Expired(s.nodes, clock), CancelledIn(NewCalls(s, s')), m.id);
  }

  lemma StartedOnce(es: seq<Event>, k: nat, j: nat, id: Id)
    requires k < j <= |es| && id in Run(es[..k + 1]).started
    ensures id in Run(es[..j]).started
    decreases j
  {
    hide Step;
    if j > k + 1 {
      StartedOnce(es, k, j - 1, id);
      assert es[..j][..j - 1] == es[..j - 1];
      StepStarted(Run(es[..j - 1]), es[j - 1], id);
    }
  }

  lemma StepStarted(s: State, e: Event, id: Id)
    requires Inv(s, {}) && id in s.started
    ensures id in Step(s, e).started
  {
    hide Inv, Exec, Begins;
    var any := Node(id, 0, 0, 0);
    match e
    case StartAt(_, _, _) =>
    case CancelAt(i, nested) => CancelDates(s, i, nested, {}, any);
    case Tick(clock, behave) =>
      TickKeepsInv(s, clock);
      PassDates(s.(now := clock), behave, any);
  }

  lemma StartsNow(es: seq<Event>, owner: Actor, id: Id, d: nat)
    requires id !in Run(es).started
    ensures id in Run(es + [StartAt(owner, id, d)]).started
  {
    hide Inv, Insert;
    assert (es + [StartAt(owner, id, d)])[..|es|] == es;
  }

  /** A timer is started by one event only. */
  lemma SameStart(es: seq<Event>, k: nat, j: nat, id: Id)
    requires FirstStarted(es, k, id) && FirstStarted(es, j, id)
    ensures k == j
  {
    hide Run;
    if k < j { StartedOnce(es, k, j, id); }
    if j < k { StartedOnce(es, j, k, id); }
  }

  lemma StillWaiting(es: seq<Event>, k: nat, id: Id) returns (m: Node)
    requires FirstStarted(es, k, id) && !Called(Run(es), id)
    ensures m in Run(es).nodes && m.id == id && id in Owned(Run(es).owned, m.owner)
  {
    hide Step, Run;
    assert es[..|es|] == es;
    StartedOnce(es, k, |es|, id);
    m :| m in Run(es).nodes && m.id == id;
  }

  /** A timer that an actor starts with interval `d`, and whose callback has not been invoked
      meanwhile, fires in the next pass if and only if the time has come to more than `d` after
      it was started and no callback of the pass cancels it. */
  lemma StartedFiresOnTime(before: seq<Event>, owner: Actor, id: Id, d: nat, after: seq<Event>, clock: int,
      behave: Behaviour)
    requires id !in Run(before).started
    requires !Called(Run(before + [StartAt(owner, id, d)] + after), id)
    ensures var es := before + [StartAt(owner, id, d)] + after;
            var news := NewCalls(Run(es), Step(Run(es), Tick(clock, behave)));
            && id in Owned(Run(es).owned, owner)
            && (Call(id, false) in news <==> Run(before).now + d < clock && id !in CancelledIn(news))
  {
    hide Step, CancelledIn, Run;
    var es, k := before + [StartAt(owner, id, d)] + after, |before|;
    assert es[..k] == before && es[..k + 1] == before + [StartAt(owner, id, d)];
    StartsNow(before, owner, id, d);
    var m := StillWaiting(es, k, id);
    WaitingIsDue(es, m);
    var j: nat :| StartedBy(es, j, m.owner, m.id, m.deadline);
    SameStart(es, k, j, id);
    FiresIffDue(es, clock, behave, m);
  }

  /** The same for a timer that a callback of an earlier pass has started: some callback of that
      pass begins it, with an interval that counts from the time of the pass. */
  lemma BegunFiresOnTime(es: seq<Event>, k: nat, id: Id, clock: int, behave: Behaviour)
      returns (t: State, i: Id, owner: Actor, d: int)
    requires FirstStarted(es, k, id) && es[k].Tick? && !Called(Run(es), id)
    ensures Begins(es[k].behave(t, i), owner, id, d)
    ensures var news := NewCalls(Run(es), Step(Run(es), Tick(clock, behave)));
            && id in Owned(Run(es).owned, owner)
            && (Call(id, false) in news <==> es[k].clock + d < clock && id !in CancelledIn(news))
  {
    hide Step, CancelledIn, Run, Owned, NewCalls, StartedBy;
    var m := StillWaiting(es, k, id);
    FiresIffDue(es, clock, behave, m);
    owner, d := m.owner, m.deadline - es[k].clock;
    t, i := BegunBy(es, k, m);
  }

  lemma BegunBy(es: seq<Event>, k: nat, m: Node) returns (t: State, i: Id)
    requires FirstStarted(es, k, m.id) && es[k].Tick? && m in Run(es).nodes
    ensures Begins(es[k].behave(t, i), m.owner, m.id, m.deadline - es[k].clock)
  {
    hide Step, Run, Begins;
    WaitingIsDue(es, m);
    var j: nat :| StartedBy(es, j, m.owner, m.id, m.deadline);
    SameStart(es, k, j, m.id);
    t, i :| Begins(es[k].behave(t, i), m.owner, m.id, m.deadline - es[k].clock);
  }

  /** What a callback begins is started, for its owner and with its interval from now on, and if it
      still waits when the callback returns it is due then. */
  lemma CallbackBegins(s: State, owner: Actor, id: Id, d: nat, rest: Script, active: set<Id>, m: Node)
    requires Inv(s, active) && id !in s.started
    ensures var s' := Exec(s, Begin(owner, id, d, rest), active);
            id in s'.started && (m in s'.nodes && m.id == id ==> m.owner == owner && m.deadline == s.now + d)
  {
    hide Inv, Insert;
    var s1, n := StartTimer(s, owner, id, d), Node(id, owner, s.now + d, |s.started|);
    StartKeeps(s, owner, id, d, active);
    ExecDates(s1, rest, active, m);
    InsertMembers(s.nodes, n, m);
    InsertMembers(s.nodes, n, n);
    if m in s1.nodes && m.id == id { OnlyNode(s1, active, m, n); }
  }

  lemma OnlyNode(s: State, active: set<Id>, m: Node, n: Node)
    requires Inv(s, active) && m in s.nodes && n in s.nodes && m.id == n.id
    ensures m == n
  {}

  /** The callback of the timer that fires is run, with the timer itself still there. */
  lemma FiredCallbackRuns(s: State, behave: Behaviour, owner: Actor, id: Id, d: nat, rest: Script, m: Node)
    requires Inv(s, {}) && s.nodes != [] && s.nodes[0].deadline < s.now
    requires behave(s, s.nodes[0].id) == Begin(owner, id, d, rest) && id !in s.started
    ensures var s' := Fire(s, behave);
            id in s'.started && (m in s'.nodes && m.id == id ==> m.owner == owner && m.deadline == s.now + d)
  {
    hide Exec, Inv, Erase;
    var n := s.nodes[0];
    FireIsForget(s, behave);
    FirstLogged(s);
    CallbackBegins(Logged(s, n.id, false), owner, id, d, rest, {n.id}, m);
    if m in Fire(s, behave).nodes {
      EraseMembers(Exec(Logged(s, n.id, false), behave(s, n.id), {n.id}).nodes, n.id, m);
    }
  }

  lemma FirstLogged(s: State)
    requires Inv(s, {}) && s.nodes != []
    ensures Inv(Logged(s, s.nodes[0].id, false), {s.nodes[0].id})
  {
    LoggedKeeps(s, s.nodes[0], false, {});
    assert {} + {s.nodes[0].id} == {s.nodes[0].id};
  }

  /** Cancelling a waiting timer calls it as cancelled before anything else, runs its callback and
      takes it off the list and out of the actors' maps; cancelling any other changes nothing. */
  lemma CancelCancels(es: seq<Event>, id: Id, nested: Script)
    ensures var s, s' := Run(es), Step(Run(es), CancelAt(id, nested));
            var news := NewCalls(s, s');
            && !HasId(s'.nodes, id) && (forall a :: id !in Owned(s'.owned, a))
            && (HasId(s.nodes, id) ==> news != [] && news[0] == Call(id, true))
            && (HasId(s.nodes, id) && nested.Begin? && nested.id !in s.started ==> nested.id in s'.started)
            && (!HasId(s.nodes, id) ==> s' == s)
  {
    hide Run;
    var s := Run(es);
    if HasId(s.nodes, id) {
      FindsNode(s.nodes, id);
      CancelledFirstOf(s, s.nodes[Find(s.nodes, id)], nested);
    } else {
      FindIn(s.nodes, id);
      CancelUnknown(s, id, nested, {});
    }
    NotOwned(Step(s, CancelAt(id, nested)), id);
  }

  lemma FindsNode(nodes: seq<Node>, id: Id)
    requires HasId(nodes, id)
    ensures Find(nodes, id) < |nodes|
  {
    var n :| n in nodes && n.id == id;
    var i :| 0 <= i < |nodes| && nodes[i] == n;
  }

  lemma NotOwned(s: State, id: Id)
    requires Inv(s, {}) && !HasId(s.nodes, id)
    ensures forall a :: id !in Owned(s.owned, a)
  {
    hide Sorted, CalledOnce, WellNumbered;
    assert forall a :: id in Owned(s.owned, a) ==> exists n :: n in s.nodes && n.id == id && n.owner == a;
  }

  lemma CancelledFirstOf(s: State, n: Node, nested: Script)
    requires Inv(s, {}) && Find(s.nodes, n.id) < |s.nodes| && n == s.nodes[Find(s.nodes, n.id)]
    ensures var s' := CancelTimer(s, n.id, nested, {});
            && !HasId(s'.nodes, n.id)
            && NewCalls(s, s') != [] && NewCalls(s, s')[0] == Call(n.id, true)
            && (nested.Begin? && nested.id !in s.started ==> nested.id in s'.started)
  {
    hide Exec, Erase, Sorted, WellNumbered, Coupled;
    assert n in s.nodes;
    var s0 := Logged(s, n.id, true);
    LoggedKeeps(s, n, true, {});
    CancelIsForget(s, n, nested, {});
    ExecKeeps(s0, nested, {} + {n.id});
    var s1 := Exec(s0, nested, {} + {n.id});
    assert s1.calls[..|s0.calls|][|s.calls|] == Call(n.id, true);
    EraseKeeps(s1.nodes, n.id);
    if nested.Begin? && nested.id !in s.started {
      CallbackBegins(s0, nested.owner, nested.id, nested.interval, nested.rest, {} + {n.id}, n);
    }
  }

  lemma {:induction false} AllOnTime(nodes: seq<Node>, now: int)
    requires Expired(nodes, now) == []
    ensures forall n :: n in nodes ==> n.deadline >= now
  {
    if nodes != [] {
      AllOnTime(nodes[1..], now);
    }
  }

  // ---------------------------------------------------------------- the clock and the callbacks

  /** The time is that of the last pass: timers and their callbacks do not change it. */
  lemma ClockOfLastTick(s: State, e: Event)
    requires Inv(s, {})
    ensures Step(s, e).now == if e.Tick? then e.clock else s.now
  {
    hide Inv, Pass;
    match e
    case StartAt(_, _, _) =>
    case CancelAt(id, nested) => CancelKeeps(s, id, nested, {});
    case Tick(clock, behave) =>
      TickKeepsInv(s, clock);
      PassFiresExactly(s.(now := clock), behave);
  }

  /** What a callback does first, and then what else it does. */
  function Then(a: Script, b: Script): Script {
    match a
    case Done => b
    case Begin(owner, id, interval, rest) => Begin(owner, id, interval, Then(rest, b))
    case Stop(id, nested, rest) => Stop(id, nested, Then(rest, b))
  }

  /** A callback does all that it has to do, one after the other. */
  lemma {:induction false} CallbackDoesAll(s: State, a: Script, b: Script, active: set<Id>)
    ensures Exec(s, Then(a, b), active) == Exec(Exec(s, a, active), b, active)
    decreases a
  {
    match a
    case Done =>
    case Begin(owner, id, interval, rest) =>
      CallbackDoesAll(if id in s.started then s else StartTimer(s, owner, id, interval), rest, b, active);
    case Stop(id, nested, rest) =>
      CallbackDoesAll(if id in active then s else CancelTimer(s, id, nested, active), rest, b, active);
  }

  // ---------------------------------------------------------------- the object

  lemma {:induction false} InsertAt(nodes: seq<Node>, n: Node, k: nat)
    requires k <= |nodes|
    requires forall i :: 0 <= i < k ==> n.deadline >= nodes[i].deadline
    requires k < |nodes| ==> n.deadline < nodes[k].deadline
    ensures Insert(nodes, n) == nodes[..k] + [n] + nodes[k..]
  {
    if k > 0 {
      InsertAt(nodes[1..], n, k - 1);
      assert nodes[..k] == [nodes[0]] + nodes[1..][..k - 1];
    }
  }

  lemma {:induction false} EraseAt(nodes: seq<Node>, id: Id)
    ensures var k := Find(nodes, id);
            Erase(nodes, id) == if k < |nodes| then nodes[..k] + nodes[k + 1..] else nodes
  {
    if nodes != [] && nodes[0].id != id {
      EraseAt(nodes[1..], id);
      var k := Find(nodes, id);
      assert Find(nodes[1..], id) == k - 1;
      if k < |nodes| {
        HeadSplit(nodes, k);
      } else {
        assert [nodes[0]] + nodes[1..] == nodes;
      }
    }
  }

  lemma HeadSplit(nodes: seq<Node>, k: nat)
    requires 0 < k < |nodes|
    ensures [nodes[0]] + (nodes[1..][..k - 1] + nodes[1..][k..]) == nodes[..k] + nodes[k + 1..]
  {
    assert nodes[..k] == [nodes[0]] + nodes[1..][..k - 1];
    assert nodes[1..][k..] == nodes[k + 1..];
  }

  /** `system_context_thread_t`, with the timer maps of its actors. */
  class SystemContext {
    var now: int
    var nodes: seq<Node>
    var owned: map<Actor, set<Id>>
    var started: seq<Id>
    var calls: seq<Call>

    function Abs(): State
      reads this
    {
      State(now, nodes, owned, started, calls)
    }

    constructor (clock: int)
      ensures Abs() == EMPTY.(now := clock)
    {
      now, nodes, owned, started, calls := clock, [], map[], [], [];
    }

    method Start(owner: Actor, id: Id, interval: nat)
      modifies this
      ensures Abs() == StartTimer(old(Abs()), owner, id, interval)
    {
      var node := Node(id, owner, now + interval, |started|);
      var it := 0;
      while it < |nodes| && node.deadline >= nodes[it].deadline
        invariant it <= |nodes|
        invariant forall i :: 0 <= i < it ==> node.deadline >= nodes[i].deadline
      {
        it := it + 1;
      }
      InsertAt(nodes, node, it);
      nodes := nodes[..it] + [node] + nodes[it..];
      owned := owned[owner := Owned(owned, owner) + {id}];
      started := started + [id];
    }

    method Locate(id: Id) returns (it: nat)
      ensures it == Find(nodes, id)
    {
      it := 0;
      while it < |nodes| && nodes[it].id != id
        invariant it <= |nodes|
        invariant forall i :: 0 <= i < it ==> nodes[i].id != id
      {
        it := it + 1;
      }
    }

    method OnTimerTrigger(owner: Actor, id: Id, cancelled: bool, script: Script, active: set<Id>)
      modifies this
      ensures Abs() == Trigger(old(Abs()), owner, id, cancelled, script, active)
      decreases script, 1
    {
      if id in Owned(owned, owner) {
        calls := calls + [Call(id, cancelled)];
        RunCallback(script, active);
        owned := owned[owner := Owned(owned, owner) - {id}];
      }
    }

    method RunCallback(script: Script, active: set<Id>)
      modifies this
      ensures Abs() == Exec(old(Abs()), script, active)
      decreases script, 0
    {
      match script
      case Done =>
      case Begin(owner, id, interval, rest) =>
        if id !in started {
          Start(owner, id, interval);
        }
        RunCallback(rest, active);
      case Stop(id, nested, rest) =>
        if id !in active {
          Cancel(id, nested, active);
        }
        RunCallback(rest, active);
    }

    method Cancel(id: Id, nested: Script, active: set<Id>)
      modifies this
      ensures Abs() == CancelTimer(old(Abs()), id, nested, active)
      decreases nested, 2
    {
      var it := Locate(id);
      if it < |nodes| {
        OnTimerTrigger(nodes[it].owner, id, true, nested, active + {id});
        it := Locate(id);
        EraseAt(nodes, id);
        if it < |nodes| {
          nodes := nodes[..it] + nodes[it + 1..];
        }
      }
    }

    /** One round: the position in the list follows the node that fires. */
    method FireAt(it: nat, behave: Behaviour) returns (next: nat)
      requires Inv(Abs(), {}) && it == 0 && nodes != [] && nodes[0].deadline < now
      modifies this
      ensures Abs() == Fire(old(Abs()), behave) && next == 0
    {
      ghost var s := Abs();
      var node := nodes[it];
      OnTimerTrigger(node.owner, node.id, false, behave(Abs(), node.id), {node.id});
      FiredStaysFirst(s, behave);
      EraseAt(nodes, node.id);
      next := Locate(node.id);
      nodes := nodes[..next] + nodes[next + 1..];
    }

    method Update(clock: int, behave: Behaviour)
      requires Inv(Abs(), {})
      modifies this
      ensures Abs() == UpdateTime(old(Abs()), clock, behave)
    {
      now := clock;
      ghost var entry := Abs();
      var it := 0;
      while it < |nodes| && nodes[it].deadline < now
        invariant it == 0
        invariant Inv(Abs(), {}) && now == clock
        invariant Pass(Abs(), behave) == Pass(entry, behave)
        decreases |Expired(nodes, clock)|
      {
        FireKeeps(Abs(), behave);
        FireShortens(Abs(), behave);
        it := FireAt(it, behave);
      }
    }
  }

  /** A callback cannot put a node before the one that fires, nor take that one away. */
  lemma FiredStaysFirst(s: State, behave: Behaviour)
    requires Inv(s, {}) && s.nodes != [] && s.nodes[0].deadline < s.now
    ensures var n := s.nodes[0];
            var s1 := Trigger(s, n.owner, n.id, false, behave(s, n.id), {n.id});
            s1.nodes != [] && s1.nodes[0].id == n.id
  {
    hide Exec, WellNumbered, Coupled;
    var n := s.nodes[0];
    LoggedKeeps(s, n, false, {});
    var s0 := Logged(s, n.id, false);
    assert {} + {n.id} == {n.id};
    ExecKeeps(s0, behave(s, n.id), {n.id});
    var s1 := Exec(s0, behave(s, n.id), {n.id});
    assert n in s1.nodes;
    var news := s1.calls[|s0.calls|..];
    forall c | c in news ensures c.id != n.id {
      var i :| 0 <= i < |news| && news[i] == c;
      assert s1.calls[|s0.calls| + i] == c && s1.calls[..|s0.calls|][|s.calls|] == Call(n.id, false);
    }
    assert Expired(s1.nodes, s.now)[0] == n.id;
    FirstIsEarliest(s1.nodes, n);
  }

  lemma FirstIsEarliest(nodes: seq<Node>, n: Node)
    requires Sorted(nodes) && n in nodes
    ensures nodes[0].deadline <= n.deadline
  {
    var i :| 0 <= i < |nodes| && nodes[i] == n;
    assert i > 0 ==> Before(nodes[0], n);
  }
}
