/** The name registry: `registry_t` as an object, the functions its handlers compute, and
    what holds after any sequence of messages. */
module Registry {
  import opened Sets

  type Addr = int
  type Name = string

  /** A request as the registry sees it; `id` and `origin` name it in a cancellation. */
  datatype Promise = Promise(id: nat, origin: Addr, name: Name)

  datatype Reply =
    | Registered(name: Name)
    | AlreadyRegistered(name: Name)
    | Found(name: Name, addr: Addr)
    | Unknown(name: Name)
    | Future(promise: Promise, addr: Addr)
    | Cancelled(promise: Promise)

  datatype Message =
    | Register(name: Name, addr: Addr)
    | DeregisterAddress(addr: Addr)
    | DeregisterName(name: Name)
    | Discover(name: Name)
    | Await(promise: Promise)
    | Cancel(id: nat, source: Addr)

  datatype State = State(
    names: map<Name, Addr>,          // registered_map
    owned: map<Addr, set<Name>>,     // revese_map
    promises: seq<Promise>,
    replies: seq<Reply>)

  const EMPTY := State(map[], map[], [], [])

  /** Position of the first promise for `name`, or the length of the list. */
  function FirstFor(promises: seq<Promise>, name: Name): (k: nat)
    ensures k <= |promises|
    ensures k < |promises| ==> promises[k].name == name
    ensures forall i :: 0 <= i < k ==> promises[i].name != name
  {
    if promises == [] || promises[0].name == name then 0 else 1 + FirstFor(promises[1..], name)
  }

  /** Position of the last promise with this id and origin, or -1. */
  function LastMatch(promises: seq<Promise>, id: nat, source: Addr): (k: int)
    ensures -1 <= k < |promises|
    ensures k >= 0 ==> promises[k].id == id && promises[k].origin == source
    ensures forall i :: k < i < |promises| ==> !(promises[i].id == id && promises[i].origin == source)
  {
    if promises == [] then -1
    else
      var n := |promises| - 1;
      if promises[n].id == id && promises[n].origin == source then n
      else LastMatch(promises[..n], id, source)
  }

  function Futures(promises: seq<Promise>, addr: Addr): (r: seq<Reply>)
    ensures |r| == |promises|
    ensures forall i :: 0 <= i < |r| ==> r[i] == Future(promises[i], addr)
  {
    seq(|promises|, i requires 0 <= i < |promises| => Future(promises[i], addr))
  }

  function OnReg(s: State, name: Name, addr: Addr): State {
    if name in s.names then s.(replies := s.replies + [AlreadyRegistered(name)])
    else
      var k := FirstFor(s.promises, name);
      State(s.names[name := addr],
            s.owned[addr := (if addr in s.owned then s.owned[addr] else {}) + {name}],
            s.promises[..k],
            s.replies + [Registered(name)] + Futures(s.promises[k..], addr))
  }

  /** The promises for other names, in order: what a registration means to keep. */
  function Others(promises: seq<Promise>, name: Name): seq<Promise> {
    if promises == [] then []
    else (if promises[0].name == name then [] else [promises[0]]) + Others(promises[1..], name)
  }

  /** The promises for the name, in order: what a registration means to answer. */
  function Matching(promises: seq<Promise>, name: Name): seq<Promise> {
    if promises == [] then []
    else (if promises[0].name == name then [promises[0]] else []) + Matching(promises[1..], name)
  }

  /** A registration as it is meant: the loop searches for the name again from where it is. */
  function OnRegMeant(s: State, name: Name, addr: Addr): State {
    if name in s.names then s.(replies := s.replies + [AlreadyRegistered(name)])
    else
      State(s.names[name := addr],
            s.owned[addr := (if addr in s.owned then s.owned[addr] else {}) + {name}],
            Others(s.promises, name),
            s.replies + [Registered(name)] + Futures(Matching(s.promises, name), addr))
  }

  function OnDereg(s: State, addr: Addr): State {
    if addr in s.owned then s.(names := s.names - s.owned[addr], owned := s.owned - {addr}) else s
  }

  function OnDeregService(s: State, name: Name): State {
    if name !in s.names then s
    else if s.names[name] !in s.owned then s  // `at` would throw here
    else
      var addr := s.names[name];
      s.(names := s.names - {name}, owned := s.owned[addr := s.owned[addr] - {name}])
  }

  function OnDiscovery(s: State, name: Name): State {
    s.(replies := s.replies + [if name in s.names then Found(name, s.names[name]) else Unknown(name)])
  }

  function OnPromise(s: State, p: Promise): State {
    if p.name in s.names then s.(replies := s.replies + [Future(p, s.names[p.name])])
    else s.(promises := s.promises + [p])
  }

  function OnCancel(s: State, id: nat, source: Addr): State {
    var k := LastMatch(s.promises, id, source);
    if k < 0 then s
    else s.(promises := s.promises[..k] + s.promises[k + 1..], replies := s.replies + [Cancelled(s.promises[k])])
  }

  function Step(s: State, m: Message): State {
    match m
    case Register(name, addr) => OnReg(s, name, addr)
    case DeregisterAddress(addr) => OnDereg(s, addr)
    case DeregisterName(name) => OnDeregService(s, name)
    case Discover(name) => OnDiscovery(s, name)
    case Await(p) => OnPromise(s, p)
    case Cancel(id, source) => OnCancel(s, id, source)
  }

  function Run(ms: seq<Message>): State {
    if ms == [] then EMPTY else Step(Run(ms[..|ms| - 1]), ms[|ms| - 1])
  }

  /** The loop that searches again has dealt with the first `seen` promises and stands at `it`. */
  ghost predicate HalfNamed(was: seq<Promise>, sent: seq<Reply>, promises: seq<Promise>, replies: seq<Reply>,
      it: nat, seen: nat, name: Name, addr: Addr)
  {
    && it <= |promises| && seen <= |was|
    && promises[..it] == Others(was[..seen], name) && promises[it..] == was[seen..]
    && replies == sent + Futures(Matching(was[..seen], name), addr)
  }

  lemma NamedStep(was: seq<Promise>, sent: seq<Reply>, promises: seq<Promise>, replies: seq<Reply>,
      it: nat, seen: nat, name: Name, addr: Addr, next: nat)
    requires HalfNamed(was, sent, promises, replies, it, seen, name, addr)
    requires it < |promises| && promises[it].name == name && it <= next < |promises|
    requires forall i :: it < i <= next ==> promises[i].name != name
    ensures seen + 1 + next - it <= |was|
    ensures HalfNamed(was, sent, promises[..it] + promises[it + 1..], replies + [Future(promises[it], addr)],
              next, seen + 1 + next - it, name, addr)
  {
    hide Others, Matching;
    var passed := promises[it + 1..next + 1];
    assert promises[it..][0] == was[seen..][0];
    assert promises[it..][1..] == was[seen..][1..];
    assert passed == promises[it..][1..][..next - it] && passed == was[seen + 1..][..next - it];
    assert was[..seen + 1 + next - it] == was[..seen] + [was[seen]] + passed;
    assert forall i :: 0 <= i < |passed| ==> passed[i] == promises[it + 1 + i];
    OneMoreNamed(was[..seen], was[seen], passed, name);
    var left := promises[..it] + promises[it + 1..];
    assert left[..next] == promises[..it] + passed;
    assert left[next..] == promises[it..][1..][next - it..];
    FuturesMore(Matching(was[..seen], name), was[seen], addr);
  }

  lemma FuturesMore(promises: seq<Promise>, p: Promise, addr: Addr)
    ensures Futures(promises + [p], addr) == Futures(promises, addr) + [Future(p, addr)]
  {}

  // ---------------------------------------------------------------- the object

  class Registry {
    var registeredMap: map<Name, Addr>
    var reverseMap: map<Addr, set<Name>>
    var promises: seq<Promise>
    var replies: seq<Reply>

    ghost function Abs(): State
      reads this
    {
      State(registeredMap, reverseMap, promises, replies)
    }

    constructor ()
      ensures Abs() == EMPTY
    {
      registeredMap, reverseMap, promises, replies := map[], map[], [], [];
    }

    method Register(name: Name, addr: Addr)
      modifies this
      ensures Abs() == OnReg(old(Abs()), name, addr)
    {
      if name in registeredMap {
        replies := replies + [AlreadyRegistered(name)];
        return;
      }
      registeredMap := registeredMap[name := addr];
      var names := if addr in reverseMap then reverseMap[addr] else {};
      reverseMap := reverseMap[addr := names + {name}];
      replies := replies + [Registered(name)];

      var it := 0;
      while it < |promises| && promises[it].name != name
        invariant it <= |promises|
        invariant forall i :: 0 <= i < it ==> promises[i].name != name
      {
        it := it + 1;
      }
      AnswerFrom(it, addr);
    }

    /** The erase loop of `on_reg`: it does not look for the name again. */
    method AnswerFrom(it: nat, addr: Addr)
      requires it <= |promises|
      modifies this`promises, this`replies
      ensures promises == old(promises)[..it]
      ensures replies == old(replies) + Futures(old(promises)[it..], addr)
    {
      ghost var was, sent := promises, replies;
      ghost var answered := 0;
      while it < |promises|
        invariant 0 <= answered <= |was| - it
        invariant promises == was[..it] + was[it + answered..]
        invariant replies == sent + Futures(was[it..it + answered], addr)
        decreases |promises|
      {
        replies := replies + [Future(promises[it], addr)];
        promises := promises[..it] + promises[it + 1..];
        assert was[it..it + answered + 1] == was[it..it + answered] + [was[it + answered]];
        answered := answered + 1;
      }
      assert was[it..it + answered] == was[it..];
    }

    method FindNamed(from: nat, name: Name) returns (it: nat)
      requires from <= |promises|
      ensures from <= it <= |promises|
      ensures forall i :: from <= i < it ==> promises[i].name != name
      ensures it < |promises| ==> promises[it].name == name
    {
      it := from;
      while it < |promises| && promises[it].name != name
        invariant from <= it <= |promises|
        invariant forall i :: from <= i < it ==> promises[i].name != name
      {
        it := it + 1;
      }
    }

    /** The loop of `on_reg` as it is meant, not as it is written: after each match it searches
        again. It answers just the promises for the name and keeps the others, both in order. */
    method AnswerNamed(name: Name, addr: Addr)
      modifies this`promises, this`replies
      ensures promises == Others(old(promises), name)
      ensures replies == old(replies) + Futures(Matching(old(promises), name), addr)
    {
      hide Others, Matching;
      ghost var was, sent := promises, replies;
      var it := FindNamed(0, name);
      ghost var seen: nat := it;
      Unmatched(was[..it], name);
      while it < |promises|
        invariant it <= |promises| && seen <= |was|
        invariant HalfNamed(was, sent, promises, replies, it, seen, name, addr)
        invariant it < |promises| ==> promises[it].name == name
        decreases |was| - seen
      {
        ghost var before, said := promises, replies;
        replies := replies + [Future(promises[it], addr)];
        promises := promises[..it] + promises[it + 1..];
        var next := FindNamed(it, name);
        assert forall i :: it < i <= next ==> before[i] == promises[i - 1];
        NamedStep(was, sent, before, said, it, seen, name, addr, next);
        seen := seen + 1 + next - it;
        it := next;
      }
      assert was[..seen] == was && promises[..it] == promises;
    }

    method Deregister(addr: Addr)
      modifies this
      ensures Abs() == OnDereg(old(Abs()), addr)
    {
      if addr in reverseMap {
        var todo := reverseMap[addr];
        while todo != {}
          invariant todo <= reverseMap[addr]
          invariant registeredMap == old(registeredMap) - (reverseMap[addr] - todo)
          decreases todo
          modifies this`registeredMap
        {
          ghost var some := Member(todo);
          var name :| name in todo;
          registeredMap := registeredMap - {name};
          todo := todo - {name};
        }
        assert reverseMap[addr] - {} == reverseMap[addr];
        reverseMap := reverseMap - {addr};
      }
    }

    method DeregisterService(name: Name)
      requires name in registeredMap ==> registeredMap[name] in reverseMap
      modifies this
      ensures Abs() == OnDeregService(old(Abs()), name)
    {
      if name in registeredMap {
        var addr := registeredMap[name];
        reverseMap := reverseMap[addr := reverseMap[addr] - {name}];
        registeredMap := registeredMap - {name};
      }
    }

    method Discover(name: Name)
      modifies this
      ensures Abs() == OnDiscovery(old(Abs()), name)
    {
      if name in registeredMap {
        replies := replies + [Found(name, registeredMap[name])];
      } else {
        replies := replies + [Unknown(name)];
      }
    }

    method Await(p: Promise)
      modifies this
      ensures Abs() == OnPromise(old(Abs()), p)
    {
      if p.name in registeredMap {
        replies := replies + [Future(p, registeredMap[p.name])];
        return;
      }
      promises := promises + [p];
    }

    method Cancel(id: nat, source: Addr)
      modifies this
      ensures Abs() == OnCancel(old(Abs()), id, source)
    {
      var it := |promises|;
      while it > 0 && !(promises[it - 1].id == id && promises[it - 1].origin == source)
        invariant 0 <= it <= |promises|
        invariant forall i :: it <= i < |promises| ==> !(promises[i].id == id && promises[i].origin == source)
      {
        it := it - 1;
      }
      if it > 0 {
        replies := replies + [Cancelled(promises[it - 1])];
        promises := promises[..it - 1] + promises[it..];
      }
    }
  }

  lemma TailConcat(a: seq<Promise>, b: seq<Promise>)
    requires a != []
    ensures a + b != [] && (a + b)[0] == a[0] && (a + b)[1..] == a[1..] + b
  {}

  lemma Associates(a: seq<Promise>, b: seq<Promise>, c: seq<Promise>)
    ensures a + (b + c) == (a + b) + c
  {}

  lemma {:induction false} OthersConcat(a: seq<Promise>, b: seq<Promise>, name: Name)
    ensures Others(a + b, name) == Others(a, name) + Others(b, name)
  {
    if a == [] {
      assert a + b == b;
    } else {
      TailConcat(a, b);
      OthersConcat(a[1..], b, name);
      Associates(if a[0].name == name then [] else [a[0]], Others(a[1..], name), Others(b, name));
    }
  }

  lemma {:induction false} MatchingConcat(a: seq<Promise>, b: seq<Promise>, name: Name)
    ensures Matching(a + b, name) == Matching(a, name) + Matching(b, name)
  {
    if a == [] {
      assert a + b == b;
    } else {
      TailConcat(a, b);
      MatchingConcat(a[1..], b, name);
      Associates(if a[0].name == name then [a[0]] else [], Matching(a[1..], name), Matching(b, name));
    }
  }

  lemma SplitConcat(a: seq<Promise>, b: seq<Promise>, name: Name)
    ensures Others(a + b, name) == Others(a, name) + Others(b, name)
    ensures Matching(a + b, name) == Matching(a, name) + Matching(b, name)
  {
    hide Others, Matching;
    OthersConcat(a, b, name);
    MatchingConcat(a, b, name);
  }

  lemma {:induction false} Unmatched(a: seq<Promise>, name: Name)
    requires forall i :: 0 <= i < |a| ==> a[i].name != name
    ensures Others(a, name) == a && Matching(a, name) == []
  {
    if a != [] {
      Unmatched(a[1..], name);
    }
  }

  lemma OneMoreNamed(a: seq<Promise>, p: Promise, b: seq<Promise>, name: Name)
    requires p.name == name && forall i :: 0 <= i < |b| ==> b[i].name != name
    ensures Others(a + [p] + b, name) == Others(a, name) + b
    ensures Matching(a + [p] + b, name) == Matching(a, name) + [p]
  {
    hide Others, Matching;
    SplitConcat(a + [p], b, name);
    assert Others(a + [p], name) == Others(a, name) && Matching(a + [p], name) == Matching(a, name) + [p] by {
      SplitConcat(a, [p], name);
      OneNamed(p);
    }
    Unmatched(b, name);
  }

  lemma OneNamed(p: Promise)
    ensures Others([p], p.name) == [] && Matching([p], p.name) == [p]
  {
    assert [p][1..] == [];
  }

  // ---------------------------------------------------------------- invariants of every run

  /** The two maps are mirrors of each other. */
  ghost predicate Mirror(s: State) {
    && (forall n :: n in s.names ==> s.names[n] in s.owned && n in s.owned[s.names[n]])
    && (forall a, n :: a in s.owned && n in s.owned[a] ==> n in s.names && s.names[n] == a)
  }

  /** Whoever waits, waits for a name that is not registered. */
  ghost predicate NoneOverdue(s: State) {
    forall p :: p in s.promises ==> p.name !in s.names
  }

  ghost predicate Inv(s: State) {
    Mirror(s) && NoneOverdue(s)
  }

  lemma DeregisterKeepsMirror(s: State, addr: Addr)
    requires Mirror(s)
    ensures Mirror(OnDereg(s, addr))
  {
    var s' := OnDereg(s, addr);
    var gone := if addr in s.owned then s.owned[addr] else {};
    assert forall n :: n in gone ==> n in s.names && s.names[n] == addr;
    forall n | n in s'.names ensures s'.names[n] in s'.owned && n in s'.owned[s'.names[n]] {
      assert s.names[n] in s.owned && n in s.owned[s.names[n]];
    }
    forall a, n | a in s'.owned && n in s'.owned[a] ensures n in s'.names && s'.names[n] == a {
      assert a in s.owned && n in s.owned[a];
    }
  }

  lemma StepKeepsMirror(s: State, m: Message)
    requires Mirror(s)
    ensures Mirror(Step(s, m))
  {
    hide FirstFor, LastMatch, Futures;
    match m
    case Register(name, addr) => assert Mirror(OnReg(s, name, addr));
    case DeregisterAddress(addr) => DeregisterKeepsMirror(s, addr);
    case DeregisterName(name) => assert Mirror(OnDeregService(s, name));
    case Discover(name) =>
    case Await(p) =>
    case Cancel(id, source) => assert OnCancel(s, id, source).names == s.names;
  }

  lemma StepKeepsNoneOverdue(s: State, m: Message)
    requires Inv(s)
    ensures NoneOverdue(Step(s, m))
  {
    var s' := Step(s, m);
    match m
    case Register(name, addr) =>
      if name !in s.names {
        forall p | p in s'.promises ensures p.name !in s'.names {
          assert p in s.promises;
        }
      }
    case Cancel(id, source) =>
      forall p | p in s'.promises ensures p.name !in s'.names {
        assert p in s.promises;
      }
    case _ =>
  }

  lemma StepKeepsInv(s: State, m: Message)
    requires Inv(s)
    ensures Inv(Step(s, m))
  {
    hide Step;
    StepKeepsMirror(s, m);
    StepKeepsNoneOverdue(s, m);
  }

  lemma {:induction false} RunKeepsInv(ms: seq<Message>)
    ensures Inv(Run(ms))
  {
    hide Step;
    if ms != [] {
      RunKeepsInv(ms[..|ms| - 1]);
      StepKeepsInv(Run(ms[..|ms| - 1]), ms[|ms| - 1]);
    }
  }

  /** In every reachable state the lookup in the reverse map succeeds, and dropping an
      address, which walks only its own names, drops every name bound to it and no other. */
  lemma DeregisterIsExact(ms: seq<Message>, addr: Addr)
    ensures var s := Run(ms);
            && (forall n :: n in s.names ==> s.names[n] in s.owned)
            && OnDereg(s, addr).names == (map n | n in s.names && s.names[n] != addr :: s.names[n])
            && OnDereg(s, addr).promises == s.promises && OnDereg(s, addr).replies == s.replies
            && OnDereg(s, addr).owned == s.owned - {addr}
  {
    RunKeepsInv(ms);
    var s := Run(ms);
    var kept := map n | n in s.names && s.names[n] != addr :: s.names[n];
    assert OnDereg(s, addr).names.Keys == kept.Keys;
  }

  /** Registering a name and dropping it again leaves the bindings as they were. */
  lemma RegisterThenDeregister(ms: seq<Message>, name: Name, addr: Addr)
    requires name !in Run(ms).names
    ensures OnDeregService(OnReg(Run(ms), name, addr), name).names == Run(ms).names
    ensures forall a :: a in Run(ms).owned ==>
              OnDeregService(OnReg(Run(ms), name, addr), name).owned[a] == Run(ms).owned[a]
  {
    hide Run, FirstFor, Futures;
    RunKeepsInv(ms);
    var s := Run(ms);
    if addr in s.owned { assert s.owned[addr] + {name} - {name} == s.owned[addr]; }
  }

  // ---------------------------------------------------------------- what is bound, and what is answered

  /** `name` is bound to `addr`. */
  predicate Binds(s: State, name: Name, addr: Addr) {
    name in s.names && s.names[name] == addr
  }

  /** The message drops the binding. */
  predicate Drops(m: Message, name: Name, addr: Addr) {
    m == DeregisterName(name) || m == DeregisterAddress(addr)
  }

  lemma StepBinding(s: State, m: Message, name: Name, addr: Addr)
    requires Inv(s)
    ensures Binds(Step(s, m), name, addr) <==>
            (m == Register(name, addr) && name !in s.names) || (Binds(s, name, addr) && !Drops(m, name, addr))
  {
    hide FirstFor, LastMatch, Futures;
  }

  /** The name was registered for the address by message `k`, when it was free, and has not been
      dropped since. */
  ghost predicate BoundSince(ms: seq<Message>, k: nat, name: Name, addr: Addr) {
    && k < |ms| && ms[k] == Register(name, addr) && name !in Run(ms[..k]).names
    && forall j :: k < j < |ms| ==> !Drops(ms[j], name, addr)
  }

  lemma BoundEarlier(ms: seq<Message>, k: nat, name: Name, addr: Addr)
    requires k < |ms| - 1
    ensures BoundSince(ms, k, name, addr) <==>
            BoundSince(ms[..|ms| - 1], k, name, addr) && !Drops(ms[|ms| - 1], name, addr)
  {
    hide Run, Drops;
    var before := ms[..|ms| - 1];
    assert before[..k] == ms[..k];
    assert forall j :: 0 <= j < |before| ==> before[j] == ms[j];
  }

  /** In every run, a name is bound to an address if and only if it was registered for it when it
      was free and neither the name nor the address has been dropped since. */
  lemma {:induction false} BoundIff(ms: seq<Message>, name: Name, addr: Addr)
    ensures Binds(Run(ms), name, addr) <==> exists k: nat :: BoundSince(ms, k, name, addr)
  {
    hide Step, Inv, Drops;
    if ms != [] {
      var n, before := |ms| - 1, ms[..|ms| - 1];
      BoundIff(before, name, addr);
      RunKeepsInv(before);
      StepBinding(Run(before), ms[n], name, addr);
      if Binds(Run(ms), name, addr) {
        if ms[n] == Register(name, addr) && name !in Run(before).names {
          assert BoundSince(ms, n, name, addr);
        } else {
          var k: nat :| BoundSince(before, k, name, addr);
          BoundEarlier(ms, k, name, addr);
        }
      }
      if exists k: nat :: BoundSince(ms, k, name, addr) {
        var k: nat :| BoundSince(ms, k, name, addr);
        if k < n { BoundEarlier(ms, k, name, addr); }
      }
    }
  }

  /** The first answers to a message: exactly one to a registration, a discovery and a promise
      for a name that is bound; none to the rest but a cancellation that finds its promise. */
  lemma AnswersAre(s: State, m: Message)
    ensures var n, s' := |s.replies|, Step(s, m);
            && n <= |s'.replies| && s'.replies[..n] == s.replies
            && match m
               case Register(name, _) =>
                 if name in s.names then s'.replies[n..] == [AlreadyRegistered(name)] && s'.promises == s.promises
                 else n < |s'.replies| && s'.replies[n] == Registered(name)
               case Discover(name) =>
                 && s'.promises == s.promises
                 && s'.replies[n..] == [if name in s.names then Found(name, s.names[name]) else Unknown(name)]
               case Await(p) =>
                 if p.name in s.names
                 then s'.replies[n..] == [Future(p, s.names[p.name])] && s'.promises == s.promises
                 else s'.replies[n..] == [] && s'.promises == s.promises + [p]
               case Cancel(id, source) =>
                 if exists p :: p in s.promises && p.id == id && p.origin == source
                 then |s'.replies| == n + 1 && s'.replies[n].Cancelled?
                   && s'.replies[n].promise.id == id && s'.replies[n].promise.origin == source
                 else s' == s
               case _ => s'.replies[n..] == [] && s'.promises == s.promises
  {
    hide FirstFor, Futures;
    var s' := Step(s, m);
    if m.Cancel? {
      var k := LastMatch(s.promises, m.id, m.source);
      if k >= 0 { assert s.promises[k] in s.promises; }
    }
  }

  /** In every run, a discovery finds just the address for which the name was registered last and
      is registered still. */
  lemma DiscoveryIsTrue(ms: seq<Message>, name: Name, addr: Addr)
    ensures var s, s' := Run(ms), Step(Run(ms), Discover(name));
            s'.replies == s.replies + [Found(name, addr)] <==> exists k: nat :: BoundSince(ms, k, name, addr)
  {
    hide Run, BoundSince;
    BoundIff(ms, name, addr);
    var s := Run(ms);
    var answer := if name in s.names then Found(name, s.names[name]) else Unknown(name);
    assert (s.replies + [answer])[|s.replies|] == answer;
    assert (s.replies + [Found(name, addr)])[|s.replies|] == Found(name, addr);
  }

  // ---------------------------------------------------------------- promises are conserved

  /** Promises received in a run. */
  function Received(ms: seq<Message>): multiset<Promise> {
    if ms == [] then multiset{}
    else
      Received(ms[..|ms| - 1]) + Brings(ms[|ms| - 1])
  }

  /** Promises answered by a future, an immediate reply or a cancellation. */
  function Answered(replies: seq<Reply>): multiset<Promise> {
    if replies == [] then multiset{}
    else
      var last := replies[|replies| - 1];
      Answered(replies[..|replies| - 1]) +
      if last.Future? || last.Cancelled? then multiset{last.promise} else multiset{}
  }

  lemma {:induction false} AnsweredAppend(a: seq<Reply>, b: seq<Reply>)
    ensures Answered(a + b) == Answered(a) + Answered(b)
    decreases |b|
  {
    if b == [] {
      assert a + b == a;
    } else {
      var n := |b| - 1;
      assert (a + b)[..|a + b| - 1] == a + b[..n];
      AnsweredAppend(a, b[..n]);
    }
  }

  lemma {:induction false} FuturesAnswer(promises: seq<Promise>, addr: Addr)
    ensures Answered(Futures(promises, addr)) == multiset(promises)
    decreases |promises|
  {
    if promises != [] {
      var n := |promises| - 1;
      assert Futures(promises, addr)[..n] == Futures(promises[..n], addr);
      assert promises == promises[..n] + [promises[n]];
      FuturesAnswer(promises[..n], addr);
    }
  }

  ghost predicate Conserved(s: State, received: multiset<Promise>) {
    received == multiset(s.promises) + Answered(s.replies)
  }

  lemma OneReply(replies: seq<Reply>, r: Reply)
    ensures Answered(replies + [r]) ==
            Answered(replies) + if r.Future? || r.Cancelled? then multiset{r.promise} else multiset{}
  {
    assert (replies + [r])[..|replies|] == replies;
  }

  lemma RegisterConserves(s: State, name: Name, addr: Addr, received: multiset<Promise>)
    requires Conserved(s, received)
    ensures Conserved(OnReg(s, name, addr), received)
  {
    hide Answered, FirstFor;
    if name in s.names {
      OneReply(s.replies, AlreadyRegistered(name));
    } else {
      var k := FirstFor(s.promises, name);
      OneReply(s.replies, Registered(name));
      AnsweredAppend(s.replies + [Registered(name)], Futures(s.promises[k..], addr));
      FuturesAnswer(s.promises[k..], addr);
      assert s.promises == s.promises[..k] + s.promises[k..];
    }
  }

  lemma CancelConserves(s: State, id: nat, source: Addr, received: multiset<Promise>)
    requires Conserved(s, received)
    ensures Conserved(OnCancel(s, id, source), received)
  {
    hide Answered, LastMatch;
    var k := LastMatch(s.promises, id, source);
    if k >= 0 {
      OneReply(s.replies, Cancelled(s.promises[k]));
      assert s.promises == s.promises[..k] + [s.promises[k]] + s.promises[k + 1..];
    }
  }

  lemma DiscoverConserves(s: State, name: Name, received: multiset<Promise>)
    requires Conserved(s, received)
    ensures Conserved(OnDiscovery(s, name), received)
  {
    hide Answered;
    OneReply(s.replies, if name in s.names then Found(name, s.names[name]) else Unknown(name));
  }

  lemma AwaitConserves(s: State, p: Promise, received: multiset<Promise>)
    requires Conserved(s, received)
    ensures Conserved(OnPromise(s, p), received + multiset{p})
  {
    hide Answered;
    if p.name in s.names { OneReply(s.replies, Future(p, s.names[p.name])); }
  }

  lemma DeregisterConserves(s: State, m: Message, received: multiset<Promise>)
    requires Conserved(s, received) && (m.DeregisterAddress? || m.DeregisterName?)
    ensures Conserved(Step(s, m), received)
  {
    hide Answered;
  }

  /** What a message adds to the promises received. */
  function Brings(m: Message): multiset<Promise> {
    if m.Await? then multiset{m.promise} else multiset{}
  }

  lemma StepConserves(s: State, m: Message, received: multiset<Promise>)
    requires Conserved(s, received)
    ensures Conserved(Step(s, m), received + Brings(m))
  {
    hide Conserved, OnReg, OnDiscovery, OnPromise, OnCancel, OnDereg, OnDeregService;
    if !m.Await? { assert received + Brings(m) == received; }
    match m
    case Register(name, addr) => RegisterConserves(s, name, addr, received);
    case Discover(name) => DiscoverConserves(s, name, received);
    case Await(p) => AwaitConserves(s, p, received);
    case Cancel(id, source) => CancelConserves(s, id, source, received);
    case DeregisterAddress(_) => DeregisterConserves(s, m, received);
    case DeregisterName(_) => DeregisterConserves(s, m, received);
  }

  /** Every promise received is pending once or has been answered once. */
  lemma {:induction false} PromisesAreConserved(ms: seq<Message>)
    ensures Received(ms) == multiset(Run(ms).promises) + Answered(Run(ms).replies)
  {
    if ms != [] {
      var init := ms[..|ms| - 1];
      PromisesAreConserved(init);
      StepConserves(Run(init), ms[|ms| - 1], Received(init));
    }
  }

  /** Cancelling answers the last match, keeps the others in order, and is the inverse of
      asking when nothing else matches behind it. */
  lemma CancelUndoesPromise(s: State, p: Promise)
    requires p.name !in s.names
    ensures OnCancel(OnPromise(s, p), p.id, p.origin) == s.(replies := s.replies + [Cancelled(p)])
  {
    assert (s.promises + [p])[..|s.promises|] == s.promises;
    assert s.promises + [] == s.promises;
  }

  lemma CancelTakesTheLast(a: seq<Promise>, p: Promise, b: seq<Promise>, s: State)
    requires s.promises == a + [p] + b
    requires forall q :: q in b ==> !(q.id == p.id && q.origin == p.origin)
    ensures OnCancel(s, p.id, p.origin) == s.(promises := a + b, replies := s.replies + [Cancelled(p)])
  {
    var k := LastMatch(s.promises, p.id, p.origin);
    assert s.promises[|a|] == p;
    assert forall i :: |a| < i < |s.promises| ==> s.promises[i] in b;
    assert s.promises[..k] == a && s.promises[k + 1..] == b;
  }

  // ---------------------------------------------------------------- what a registration answers

  /** Everything behind the first match asks for `name` too. */
  ghost predicate Contiguous(promises: seq<Promise>, name: Name) {
    forall i, j :: 0 <= i < j < |promises| && promises[i].name == name ==> promises[j].name == name
  }

  /** A reply that names an address names the one registered for it. */
  ghost predicate Truthful(s: State, r: Reply) {
    match r
    case Future(p, addr) => p.name in s.names && s.names[p.name] == addr
    case Found(name, addr) => name in s.names && s.names[name] == addr
    case _ => true
  }

  /** As written, a registration answers the whole list from the first match on. So the
      futures it sends are right exactly when that whole part asks for the new name. */
  lemma FuturesAreRightIffContiguous(ms: seq<Message>, name: Name, addr: Addr)
    requires name !in Run(ms).names
    ensures var s, s' := Run(ms), OnReg(Run(ms), name, addr);
            (forall i :: |s.replies| <= i < |s'.replies| ==> Truthful(s', s'.replies[i])) <==>
            Contiguous(s.promises, name)
  {
    hide Run, Others, Matching, FirstFor;
    RunKeepsInv(ms);
    var s, s' := Run(ms), OnReg(Run(ms), name, addr);
    var k, base := FirstFor(s.promises, name), |s.replies| + 1;
    ContiguousFromFirst(s.promises, name);
    forall i | |s.replies| <= i < |s'.replies|
      ensures Truthful(s', s'.replies[i]) <==> i < base || s.promises[k + i - base].name == name
    {
      NewReply(s, name, addr, i);
    }
    AllOrNone(s, s', base, k, name);
  }

  lemma AllOrNone(s: State, s': State, base: nat, k: nat, name: Name)
    requires 0 < base && base - 1 <= |s'.replies| && k <= |s.promises| && |s'.replies| - base == |s.promises| - k
    requires forall i :: base - 1 <= i < |s'.replies| ==>
               (Truthful(s', s'.replies[i]) <==> i < base || s.promises[k + i - base].name == name)
    ensures (forall i :: base - 1 <= i < |s'.replies| ==> Truthful(s', s'.replies[i])) <==>
            forall j :: k <= j < |s.promises| ==> s.promises[j].name == name
  {
    forall j | k <= j < |s.promises|
      ensures Truthful(s', s'.replies[base + j - k]) <==> s.promises[j].name == name
    {
      assert k + (base + j - k) - base == j;
    }
    if forall i :: base - 1 <= i < |s'.replies| ==> Truthful(s', s'.replies[i]) {
      forall j | k <= j < |s.promises| ensures s.promises[j].name == name {
        assert Truthful(s', s'.replies[base + j - k]);
      }
    }
  }

  lemma NamedTruthful(s: State, name: Name, addr: Addr)
    requires name !in s.names
    ensures Truthful(OnReg(s, name, addr), Registered(name))
  {}

  lemma NewReply(s: State, name: Name, addr: Addr, i: nat)
    requires name !in s.names && NoneOverdue(s) && |s.replies| <= i < |OnReg(s, name, addr).replies|
    ensures |OnReg(s, name, addr).replies| - |s.replies| - 1 == |s.promises| - FirstFor(s.promises, name)
    ensures Truthful(OnReg(s, name, addr), OnReg(s, name, addr).replies[i]) <==>
            i == |s.replies| || s.promises[FirstFor(s.promises, name) + i - |s.replies| - 1].name == name
  {
    hide NoneOverdue, Truthful;
    var k, base := FirstFor(s.promises, name), |s.replies| + 1;
    NamedTruthful(s, name, addr);
    if i >= base {
      assert OnReg(s, name, addr).replies[i] == Future(s.promises[k + i - base], addr);
      FutureTruthful(s, name, addr, k + i - base);
    }
  }

  lemma FutureTruthful(s: State, name: Name, addr: Addr, j: nat)
    requires name !in s.names && NoneOverdue(s) && j < |s.promises|
    ensures Truthful(OnReg(s, name, addr), Future(s.promises[j], addr)) <==> s.promises[j].name == name
  {
    assert s.promises[j] in s.promises;
  }

  lemma {:induction false} MatchingNamed(promises: seq<Promise>, name: Name)
    ensures forall p :: p in Matching(promises, name) ==> p.name == name && p in promises
    ensures forall p :: p in Others(promises, name) ==> p.name != name && p in promises
    ensures multiset(promises) == multiset(Others(promises, name)) + multiset(Matching(promises, name))
  {
    if promises != [] {
      MatchingNamed(promises[1..], name);
      assert promises == [promises[0]] + promises[1..];
    }
  }

  lemma MeantKeepsInv(s: State, name: Name, addr: Addr)
    requires Inv(s) && name !in s.names
    ensures Inv(OnRegMeant(s, name, addr))
  {
    hide Others, Matching, Futures;
    MatchingNamed(s.promises, name);
  }

  lemma MeantConserves(s: State, name: Name, addr: Addr, received: multiset<Promise>)
    requires Conserved(s, received) && name !in s.names
    ensures Conserved(OnRegMeant(s, name, addr), received)
  {
    hide Answered, Others, Matching, Futures;
    var named := Matching(s.promises, name);
    MatchingNamed(s.promises, name);
    OneReply(s.replies, Registered(name));
    AnsweredAppend(s.replies + [Registered(name)], Futures(named, addr));
    FuturesAnswer(named, addr);
  }

  /** The replies sent since `s` name the addresses registered in `s'`. */
  ghost predicate Tells(s: State, s': State) {
    && |s.replies| <= |s'.replies| && s'.replies[..|s.replies|] == s.replies
    && forall i :: |s.replies| <= i < |s'.replies| ==> Truthful(s', s'.replies[i])
  }

  lemma MeantTells(s: State, name: Name, addr: Addr)
    requires name !in s.names
    ensures Tells(s, OnRegMeant(s, name, addr))
  {
    hide Others, Matching;
    var s', named := OnRegMeant(s, name, addr), Matching(s.promises, name);
    MatchingNamed(s.promises, name);
    forall i | |s.replies| <= i < |s'.replies| ensures Truthful(s', s'.replies[i]) {
      if i > |s.replies| {
        assert named[i - |s.replies| - 1] in named;
      }
    }
  }

  function StepMeant(s: State, m: Message): State {
    if m.Register? then OnRegMeant(s, m.name, m.addr) else Step(s, m)
  }

  function RunMeant(ms: seq<Message>): State {
    if ms == [] then EMPTY else StepMeant(RunMeant(ms[..|ms| - 1]), ms[|ms| - 1])
  }

  lemma StepMeantIsRight(s: State, m: Message, received: multiset<Promise>)
    requires Inv(s) && Conserved(s, received)
    ensures var s' := StepMeant(s, m); Inv(s') && Conserved(s', received + Brings(m)) && Tells(s, s')
  {
    hide Inv, Conserved, Tells, OnRegMeant, Step;
    if m.Register? && m.name !in s.names {
      MeantKeepsInv(s, m.name, m.addr);
      MeantConserves(s, m.name, m.addr, received);
      MeantTells(s, m.name, m.addr);
      assert received + Brings(m) == received;
    } else {
      AlreadyThere(s, m);
      StepKeepsInv(s, m);
      StepConserves(s, m, received);
      OtherTells(s, m);
    }
  }

  lemma AlreadyThere(s: State, m: Message)
    requires m.Register? ==> m.name in s.names
    ensures StepMeant(s, m) == Step(s, m)
  {}

  lemma OtherTells(s: State, m: Message)
    requires m.Register? ==> m.name in s.names
    ensures Tells(s, Step(s, m))
  {
    hide LastMatch, FirstFor, Futures;
  }

  /** With registrations as they are meant, in every run, the invariant holds, each promise
      received waits once or has been answered once, and each address sent is the one that is
      registered at that moment under the name asked for. */
  lemma {:induction false} MeantIsRight(ms: seq<Message>)
    ensures Inv(RunMeant(ms)) && Conserved(RunMeant(ms), Received(ms))
    ensures ms != [] ==> Tells(RunMeant(ms[..|ms| - 1]), RunMeant(ms))
  {
    hide Inv, Conserved, Tells, StepMeant, Brings;
    if ms == [] {
      NothingReceived();
    } else {
      var before := ms[..|ms| - 1];
      MeantIsRight(before);
      StepMeantIsRight(RunMeant(before), ms[|ms| - 1], Received(before));
    }
  }

  lemma NothingReceived()
    ensures Inv(EMPTY) && Conserved(EMPTY, multiset{})
  {}

  /** The loop as written does what is meant if and only if everything behind the first match
      asks for the name. */
  lemma AsMeantIffContiguous(s: State, name: Name, addr: Addr)
    requires name !in s.names
    ensures OnReg(s, name, addr) == OnRegMeant(s, name, addr) <==> Contiguous(s.promises, name)
  {
    hide Others, Matching, FirstFor;
    KeptAsMeantIffContiguous(s, name, addr);
    if Contiguous(s.promises, name) {
      var k := FirstFor(s.promises, name);
      assert s.promises == s.promises[..k] + s.promises[k..];
      SplitConcat(s.promises[..k], s.promises[k..], name);
      Unmatched(s.promises[..k], name);
      ContiguousFromFirst(s.promises, name);
      AllMatched(s.promises[k..], name);
    }
  }

  lemma {:induction false} AllMatched(a: seq<Promise>, name: Name)
    requires forall i :: 0 <= i < |a| ==> a[i].name == name
    ensures Matching(a, name) == a
  {
    if a != [] {
      AllMatched(a[1..], name);
    }
  }

  lemma ContiguousFromFirst(promises: seq<Promise>, name: Name)
    ensures Contiguous(promises, name) <==>
            forall j :: FirstFor(promises, name) <= j < |promises| ==> promises[j].name == name
  {}

  lemma {:induction false} OthersOf(promises: seq<Promise>, name: Name)
    ensures var k := FirstFor(promises, name);
            Others(promises, name) == promises[..k] + Others(promises[k..], name)
  {
    if promises != [] && promises[0].name != name {
      OthersOf(promises[1..], name);
      var k := FirstFor(promises, name);
      assert promises[..k] == [promises[0]] + promises[1..][..k - 1];
      assert promises[k..] == promises[1..][k - 1..];
      Associates([promises[0]], promises[1..][..k - 1], Others(promises[k..], name));
    } else {
      assert promises[..0] == [] && promises[0..] == promises;
    }
  }

  lemma {:induction false} NoOthersIff(promises: seq<Promise>, name: Name)
    ensures Others(promises, name) == [] <==> forall i :: 0 <= i < |promises| ==> promises[i].name == name
  {
    if promises != [] {
      NoOthersIff(promises[1..], name);
      if forall i :: 0 <= i < |promises| ==> promises[i].name == name {
        assert forall i :: 0 <= i < |promises| - 1 ==> promises[1..][i].name == name;
      } else if promises[0].name == name {
        var i :| 0 <= i < |promises| && promises[i].name != name;
        assert promises[1..][i - 1].name != name;
      }
    }
  }

  /** And it keeps the promises it is meant to keep exactly under the same condition. */
  lemma KeptAsMeantIffContiguous(s: State, name: Name, addr: Addr)
    requires name !in s.names
    ensures OnReg(s, name, addr).promises == Others(s.promises, name) <==> Contiguous(s.promises, name)
  {
    hide Others, Matching, FirstFor;
    var k := FirstFor(s.promises, name);
    var rest := s.promises[k..];
    OthersOf(s.promises, name);
    NoOthersIff(rest, name);
    if OnReg(s, name, addr).promises == Others(s.promises, name) {
      assert |Others(rest, name)| == 0;
      forall i, j | 0 <= i < j < |s.promises| && s.promises[i].name == name ensures s.promises[j].name == name {
        assert s.promises[j] == rest[j - k];
      }
    }
    if Contiguous(s.promises, name) {
      assert forall i :: 0 <= i < |rest| ==> rest[i].name == name;
    }
  }

  /** The condition does fail: with promises for "a" and then "b", registering "a" answers
      both, the second with the address of "a". */
  lemma RegistrationCanMislead()
    ensures var p, q := Promise(1, 10, "a"), Promise(2, 20, "b");
            var s := Run([Await(p), Await(q), Register("a", 7)]);
            s.promises == [] && Future(q, 7) in s.replies && "b" !in s.names
  {
    var p, q := Promise(1, 10, "a"), Promise(2, 20, "b");
    var ms := [Await(p), Await(q), Register("a", 7)];
    assert ms[..2] == [Await(p), Await(q)] && ms[..2][..1] == [Await(p)] && ms[..2][..1][..0] == [];
    assert Run([Await(p)]).promises == [p];
    assert Run([Await(p), Await(q)]) == EMPTY.(promises := [p, q]);
    assert FirstFor([p, q], "a") == 0;
    assert Futures([p, q][0..], 7)[1] == Future(q, 7);
    assert Run(ms).replies == [] + [Registered("a")] + Futures([p, q][0..], 7);
    assert Run(ms).replies[2] == Future(q, 7);
  }
}
