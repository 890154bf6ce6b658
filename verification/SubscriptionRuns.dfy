/** Whole runs of subscribing, replacing and forgetting: when the index agrees with the list,
    what subscribing and forgetting restores, and how agreement is lost. */
module SubscriptionRuns {
  import opened Subscriptions

  function Blank<I>(): World<I> {
    World(State(map[], map[], map[]), map[])
  }

  /** One step; that the infos are known is no restriction, as every step keeps it. */
  ghost predicate Moves<I>(k: Kinds, w: World<I>, e: Event<I>, w': World<I>) {
    Known(k, w.s) && LiveKnown(w) && Allowed(k, w, e) && w' == Step(k, w, e)
  }

  /** The worlds a run goes through, from the empty one. */
  ghost predicate Path<I>(k: Kinds, ws: seq<World<I>>, es: seq<Event<I>>) {
    && |ws| == |es| + 1 && ws[0] == Blank()
    && (forall n :: 0 <= n < |es| ==> Moves(k, ws[n], es[n], ws[n + 1]))
  }

  /** What the assertions in `update` and `forget` demand. */
  predicate Guarded<I>(k: Kinds, s: State<I>, e: Event<I>)
    requires !e.Materializes? ==> e.i in s.recs
    requires e.Forgets? ==> KnownAt(s, s.recs[e.i].addr)
  {
    match e
    case Materializes(_, _, _) => true
    case Updates(i, _) =>
      k.home(s.recs[i].addr) ==> Indexed(k, s.index, s.recs[i].addr, s.recs[i].handler, k.mine(s.recs[i].handler))
    case Forgets(i) =>
      var r := s.recs[i];
      r.internalAddress ==>
        && r.addr in s.infos && r.handler in HandlersAt(s, r.addr)
        && Indexed(k, s.index, r.addr, r.handler, r.internalHandler)
  }

  predicate Indexed(k: Kinds, index: map<Key, Joint>, a: Addr, h: Handler, internal: bool) {
    Key(a, k.typeOf(h)) in index && h in Side(index[Key(a, k.typeOf(h))], internal)
  }

  lemma BlankIsFine<I>(k: Kinds)
    ensures SingleInv(k, Blank<I>()) && Tidy(Blank<I>().s)
  {}

  lemma {:induction false} CarefulPath<I>(k: Kinds, ws: seq<World<I>>, es: seq<Event<I>>, n: nat)
    requires Path(k, ws, es) && n < |ws|
    requires forall m :: 0 <= m < n ==> Careful(ws[m], es[m])
    ensures BagInv(k, ws[n]) && Tidy(ws[n].s)
  {
    if n == 0 {
      BlankIsFine<I>(k);
    } else {
      CarefulPath(k, ws, es, n - 1);
      assert Moves(k, ws[n - 1], es[n - 1], ws[n]);
      StepKeepsBags(k, ws[n - 1], es[n - 1]);
      StepKeepsTidy(k, ws[n - 1], es[n - 1]);
    }
  }

  lemma NeverTrips<I>(k: Kinds, w: World<I>, e: Event<I>)
    requires BagInv(k, w) && Allowed(k, w, e)
    ensures !e.Materializes? ==> KnownAt(w.s, w.s.recs[e.i].addr)
    ensures Guarded(k, w.s, e)
  {
    if !e.Materializes? {
      assert KnownAt(w.s, w.s.recs[e.i].addr);
      if w.s.recs[e.i].internalAddress {
        var r := w.s.recs[e.i];
        var kind, mine := k.typeOf(r.handler), k.mine(r.handler);
        LiveIsListed(k, w, e.i);
        assert BagAt(k, w.s, r.addr, kind, mine);
        SelectMembers(k, HandlersAt(w.s, r.addr), kind, mine, r.handler);
        assert r.handler in multiset(SideAt(w.s, r.addr, kind, mine));
      }
    }
  }

  /** In every run in which handlers are replaced only through listed infos, the index has for
      every address and message type the handlers of the list, no map keeps an empty entry, and
      none of the assertions fails. */
  lemma IndexMatchesList<I>(k: Kinds, ws: seq<World<I>>, es: seq<Event<I>>, n: nat)
    requires Path(k, ws, es) && n < |es|
    requires forall m :: 0 <= m < n ==> Careful(ws[m], es[m])
    ensures Known(k, ws[n].s) && Bags(k, ws[n].s) && Tidy(ws[n].s)
    ensures !es[n].Materializes? ==> es[n].i in ws[n].s.recs && KnownAt(ws[n].s, ws[n].s.recs[es[n].i].addr)
    ensures Guarded(k, ws[n].s, es[n])
  {
    CarefulPath(k, ws, es, n);
    assert Moves(k, ws[n], es[n], ws[n + 1]);
    NeverTrips(k, ws[n], es[n]);
  }

  /** When no handler object is subscribed twice to an address, the index lists the handlers in
      the order of the list, and the list has exactly what was made and not yet forgotten. */
  lemma {:induction false} IndexMatchesListInOrder<I>(k: Kinds, ws: seq<World<I>>, es: seq<Event<I>>, n: nat)
    requires Path(k, ws, es) && n < |ws|
    requires forall m :: 0 <= m < n ==> LiveKnown(ws[m]) && Allowed(k, ws[m], es[m]) && Single(k, ws[m], es[m])
    ensures SingleInv(k, ws[n]) && Tidy(ws[n].s)
  {
    if n == 0 {
      BlankIsFine<I>(k);
    } else {
      IndexMatchesListInOrder(k, ws, es, n - 1);
      assert Moves(k, ws[n - 1], es[n - 1], ws[n]);
      StepKeepsSingle(k, ws[n - 1], es[n - 1]);
      StepKeepsTidy(k, ws[n - 1], es[n - 1]);
    }
  }

  /** There is a live info of the address with a handler for the message type. */
  ghost predicate Wanted<I>(k: Kinds, w: World<I>, a: Addr, kind: Type)
    requires LiveKnown(w)
  {
    k.home(a) && LiveKnownAt(w, a) && exists h :: h in LiveHandlersAt(w, a) && k.typeOf(h) == kind
  }

  lemma WantedIsIndexed<I>(k: Kinds, w: World<I>, a: Addr, kind: Type, h: Handler)
    requires BagInv(k, w) && k.home(a) && LiveKnownAt(w, a) && h in LiveHandlersAt(w, a) && k.typeOf(h) == kind
    ensures Key(a, kind) in w.s.index
  {
    assert KnownAt(w.s, a) && HeldAt(k, w, a) && BagAt(k, w.s, a, kind, k.mine(h));
    assert h in multiset(LiveHandlersAt(w, a));
    assert h in multiset(HandlersAt(w.s, a));
    SelectMembers(k, HandlersAt(w.s, a), kind, k.mine(h), h);
    assert h in multiset(SideAt(w.s, a, kind, k.mine(h)));
  }

  lemma IndexedIsWanted<I>(k: Kinds, w: World<I>, a: Addr, kind: Type, mine: bool)
    requires BagInv(k, w) && SideAt(w.s, a, kind, mine) != []
    ensures Wanted(k, w, a, kind)
  {
    var h := SideAt(w.s, a, kind, mine)[0];
    assert KnownAt(w.s, a) && LiveKnownAt(w, a) && HeldAt(k, w, a) && BagAt(k, w.s, a, kind, mine);
    assert h in multiset(SideAt(w.s, a, kind, mine));
    assert h in Select(k, HandlersAt(w.s, a), kind, mine);
    SelectMembers(k, HandlersAt(w.s, a), kind, mine, h);
    assert InfosAt(w.s, a) != [];
    assert h in multiset(HandlersAt(w.s, a));
    assert h in LiveHandlersAt(w, a);
  }

  /** The lookup gives null exactly when no live info matches. */
  lemma NullIffUnwanted<I>(k: Kinds, w: World<I>, a: Addr, kind: Type)
    requires BagInv(k, w) && Tidy(w.s)
    ensures GetRecipients(w.s, a, kind) == Null <==> !Wanted(k, w, a, kind)
  {
    if Wanted(k, w, a, kind) {
      var h :| h in LiveHandlersAt(w, a) && k.typeOf(h) == kind;
      WantedIsIndexed(k, w, a, kind, h);
    }
    if Key(a, kind) in w.s.index {
      var j := w.s.index[Key(a, kind)];
      IndexedIsWanted(k, w, a, kind, j.internal != []);
    }
  }

  // ---------------------------------------------------------------- what a lookup gives

  function CalledHere(r: Recipients): seq<Handler> {
    if r.Null? then [] else r.joint.internal
  }

  function CalledElsewhere(r: Recipients): seq<Handler> {
    if r.Null? then [] else r.joint.external
  }

  lemma {:induction false} SelectCounts(k: Kinds, hs: seq<Handler>, kind: Type, mine: bool, h: Handler)
    ensures multiset(Select(k, hs, kind, mine))[h] ==
            if k.typeOf(h) == kind && k.mine(h) == mine then multiset(hs)[h] else 0
  {
    if hs != [] {
      SelectCounts(k, hs[..|hs| - 1], kind, mine, h);
      assert hs == hs[..|hs| - 1] + [hs[|hs| - 1]];
    }
  }

  lemma SideOfLookup<I>(s: State<I>, a: Addr, kind: Type)
    ensures SideAt(s, a, kind, true) == CalledHere(GetRecipients(s, a, kind))
    ensures SideAt(s, a, kind, false) == CalledElsewhere(GetRecipients(s, a, kind))
  {}

  lemma RecipientsOf<I>(k: Kinds, w: World<I>, a: Addr, kind: Type, h: Handler)
    requires BagInv(k, w) && k.home(a)
    ensures LiveKnownAt(w, a)
    ensures var r, live := GetRecipients(w.s, a, kind), multiset(LiveHandlersAt(w, a));
            && multiset(CalledHere(r))[h] == (if k.typeOf(h) == kind && k.mine(h) then live[h] else 0)
            && multiset(CalledElsewhere(r))[h] == (if k.typeOf(h) == kind && !k.mine(h) then live[h] else 0)
  {
    hide Select;
    assert KnownAt(w.s, a) && LiveKnownAt(w, a) && HeldAt(k, w, a);
    assert BagAt(k, w.s, a, kind, true) && BagAt(k, w.s, a, kind, false);
    SideOfLookup(w.s, a, kind);
    SelectCounts(k, HandlersAt(w.s, a), kind, true, h);
    SelectCounts(k, HandlersAt(w.s, a), kind, false, h);
  }

  /** In every run in which handlers are replaced only through listed infos: the lookup for an
      address of this supervisor gives each handler as often as there are live infos with it, if
      it is for the message type, and none else; handlers of this supervisor's actors are to be
      called here, the others elsewhere. */
  lemma RecipientsAreLive<I>(k: Kinds, ws: seq<World<I>>, es: seq<Event<I>>, n: nat, a: Addr, kind: Type, h: Handler)
    requires Path(k, ws, es) && n < |ws| && k.home(a)
    requires forall m :: 0 <= m < n ==> Careful(ws[m], es[m])
    ensures LiveKnownAt(ws[n], a)
    ensures var r, live := GetRecipients(ws[n].s, a, kind), multiset(LiveHandlersAt(ws[n], a));
            && multiset(CalledHere(r))[h] == (if k.typeOf(h) == kind && k.mine(h) then live[h] else 0)
            && multiset(CalledElsewhere(r))[h] == (if k.typeOf(h) == kind && !k.mine(h) then live[h] else 0)
  {
    hide GetRecipients, CalledHere, CalledElsewhere, BagInv, Careful;
    CarefulPath(k, ws, es, n);
    RecipientsOf(k, ws[n], a, kind, h);
  }

  /** With no handler subscribed twice to an address they come in the order of subscribing. */
  lemma RecipientsAreInOrder<I>(k: Kinds, ws: seq<World<I>>, es: seq<Event<I>>, n: nat, a: Addr, kind: Type)
    requires Path(k, ws, es) && n < |ws| && k.home(a)
    requires forall m :: 0 <= m < n ==> LiveKnown(ws[m]) && Allowed(k, ws[m], es[m]) && Single(k, ws[m], es[m])
    ensures LiveKnownAt(ws[n], a)
    ensures var r, live := GetRecipients(ws[n].s, a, kind), LiveHandlersAt(ws[n], a);
            CalledHere(r) == Select(k, live, kind, true) && CalledElsewhere(r) == Select(k, live, kind, false)
  {
    hide Select;
    IndexMatchesListInOrder(k, ws, es, n);
    var w := ws[n];
    assert KnownAt(w.s, a) && LiveKnownAt(w, a) && SameAt(k, w, a);
    assert OrderAt(k, w.s, a, kind, true) && OrderAt(k, w.s, a, kind, false);
    SideOfLookup(w.s, a, kind);
  }

  /** When every info has been forgotten, both maps are empty. */
  lemma ForgettingAllEmptiesBoth<I>(k: Kinds, w: World<I>)
    requires BagInv(k, w) && Tidy(w.s)
    requires forall a :: LiveAt(w, a) == []
    ensures w.s.infos == map[] && w.s.index == map[]
  {
    forall a ensures a !in w.s.infos {
      assert KnownAt(w.s, a) && LiveKnownAt(w, a) && HeldAt(k, w, a);
      assert LiveHandlersAt(w, a) == [];
      assert k.home(a) ==> |multiset(HandlersAt(w.s, a))| == 0;
    }
    forall key ensures key !in w.s.index {
      NullIffUnwanted(k, w, key.addr, key.kind);
      assert LiveAt(w, key.addr) == [];
    }
  }

  // ---------------------------------------------------------------- round trip

  /** All elements from the first occurrence of `h` on are `h`. */
  predicate EndsIn(hs: seq<Handler>, h: Handler) {
    forall i :: First(hs, h) <= i < |hs| ==> hs[i] == h
  }

  lemma DropAppended(hs: seq<Handler>, h: Handler)
    ensures var more := hs + [h];
            && First(more, h) < |more|
            && multiset(Without(more, First(more, h))) == multiset(hs)
            && (Without(more, First(more, h)) == hs <==> EndsIn(hs, h))
  {
    hide First;
    var more := hs + [h];
    var p := First(more, h);
    assert p == First(hs, h) by {
      if h in hs {
        assert more[First(hs, h)] == h;
        FirstIs(more, First(hs, h), h);
      } else {
        assert more[..|hs|] == hs;
        FirstIs(more, |hs|, h);
      }
    }
    WithoutMultiset(more, p);
    assert multiset(more) == multiset(hs) + multiset{h};
    DropGives(hs, h, p);
  }

  lemma DropGives(hs: seq<Handler>, h: Handler, p: nat)
    requires p <= |hs|
    ensures Without(hs + [h], p) == hs <==> forall i :: p <= i < |hs| ==> hs[i] == h
  {
    if Without(hs + [h], p) == hs {
      AllFrom(hs, h, p);
    }
  }

  lemma {:induction false} AllFrom(hs: seq<Handler>, h: Handler, p: nat)
    requires p <= |hs| && Without(hs + [h], p) == hs
    ensures forall i :: p <= i < |hs| ==> hs[i] == h
  {
    var i := |hs|;
    while i > p
      invariant p <= i <= |hs|
      invariant forall j :: i <= j < |hs| ==> hs[j] == h
    {
      i := i - 1;
      assert Without(hs + [h], p)[i] == (hs + [h])[i + 1];
    }
  }

  /** Subscribing and forgetting again leaves the handlers of every address and message type
      as they were, up to order; and in order if and only if, from the first subscription of
      the same handler on, there are no others. */
  lemma MaterializeThenForget<I>(k: Kinds, s: State<I>, i: I, a: Addr, h: Handler, kind: Type, mine: bool)
    requires Known(k, s) && i !in s.recs && k.home(a)
    ensures var made := Materialize(k, s, i, a, h);
            && Known(k, made)
            && KnownAt(s, a) && KnownAt(made, a) && KnownAt(Forget(k, made, i), a)
            && var s' := Forget(k, made, i);
               && multiset(HandlersAt(s', a)) == multiset(HandlersAt(s, a))
               && multiset(SideAt(s', a, kind, mine)) == multiset(SideAt(s, a, kind, mine))
               && (HandlersAt(s', a) == HandlersAt(s, a) <==> EndsIn(HandlersAt(s, a), h))
               && (SideAt(s', a, kind, mine) == SideAt(s, a, kind, mine) <==>
                   !Fits(k, h, kind, mine) || EndsIn(SideAt(s, a, kind, mine), h))
  {
    assert KnownAt(s, a);
    var made := Materialize(k, s, i, a, h);
    MaterializeEffect(k, s, i, a, h, a, kind, mine);
    MaterializeKnown(k, s, i, a, h);
    ForgetEffect(k, made, i, a, kind, mine);
    DropAppended(HandlersAt(s, a), h);
    DropAppended(SideAt(s, a, kind, mine), h);
  }

  lemma DropMadeInfo<I>(infos: map<Addr, seq<I>>, a: Addr, i: I)
    requires a in infos ==> infos[a] != []
    ensures DropInfo(infos[a := Listed(infos, a) + [i]], a, |Listed(infos, a)|) == infos
  {
    assert Without(Listed(infos, a) + [i], |Listed(infos, a)|) == Listed(infos, a);
  }

  lemma DropMadeHandler(index: map<Key, Joint>, key: Key, mine: bool, h: Handler)
    requires key in index ==> index[key] != NOBODY
    requires h !in Side(Entry(index, key), mine)
    ensures var j := Entry(index, key);
            DropHandler(index[key := WithSide(j, mine, Side(j, mine) + [h])], key, mine, h) == index
  {
    hide First, Without;
    var side := Side(Entry(index, key), mine);
    LastGoes(side, h);
  }

  lemma LastGoes(side: seq<Handler>, h: Handler)
    requires h !in side
    ensures First(side + [h], h) == |side| && Without(side + [h], |side|) == side
  {
    hide First;
    assert (side + [h])[..|side|] == side;
    FirstIs(side + [h], |side|, h);
  }

  /** With a handler that was not subscribed to the address, both maps are exactly as before. */
  lemma MaterializeThenForgetRestores<I>(k: Kinds, s: State<I>, i: I, a: Addr, h: Handler)
    requires Known(k, s) && Tidy(s) && i !in s.recs && k.home(a)
    requires KnownAt(s, a) && h !in HandlersAt(s, a)
    requires h !in SideAt(s, a, k.typeOf(h), k.mine(h))
    ensures var made := Materialize(k, s, i, a, h);
            && KnownAt(made, a)
            && Forget(k, made, i).infos == s.infos && Forget(k, made, i).index == s.index
  {
    var made := Materialize(k, s, i, a, h);
    MaterializeEffect(k, s, i, a, h, a, k.typeOf(h), k.mine(h));
    var list := InfosAt(s, a);
    assert HandlersAt(made, a)[..|list|] == HandlersAt(s, a);
    FirstIs(HandlersAt(made, a), |list|, h);
    DropMadeInfo(s.infos, a, i);
    DropMadeHandler(s.index, Key(a, k.typeOf(h)), k.mine(h), h);
  }

  // ---------------------------------------------------------------- how agreement is lost

  // A handler is subscribed twice to an address of this supervisor, as infos 1 and 2.

  function RecOf(k: Kinds, a: Addr, h: Handler): Rec {
    Rec(a, h, true, k.mine(h))
  }

  function Once(k: Kinds, a: Addr, h: Handler): World<int> {
    World(
      State(map[1 := RecOf(k, a, h)], map[a := [1]], map[Key(a, k.typeOf(h)) := WithSide(NOBODY, k.mine(h), [h])]),
      map[a := [1]])
  }

  function Twice(k: Kinds, a: Addr, h: Handler): World<int> {
    World(
      State(map[1 := RecOf(k, a, h), 2 := RecOf(k, a, h)], map[a := [1, 2]],
        map[Key(a, k.typeOf(h)) := WithSide(NOBODY, k.mine(h), [h, h])]),
      map[a := [1, 2]])
  }

  lemma SubscribedOnce(k: Kinds, a: Addr, h: Handler)
    requires k.home(a)
    ensures Moves(k, Blank<int>(), Materializes(1, a, h), Once(k, a, h))
    ensures SingleInv(k, Once(k, a, h))
  {
    var w0, w1 := Blank<int>(), Once(k, a, h);
    BlankIsFine<int>(k);
    var w := Step(k, w0, Materializes(1, a, h));
    assert [] + [1] == [1] && [] + [h] == [h];
    assert w.s.recs == w1.s.recs && w.s.infos == w1.s.infos && w.s.index == w1.s.index && w.live == w1.live;
    StepKeepsSingle(k, w0, Materializes(1, a, h));
  }

  lemma MadeTwice(k: Kinds, a: Addr, h: Handler)
    requires k.home(a) && Known(k, Once(k, a, h).s) && LiveKnown(Once(k, a, h))
    ensures Step(k, Once(k, a, h), Materializes(2, a, h)) == Twice(k, a, h)
  {
    hide Known, LiveKnown;
    var w2 := Twice(k, a, h);
    var w := Step(k, Once(k, a, h), Materializes(2, a, h));
    assert [1] + [2] == [1, 2] && [h] + [h] == [h, h];
    assert w.s.recs == w2.s.recs && w.s.infos == w2.s.infos && w.s.index == w2.s.index && w.live == w2.live;
  }

  lemma SubscribedTwice(k: Kinds, a: Addr, h: Handler)
    requires k.home(a)
    ensures Moves(k, Once(k, a, h), Materializes(2, a, h), Twice(k, a, h))
    ensures BagInv(k, Twice(k, a, h)) && InOrder(k, Twice(k, a, h).s)
  {
    hide Known, LiveKnown, Held, Bags, InOrder, Step;
    SubscribedOnce(k, a, h);
    var w1 := Once(k, a, h);
    MadeTwice(k, a, h);
    StepKeepsBags(k, w1, Materializes(2, a, h));
    StepKeepsOrderIff(k, w1, Materializes(2, a, h));
  }

  lemma HandlersTwice(k: Kinds, a: Addr, h: Handler)
    requires k.home(a)
    ensures KnownAt(Twice(k, a, h).s, a) && HandlersAt(Twice(k, a, h).s, a) == [h, h]
    ensures First([h, h], h) == 0 && IndexOf([1, 2], 1) == 0 && IndexOf([1, 2], 2) == 1
  {
    assert [1, 2][1..] == [2];
  }

  /** Replacing the handler of the second info replaces the first occurrence in the index. */
  lemma SecondReplacedLosesOrder(k: Kinds, a: Addr, h: Handler, h': Handler) returns (ws: seq<World<int>>)
    requires k.home(a) && h != h' && k.typeOf(h') == k.typeOf(h) && k.mine(h') == k.mine(h)
    ensures Path(k, ws, [Materializes(1, a, h), Materializes(2, a, h), Updates(2, h')])
    ensures Known(k, ws[3].s) && !InOrder(k, ws[3].s)
  {
    hide Known, LiveKnown, Step, InOrder, First, IndexOf;
    SubscribedOnce(k, a, h);
    SubscribedTwice(k, a, h);
    var w2, e := Twice(k, a, h), Updates(2, h');
    HandlersTwice(k, a, h);
    assert LiveAt(w2, a)[1] == 2 && InfosAt(w2.s, a) == [1, 2];
    StepKeepsOrderIff(k, w2, e);
    ws := [Blank<int>(), Once(k, a, h), w2, Step(k, w2, e)];
  }

  lemma ForgottenTwice(k: Kinds, a: Addr, h: Handler)
    requires k.home(a)
    ensures BagInv(k, Twice(k, a, h)) && Allowed(k, Twice(k, a, h), Forgets(2))
    ensures var w3 := Step(k, Twice(k, a, h), Forgets(2));
            BagInv(k, w3) && LiveAt(w3, a) == [1] && InfosAt(w3.s, a) == [2] && w3.s.recs == Twice(k, a, h).s.recs
  {
    hide First, IndexOf, DropHandler, Known, LiveKnown, Bags, Held;
    SubscribedTwice(k, a, h);
    HandlersTwice(k, a, h);
    var w2 := Twice(k, a, h);
    assert LiveAt(w2, a)[1] == 2 && InfosAt(w2.s, a) == [1, 2];
    StepKeepsBags(k, w2, Forgets(2));
    assert Without([1, 2], 0) == [2] && Without([1, 2], 1) == [1];
    DropInfoEffect(w2.s.recs, w2.s.infos, a, 0, a);
  }

  /** Forgetting the second info unlists the first; replacing the handler of the first, which is
      live, then changes the index alone. */
  lemma UnlistedReplacedLosesAgreement(k: Kinds, a: Addr, h: Handler, h': Handler) returns (ws: seq<World<int>>)
    requires k.home(a) && h != h' && k.typeOf(h') == k.typeOf(h) && k.mine(h') == k.mine(h)
    ensures Path(k, ws, [Materializes(1, a, h), Materializes(2, a, h), Forgets(2), Updates(1, h')])
    ensures Known(k, ws[4].s) && !Bags(k, ws[4].s)
  {
    hide Known, LiveKnown, Step, Bags, First, IndexOf, Held;
    SubscribedOnce(k, a, h);
    SubscribedTwice(k, a, h);
    ForgottenTwice(k, a, h);
    var w2, e := Twice(k, a, h), Updates(1, h');
    var w3 := Step(k, w2, Forgets(2));
    assert LiveAt(w3, a)[0] == 1;
    StepKeepsBagsIff(k, w3, e);
    ws := [Blank<int>(), Once(k, a, h), w2, w3, Step(k, w3, e)];
  }
}
