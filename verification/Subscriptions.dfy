/** The subscriptions of one supervisor, kept twice: `internal_infos` lists them by address,
    `mine_handlers` indexes the handlers by address and message type. What the two have to do
    with each other after any sequence of subscribing, replacing a handler and forgetting. */
module Subscriptions {

  type Addr = int
  type Handler = int
  type Type = int

  /** What the supervisor can tell of an address or a handler. */
  datatype Kinds = Kinds(home: Addr -> bool, typeOf: Handler -> Type, mine: Handler -> bool)

  datatype Key = Key(addr: Addr, kind: Type)

  datatype Joint = Joint(internal: seq<Handler>, external: seq<Handler>)

  const NOBODY := Joint([], [])

  /** The fields of a `subscription_info_t`; `update` replaces the handler. */
  datatype Rec = Rec(addr: Addr, handler: Handler, internalAddress: bool, internalHandler: bool)

  /** The two maps, and the fields of the infos made so far. */
  datatype State<I(==)> = State(recs: map<I, Rec>, infos: map<Addr, seq<I>>, index: map<Key, Joint>)

  // ---------------------------------------------------------------- lists of handlers

  /** Position of the first occurrence, or the length of the list. */
  function First(hs: seq<Handler>, h: Handler): (p: nat)
    ensures p <= |hs|
    ensures p < |hs| ==> hs[p] == h
    ensures forall i :: 0 <= i < p ==> hs[i] != h
    ensures p < |hs| <==> h in hs
  {
    if hs == [] || hs[0] == h then 0 else 1 + First(hs[1..], h)
  }

  function Without<T>(s: seq<T>, p: nat): seq<T> {
    if p < |s| then s[..p] + s[p + 1..] else s
  }

  function Side(j: Joint, internal: bool): seq<Handler> {
    if internal then j.internal else j.external
  }

  function WithSide(j: Joint, internal: bool, hs: seq<Handler>): Joint {
    if internal then j.(internal := hs) else j.(external := hs)
  }

  /** The handlers for one message type and one locality, in order. */
  function Select(k: Kinds, hs: seq<Handler>, kind: Type, mine: bool): seq<Handler> {
    if hs == [] then []
    else
      var last := hs[|hs| - 1];
      var rest := Select(k, hs[..|hs| - 1], kind, mine);
      if k.typeOf(last) == kind && k.mine(last) == mine then rest + [last] else rest
  }

  // ---------------------------------------------------------------- the operations

  function Listed<I>(infos: map<Addr, seq<I>>, a: Addr): seq<I> {
    if a in infos then infos[a] else []
  }

  function Entry(index: map<Key, Joint>, key: Key): Joint {
    if key in index then index[key] else NOBODY
  }

  function InfosAt<I>(s: State<I>, a: Addr): seq<I> {
    Listed(s.infos, a)
  }

  function JointAt<I>(s: State<I>, key: Key): Joint {
    Entry(s.index, key)
  }

  function Materialize<I>(k: Kinds, s: State<I>, i: I, a: Addr, h: Handler): State<I> {
    var s' := s.(recs := s.recs[i := Rec(a, h, k.home(a), k.mine(h))]);
    if !k.home(a) then s'
    else
      s'.(infos := s.infos[a := InfosAt(s, a) + [i]],
          index := AddHandler(s.index, Key(a, k.typeOf(h)), k.mine(h), h))
  }

  function AddHandler(index: map<Key, Joint>, key: Key, internal: bool, h: Handler): map<Key, Joint> {
    var j := Entry(index, key);
    index[key := WithSide(j, internal, Side(j, internal) + [h])]
  }

  /** Drops the first occurrence of the handler, and the entry when both sides are empty. */
  function DropHandler(index: map<Key, Joint>, key: Key, internal: bool, h: Handler): map<Key, Joint> {
    if key !in index then index
    else
      var hs := Side(index[key], internal);
      var j := WithSide(index[key], internal, Without(hs, First(hs, h)));
      if j == NOBODY then index - {key} else index[key := j]
  }

  function HandlersOf<I>(recs: map<I, Rec>, list: seq<I>): (hs: seq<Handler>)
    requires forall i :: i in list ==> i in recs
    ensures |hs| == |list|
  {
    seq(|list|, n requires 0 <= n < |list| => recs[list[n]].handler)
  }

  function DropInfo<I>(infos: map<Addr, seq<I>>, a: Addr, p: nat): map<Addr, seq<I>> {
    if a !in infos then infos
    else
      var list := Without(infos[a], p);
      if list == [] then infos - {a} else infos[a := list]
  }

  /** The list at the address holds known infos of that address. */
  predicate KnownAt<I>(s: State<I>, a: Addr) {
    forall i :: i in InfosAt(s, a) ==> i in s.recs && s.recs[i].addr == a
  }

  function HandlersAt<I>(s: State<I>, a: Addr): seq<Handler>
    requires KnownAt(s, a)
  {
    HandlersOf(s.recs, InfosAt(s, a))
  }

  /** The entry that is dropped is the first with the same handler object, which need not be
      the given info. */
  function Forget<I>(k: Kinds, s: State<I>, i: I): State<I>
    requires i in s.recs && KnownAt(s, s.recs[i].addr)
  {
    var r := s.recs[i];
    if !r.internalAddress then s
    else
      s.(infos := DropInfo(s.infos, r.addr, First(HandlersAt(s, r.addr), r.handler)),
         index := DropHandler(s.index, Key(r.addr, k.typeOf(r.handler)), r.internalHandler, r.handler))
  }

  function SwapHandler(index: map<Key, Joint>, key: Key, internal: bool, h: Handler, h': Handler): map<Key, Joint> {
    if key !in index then index
    else
      var hs := Side(index[key], internal);
      if h in hs then index[key := WithSide(index[key], internal, hs[First(hs, h) := h'])] else index
  }

  function Update<I>(k: Kinds, s: State<I>, i: I, h': Handler): State<I>
    requires i in s.recs
  {
    var r := s.recs[i];
    s.(recs := s.recs[i := r.(handler := h')],
       index := if k.home(r.addr)
                then SwapHandler(s.index, Key(r.addr, k.typeOf(r.handler)), k.mine(r.handler), r.handler, h')
                else s.index)
  }

  /** A pointer to the entry, or null. */
  datatype Recipients = Null | Found(joint: Joint)

  function GetRecipients<I>(s: State<I>, a: Addr, kind: Type): Recipients {
    if Key(a, kind) in s.index then Found(s.index[Key(a, kind)]) else Null
  }

  // ---------------------------------------------------------------- selecting from lists

  lemma {:induction false} SelectConcat(k: Kinds, a: seq<Handler>, b: seq<Handler>, kind: Type, mine: bool)
    ensures Select(k, a + b, kind, mine) == Select(k, a, kind, mine) + Select(k, b, kind, mine)
    decreases |b|
  {
    if b == [] {
      assert a + b == a;
    } else {
      assert (a + b)[..|a + b| - 1] == a + b[..|b| - 1];
      SelectConcat(k, a, b[..|b| - 1], kind, mine);
    }
  }

  predicate Fits(k: Kinds, h: Handler, kind: Type, mine: bool) {
    k.typeOf(h) == kind && k.mine(h) == mine
  }

  lemma SelectOne(k: Kinds, h: Handler, kind: Type, mine: bool)
    ensures Select(k, [h], kind, mine) == if Fits(k, h, kind, mine) then [h] else []
  {
    assert Select(k, [h][..0], kind, mine) == [];
  }

  lemma {:induction false} SelectMembers(k: Kinds, hs: seq<Handler>, kind: Type, mine: bool, h: Handler)
    ensures h in Select(k, hs, kind, mine) <==> h in hs && Fits(k, h, kind, mine)
  {
    if hs != [] {
      SelectMembers(k, hs[..|hs| - 1], kind, mine, h);
      assert hs == hs[..|hs| - 1] + [hs[|hs| - 1]];
    }
  }

  /** Cuts a selection at position `p`. */
  lemma SelectAround(k: Kinds, hs: seq<Handler>, p: nat, h: Handler, kind: Type, mine: bool)
    requires p < |hs|
    ensures Select(k, hs[p := h], kind, mine) ==
            Select(k, hs[..p], kind, mine) + (if Fits(k, h, kind, mine) then [h] else []) +
            Select(k, hs[p + 1..], kind, mine)
    ensures Select(k, Without(hs, p), kind, mine) ==
            Select(k, hs[..p], kind, mine) + Select(k, hs[p + 1..], kind, mine)
  {
    assert hs[p := h] == hs[..p] + [h] + hs[p + 1..];
    SelectConcat(k, hs[..p] + [h], hs[p + 1..], kind, mine);
    SelectConcat(k, hs[..p], [h], kind, mine);
    SelectConcat(k, hs[..p], hs[p + 1..], kind, mine);
    SelectOne(k, h, kind, mine);
  }

  lemma FirstIs(hs: seq<Handler>, p: nat, h: Handler)
    requires p < |hs| && hs[p] == h && h !in hs[..p]
    ensures First(hs, h) == p
  {
    forall i | 0 <= i < p ensures hs[i] != h {
      assert hs[..p][i] == hs[i];
    }
  }

  /** Dropping the first occurrence of a handler and selecting can be exchanged. */
  lemma SelectWithout(k: Kinds, hs: seq<Handler>, h: Handler, kind: Type, mine: bool)
    requires h in hs
    ensures var sel := Select(k, hs, kind, mine);
            Select(k, Without(hs, First(hs, h)), kind, mine) ==
            if Fits(k, h, kind, mine) then Without(sel, First(sel, h)) else sel
  {
    var p := First(hs, h);
    SelectAround(k, hs, p, h, kind, mine);
    assert hs[p := h] == hs;
    if Fits(k, h, kind, mine) {
      var before, after := Select(k, hs[..p], kind, mine), Select(k, hs[p + 1..], kind, mine);
      SelectMembers(k, hs[..p], kind, mine, h);
      assert (before + [h] + after)[..|before|] == before;
      FirstIs(before + [h] + after, |before|, h);
    }
  }

  /** Replacing a handler by one of its kind replaces it in the selection. */
  lemma SelectSwap(k: Kinds, hs: seq<Handler>, p: nat, h': Handler, kind: Type, mine: bool) returns (q: nat)
    requires p < |hs|
    requires k.typeOf(hs[p]) == k.typeOf(h') && k.mine(hs[p]) == k.mine(h')
    ensures var sel := Select(k, hs, kind, mine);
            && (!Fits(k, h', kind, mine) ==> Select(k, hs[p := h'], kind, mine) == sel)
            && (Fits(k, h', kind, mine) ==>
                  && q < |sel| && sel[q] == hs[p] && sel[..q] == Select(k, hs[..p], kind, mine)
                  && Select(k, hs[p := h'], kind, mine) == sel[q := h'])
  {
    hide Select;
    SelectAround(k, hs, p, h', kind, mine);
    SelectAround(k, hs, p, hs[p], kind, mine);
    assert hs[p := hs[p]] == hs;
    q := |Select(k, hs[..p], kind, mine)|;
  }

  lemma SwapMultiset(hs: seq<Handler>, p: nat, h': Handler)
    requires p < |hs|
    ensures multiset(hs[p := h']) == multiset(hs) - multiset{hs[p]} + multiset{h'}
  {}

  lemma WithoutMultiset<T>(s: seq<T>, p: nat)
    requires p < |s|
    ensures multiset(Without(s, p)) == multiset(s) - multiset{s[p]}
  {
    assert s == s[..p] + [s[p]] + s[p + 1..];
  }

  /** `update` replaces the first occurrence in the index; in the list the handler stands at
      `p`. The two agree in order if and only if that is the first occurrence in the list. */
  lemma SwapAgrees(k: Kinds, hs: seq<Handler>, p: nat, h': Handler)
    requires p < |hs|
    requires k.typeOf(hs[p]) == k.typeOf(h') && k.mine(hs[p]) == k.mine(h')
    ensures var h := hs[p];
            var sel := Select(k, hs, k.typeOf(h), k.mine(h));
            && First(sel, h) < |sel|
            && (Select(k, hs[p := h'], k.typeOf(h), k.mine(h)) == sel[First(sel, h) := h'] <==>
                p == First(hs, h) || h == h')
  {
    var h := hs[p];
    var sel := Select(k, hs, k.typeOf(h), k.mine(h));
    var q := SelectSwap(k, hs, p, h', k.typeOf(h), k.mine(h));
    SelectMembers(k, hs[..p], k.typeOf(h), k.mine(h), h);
    if p == First(hs, h) {
      FirstIs(sel, q, h);
    } else {
      assert h in hs[..p] by {
        if h !in hs[..p] { FirstIs(hs, p, h); }
      }
      var f := First(sel, h);
      assert f < q by {
        assert h in sel[..q];
      }
      assert sel[q := h'][f] == h && sel[f := h'][f] == h';
      if h == h' {
        assert sel[q := h'] == sel && sel[f := h'] == sel;
      }
    }
  }

  // ---------------------------------------------------------------- effects of the operations

  function SideAt<I>(s: State<I>, a: Addr, kind: Type, mine: bool): seq<Handler> {
    Side(JointAt(s, Key(a, kind)), mine)
  }

  predicate Classified(k: Kinds, r: Rec) {
    r.internalAddress == k.home(r.addr) && r.internalHandler == k.mine(r.handler)
  }

  /** Infos remember where they belong; lists hold each info at most once, under its address. */
  ghost predicate Known<I>(k: Kinds, s: State<I>) {
    && (forall a :: KnownAt(s, a))
    && (forall i :: i in s.recs ==> Classified(k, s.recs[i]))
    && (forall a :: a in s.infos ==> k.home(a))
    && (forall a, m, n :: a in s.infos && 0 <= m < n < |s.infos[a]| ==> s.infos[a][m] != s.infos[a][n])
  }

  lemma MaterializeEffect<I>(k: Kinds, s: State<I>, i: I, a: Addr, h: Handler, b: Addr, kind: Type, mine: bool)
    requires i !in s.recs && KnownAt(s, b)
    ensures var s' := Materialize(k, s, i, a, h);
            && KnownAt(s', b)
            && HandlersAt(s', b) ==
               (if k.home(a) && b == a then HandlersAt(s, b) + [h] else HandlersAt(s, b))
            && SideAt(s', b, kind, mine) ==
               (if k.home(a) && b == a && Fits(k, h, kind, mine) then SideAt(s, b, kind, mine) + [h]
                else SideAt(s, b, kind, mine))
  {}

  lemma DropHandlerEffect(index: map<Key, Joint>, key: Key, internal: bool, h: Handler, key': Key, mine: bool)
    ensures var hs := Side(Entry(index, key'), mine);
            Side(Entry(DropHandler(index, key, internal, h), key'), mine) ==
            if key' == key && mine == internal then Without(hs, First(hs, h)) else hs
  {}

  lemma HandlersWithout<I>(recs: map<I, Rec>, list: seq<I>, p: nat)
    requires forall i :: i in list ==> i in recs
    ensures forall i :: i in Without(list, p) ==> i in list
    ensures HandlersOf(recs, Without(list, p)) == Without(HandlersOf(recs, list), p)
  {
    WithoutAt(list, p);
    WithoutAt(HandlersOf(recs, list), p);
    hide Without;
  }

  lemma WithoutAt<T>(s: seq<T>, p: nat)
    ensures p < |s| ==> |Without(s, p)| == |s| - 1
    ensures p >= |s| ==> Without(s, p) == s
    ensures forall n :: 0 <= n < |Without(s, p)| ==> Without(s, p)[n] == s[if n < p then n else n + 1]
  {}

  lemma DropInfoEffect<I>(recs: map<I, Rec>, infos: map<Addr, seq<I>>, a: Addr, p: nat, b: Addr)
    requires forall i :: i in Listed(infos, b) ==> i in recs
    ensures Listed(DropInfo(infos, a, p), b) == if b == a then Without(Listed(infos, b), p) else Listed(infos, b)
    ensures forall i :: i in Without(Listed(infos, b), p) ==> i in Listed(infos, b)
    ensures HandlersOf(recs, Without(Listed(infos, b), p)) == Without(HandlersOf(recs, Listed(infos, b)), p)
  {
    HandlersWithout(recs, Listed(infos, b), p);
  }

  lemma ForgetEffect<I>(k: Kinds, s: State<I>, i: I, b: Addr, kind: Type, mine: bool)
    requires Known(k, s) && i in s.recs
    ensures KnownAt(s, s.recs[i].addr) && KnownAt(s, b)
    ensures var r := s.recs[i];
            var s' := Forget(k, s, i);
            && KnownAt(s', b)
            && HandlersAt(s', b) ==
               (if r.internalAddress && b == r.addr then Without(HandlersAt(s, b), First(HandlersAt(s, b), r.handler))
                else HandlersAt(s, b))
            && SideAt(s', b, kind, mine) ==
               (if r.internalAddress && b == r.addr && Fits(k, r.handler, kind, mine)
                then Without(SideAt(s, b, kind, mine), First(SideAt(s, b, kind, mine), r.handler))
                else SideAt(s, b, kind, mine))
  {
    hide First, DropHandler, DropInfo;
    var r := s.recs[i];
    assert KnownAt(s, r.addr) && KnownAt(s, b);
    if r.internalAddress {
      DropHandlerEffect(s.index, Key(r.addr, k.typeOf(r.handler)), r.internalHandler, r.handler, Key(b, kind), mine);
      DropInfoEffect(s.recs, s.infos, r.addr, First(HandlersAt(s, r.addr), r.handler), b);
    }
  }

  lemma UpdateEffect<I>(k: Kinds, s: State<I>, i: I, h': Handler, b: Addr, kind: Type, mine: bool)
    requires i in s.recs && KnownAt(s, b)
    ensures var r := s.recs[i];
            var s' := Update(k, s, i, h');
            var hs := SideAt(s, b, kind, mine);
            && KnownAt(s', b)
            && (i !in InfosAt(s, b) ==> HandlersAt(s', b) == HandlersAt(s, b))
            && SideAt(s', b, kind, mine) ==
               (if k.home(r.addr) && b == r.addr && Fits(k, r.handler, kind, mine) && r.handler in hs
                then hs[First(hs, r.handler) := h']
                else hs)
  {}

  // ---------------------------------------------------------------- runs

  /** The state, and the infos its callers hold: made, and not yet given to `forget`. */
  datatype World<I(==)> = World(s: State<I>, live: map<Addr, seq<I>>)

  datatype Event<I> = Materializes(i: I, a: Addr, h: Handler) | Updates(i: I, h: Handler) | Forgets(i: I)

  function LiveAt<I>(w: World<I>, a: Addr): seq<I> {
    Listed(w.live, a)
  }

  function IndexOf<T(==)>(s: seq<T>, x: T): (p: nat)
    ensures p <= |s|
    ensures p < |s| ==> s[p] == x
    ensures p < |s| <==> x in s
  {
    if s == [] || s[0] == x then 0 else 1 + IndexOf(s[1..], x)
  }

  /** Infos are new when made, and only live ones are updated or forgotten; `update` wraps the
      handler, so its message type and its actor stay. */
  predicate Allowed<I>(k: Kinds, w: World<I>, e: Event<I>) {
    match e
    case Materializes(i, _, _) => i !in w.s.recs
    case Updates(i, h) =>
      && i in w.s.recs && i in LiveAt(w, w.s.recs[i].addr)
      && k.typeOf(h) == k.typeOf(w.s.recs[i].handler) && k.mine(h) == k.mine(w.s.recs[i].handler)
    case Forgets(i) => i in w.s.recs && i in LiveAt(w, w.s.recs[i].addr)
  }

  function Step<I>(k: Kinds, w: World<I>, e: Event<I>): World<I>
    requires Allowed(k, w, e) && Known(k, w.s)
  {
    match e
    case Materializes(i, a, h) =>
      World(Materialize(k, w.s, i, a, h), w.live[a := LiveAt(w, a) + [i]])
    case Updates(i, h) => World(Update(k, w.s, i, h), w.live)
    case Forgets(i) =>
      var a := w.s.recs[i].addr;
      World(Forget(k, w.s, i), w.live[a := Without(LiveAt(w, a), IndexOf(LiveAt(w, a), i))])
  }

  predicate LiveKnownAt<I>(w: World<I>, a: Addr) {
    forall i :: i in LiveAt(w, a) ==> i in w.s.recs && w.s.recs[i].addr == a
  }

  predicate Distinct<T(==)>(s: seq<T>) {
    forall m, n :: 0 <= m < n < |s| ==> s[m] != s[n]
  }

  ghost predicate LiveKnown<I>(w: World<I>) {
    && (forall a :: LiveKnownAt(w, a))
    && (forall a :: Distinct(LiveAt(w, a)))
  }

  function LiveHandlersAt<I>(w: World<I>, a: Addr): seq<Handler>
    requires LiveKnownAt(w, a)
  {
    HandlersOf(w.s.recs, LiveAt(w, a))
  }

  /** No map keeps an empty entry. */
  predicate Tidy<I>(s: State<I>) {
    && (forall a :: a in s.infos ==> s.infos[a] != [])
    && (forall key :: key in s.index ==> s.index[key] != NOBODY)
  }

  lemma MaterializeKnown<I>(k: Kinds, s: State<I>, i: I, a: Addr, h: Handler)
    requires Known(k, s) && i !in s.recs
    ensures Known(k, Materialize(k, s, i, a, h))
  {
    forall b ensures KnownAt(Materialize(k, s, i, a, h), b) {
      assert KnownAt(s, b);
    }
    assert KnownAt(s, a);
  }

  lemma ForgetKnown<I>(k: Kinds, s: State<I>, i: I)
    requires Known(k, s) && i in s.recs
    ensures KnownAt(s, s.recs[i].addr) && Known(k, Forget(k, s, i))
  {
    hide First, DropHandler;
    var a := s.recs[i].addr;
    assert KnownAt(s, a);
    forall b ensures KnownAt(Forget(k, s, i), b) {
      assert KnownAt(s, b);
    }
    if s.recs[i].internalAddress {
      DropKeepsDistinct(s.infos, a, First(HandlersAt(s, a), s.recs[i].handler));
    }
  }

  lemma DropKeepsDistinct<I>(infos: map<Addr, seq<I>>, a: Addr, p: nat)
    requires forall b, m, n :: b in infos && 0 <= m < n < |infos[b]| ==> infos[b][m] != infos[b][n]
    ensures var infos' := DropInfo(infos, a, p);
            && infos'.Keys <= infos.Keys
            && forall b, m, n :: b in infos' && 0 <= m < n < |infos'[b]| ==> infos'[b][m] != infos'[b][n]
  {
    var infos' := DropInfo(infos, a, p);
    forall b, m, n | b in infos' && 0 <= m < n < |infos'[b]| ensures infos'[b][m] != infos'[b][n] {
      if b == a && p < |infos[a]| {
        assert infos'[a][m] == infos[a][if m < p then m else m + 1];
        assert infos'[a][n] == infos[a][if n < p then n else n + 1];
      }
    }
  }

  lemma UpdateKnown<I>(k: Kinds, s: State<I>, i: I, h': Handler)
    requires Known(k, s) && i in s.recs && k.mine(h') == k.mine(s.recs[i].handler)
    ensures Known(k, Update(k, s, i, h'))
  {
    forall b ensures KnownAt(Update(k, s, i, h'), b) {
      assert KnownAt(s, b);
    }
  }

  lemma StepKeepsKnown<I>(k: Kinds, w: World<I>, e: Event<I>)
    requires Known(k, w.s) && LiveKnown(w) && Allowed(k, w, e)
    ensures Known(k, Step(k, w, e).s)
  {
    match e
    case Materializes(i, a, h) => MaterializeKnown(k, w.s, i, a, h);
    case Updates(i, h) => UpdateKnown(k, w.s, i, h);
    case Forgets(i) => ForgetKnown(k, w.s, i);
  }

  lemma StepKeepsLiveKnown<I>(k: Kinds, w: World<I>, e: Event<I>)
    requires Known(k, w.s) && LiveKnown(w) && Allowed(k, w, e)
    ensures LiveKnown(Step(k, w, e))
  {
    var w' := Step(k, w, e);
    forall a ensures LiveKnownAt(w', a) && Distinct(LiveAt(w', a)) {
      assert LiveKnownAt(w, a) && Distinct(LiveAt(w, a));
    }
  }

  lemma StepKeepsTidy<I>(k: Kinds, w: World<I>, e: Event<I>)
    requires Known(k, w.s) && LiveKnown(w) && Allowed(k, w, e) && Tidy(w.s)
    ensures Tidy(Step(k, w, e).s)
  {
  }

  // ---------------------------------------------------------------- agreement as multisets

  predicate BagAt<I>(k: Kinds, s: State<I>, a: Addr, kind: Type, mine: bool)
    requires KnownAt(s, a)
  {
    multiset(SideAt(s, a, kind, mine)) == multiset(Select(k, HandlersAt(s, a), kind, mine))
  }

  /** For every address and message type the index has the handlers of the list. */
  ghost predicate Bags<I>(k: Kinds, s: State<I>)
    requires Known(k, s)
  {
    forall a, kind, mine :: BagAt(k, s, a, kind, mine)
  }

  /** What is listed at an address of this supervisor is what its callers hold. */
  predicate HeldAt<I>(k: Kinds, w: World<I>, a: Addr)
    requires KnownAt(w.s, a) && LiveKnownAt(w, a)
  {
    k.home(a) ==> multiset(LiveHandlersAt(w, a)) == multiset(HandlersAt(w.s, a))
  }

  ghost predicate Held<I>(k: Kinds, w: World<I>)
    requires Known(k, w.s) && LiveKnown(w)
  {
    forall a :: HeldAt(k, w, a)
  }

  /** A handler is replaced only through the info that is listed. */
  predicate Careful<I>(w: World<I>, e: Event<I>) {
    e.Updates? && e.i in w.s.recs ==>
      e.i in InfosAt(w.s, w.s.recs[e.i].addr) || e.h == w.s.recs[e.i].handler || !w.s.recs[e.i].internalAddress
  }

  lemma SwapOf<I>(recs: map<I, Rec>, list: seq<I>, i: I, h': Handler)
    requires forall x :: x in list ==> x in recs
    requires i in list && Distinct(list)
    ensures HandlersOf(recs[i := recs[i].(handler := h')], list) == HandlersOf(recs, list)[IndexOf(list, i) := h']
    ensures HandlersOf(recs, list)[IndexOf(list, i)] == recs[i].handler
  {}

  lemma MaterializeBag<I>(k: Kinds, s: State<I>, i: I, a: Addr, h: Handler, b: Addr, kind: Type, mine: bool)
    requires i !in s.recs && KnownAt(s, b) && BagAt(k, s, b, kind, mine)
    ensures KnownAt(Materialize(k, s, i, a, h), b) && BagAt(k, Materialize(k, s, i, a, h), b, kind, mine)
  {
    MaterializeEffect(k, s, i, a, h, b, kind, mine);
    SelectConcat(k, HandlersAt(s, b), [h], kind, mine);
    SelectOne(k, h, kind, mine);
  }

  lemma ForgetBag<I>(k: Kinds, s: State<I>, i: I, b: Addr, kind: Type, mine: bool)
    requires Known(k, s) && i in s.recs && BagAt(k, s, b, kind, mine)
    requires s.recs[i].internalAddress ==> s.recs[i].handler in HandlersAt(s, s.recs[i].addr)
    ensures KnownAt(s, s.recs[i].addr)
    ensures KnownAt(Forget(k, s, i), b) && BagAt(k, Forget(k, s, i), b, kind, mine)
  {
    var r := s.recs[i];
    ForgetEffect(k, s, i, b, kind, mine);
    if r.internalAddress && b == r.addr {
      var hs, side := HandlersAt(s, b), SideAt(s, b, kind, mine);
      var sel := Select(k, hs, kind, mine);
      SelectWithout(k, hs, r.handler, kind, mine);
      if Fits(k, r.handler, kind, mine) {
        SelectMembers(k, hs, kind, mine, r.handler);
        assert r.handler in multiset(sel);
        WithoutMultiset(side, First(side, r.handler));
        WithoutMultiset(sel, First(sel, r.handler));
      }
    }
  }

  lemma UpdateListed<I>(k: Kinds, s: State<I>, i: I, h': Handler)
    requires Known(k, s) && i in s.recs && i in InfosAt(s, s.recs[i].addr)
    ensures var a := s.recs[i].addr;
            var p := IndexOf(InfosAt(s, a), i);
            && k.home(a)
            && KnownAt(Update(k, s, i, h'), a)
            && HandlersAt(s, a)[p] == s.recs[i].handler
            && HandlersAt(Update(k, s, i, h'), a) == HandlersAt(s, a)[p := h']
  {
    assert KnownAt(s, s.recs[i].addr);
    SwapOf(s.recs, InfosAt(s, s.recs[i].addr), i, h');
  }

  lemma SwapBag(k: Kinds, hs: seq<Handler>, p: nat, h': Handler, side: seq<Handler>, kind: Type, mine: bool)
    requires p < |hs| && k.typeOf(hs[p]) == k.typeOf(h') && k.mine(hs[p]) == k.mine(h')
    requires multiset(side) == multiset(Select(k, hs, kind, mine))
    ensures var swapped := Select(k, hs[p := h'], kind, mine);
            if Fits(k, h', kind, mine)
            then First(side, hs[p]) < |side| && multiset(side[First(side, hs[p]) := h']) == multiset(swapped)
            else multiset(side) == multiset(swapped)
  {
    var q := SelectSwap(k, hs, p, h', kind, mine);
    if Fits(k, h', kind, mine) {
      var sel := Select(k, hs, kind, mine);
      assert hs[p] in multiset(sel);
      SwapMultiset(side, First(side, hs[p]), h');
      SwapMultiset(sel, q, h');
    }
  }

  lemma UpdateBag<I>(k: Kinds, s: State<I>, i: I, h': Handler, b: Addr, kind: Type, mine: bool)
    requires Known(k, s) && i in s.recs && BagAt(k, s, b, kind, mine)
    requires k.typeOf(h') == k.typeOf(s.recs[i].handler) && k.mine(h') == k.mine(s.recs[i].handler)
    requires i in InfosAt(s, s.recs[i].addr)
    ensures KnownAt(Update(k, s, i, h'), b) && BagAt(k, Update(k, s, i, h'), b, kind, mine)
  {
    var r := s.recs[i];
    var h := r.handler;
    UpdateEffect(k, s, i, h', b, kind, mine);
    assert KnownAt(s, b);
    if b == r.addr {
      UpdateListed(k, s, i, h');
      var hs, side := HandlersAt(s, b), SideAt(s, b, kind, mine);
      SwapBag(k, hs, IndexOf(InfosAt(s, b), i), h', side, kind, mine);
    }
  }

  lemma MaterializeLive<I>(k: Kinds, w: World<I>, e: Event<I>, a: Addr)
    requires Known(k, w.s) && Allowed(k, w, e) && e.Materializes? && LiveKnownAt(w, a)
    ensures LiveKnownAt(Step(k, w, e), a)
    ensures LiveHandlersAt(Step(k, w, e), a) ==
            if a == e.a then LiveHandlersAt(w, a) + [e.h] else LiveHandlersAt(w, a)
  {
    hide Known;
  }

  lemma MaterializeHeld<I>(k: Kinds, w: World<I>, e: Event<I>, a: Addr)
    requires Known(k, w.s) && LiveKnown(w) && Allowed(k, w, e) && e.Materializes?
    requires KnownAt(w.s, a) && LiveKnownAt(w, a) && HeldAt(k, w, a)
    ensures KnownAt(Step(k, w, e).s, a) && LiveKnownAt(Step(k, w, e), a) && HeldAt(k, Step(k, w, e), a)
  {
    hide Known, LiveKnown;
    MaterializeEffect(k, w.s, e.i, e.a, e.h, a, 0, true);
    MaterializeLive(k, w, e, a);
  }

  lemma ForgetLive<I>(k: Kinds, w: World<I>, i: I, a: Addr)
    requires Known(k, w.s) && LiveKnown(w) && Allowed(k, w, Forgets(i)) && LiveKnownAt(w, a)
    ensures var w' := Step(k, w, Forgets(i));
            var q := IndexOf(LiveAt(w, a), i);
            && LiveKnownAt(w', a)
            && (a == w.s.recs[i].addr ==> q < |LiveAt(w, a)| && LiveHandlersAt(w, a)[q] == w.s.recs[i].handler)
            && LiveHandlersAt(w', a) ==
               if a == w.s.recs[i].addr then Without(LiveHandlersAt(w, a), q) else LiveHandlersAt(w, a)
  {
    var w' := Step(k, w, Forgets(i));
    var q := IndexOf(LiveAt(w, a), i);
    assert w'.s.recs == w.s.recs;
    assert LiveAt(w', a) == if a == w.s.recs[i].addr then Without(LiveAt(w, a), q) else LiveAt(w, a);
    HandlersWithout(w.s.recs, LiveAt(w, a), q);
  }

  lemma BothDrop(live: seq<Handler>, hs: seq<Handler>, q: nat, h: Handler)
    requires q < |live| && live[q] == h && multiset(live) == multiset(hs)
    ensures multiset(Without(live, q)) == multiset(Without(hs, First(hs, h)))
  {
    assert h in multiset(hs);
    WithoutMultiset(live, q);
    WithoutMultiset(hs, First(hs, h));
  }

  lemma BothSwap(live: seq<Handler>, hs: seq<Handler>, q: nat, p: nat, h': Handler)
    requires q < |live| && p < |hs| && live[q] == hs[p] && multiset(live) == multiset(hs)
    ensures multiset(live[q := h']) == multiset(hs[p := h'])
  {
    SwapMultiset(live, q, h');
    SwapMultiset(hs, p, h');
  }

  lemma ForgetHeld<I>(k: Kinds, w: World<I>, e: Event<I>, a: Addr)
    requires Known(k, w.s) && LiveKnown(w) && Allowed(k, w, e) && e.Forgets?
    requires KnownAt(w.s, a) && LiveKnownAt(w, a) && HeldAt(k, w, a)
    ensures KnownAt(Step(k, w, e).s, a) && LiveKnownAt(Step(k, w, e), a) && HeldAt(k, Step(k, w, e), a)
  {
    var r := w.s.recs[e.i];
    ForgetEffect(k, w.s, e.i, a, 0, true);
    ForgetLive(k, w, e.i, a);
    if a == r.addr && k.home(a) {
      BothDrop(LiveHandlersAt(w, a), HandlersAt(w.s, a), IndexOf(LiveAt(w, a), e.i), r.handler);
    }
  }

  lemma UpdateLive<I>(k: Kinds, w: World<I>, i: I, h': Handler, a: Addr)
    requires Known(k, w.s) && LiveKnown(w) && Allowed(k, w, Updates(i, h')) && LiveKnownAt(w, a)
    ensures var w' := Step(k, w, Updates(i, h'));
            var q := IndexOf(LiveAt(w, a), i);
            && LiveKnownAt(w', a)
            && (a == w.s.recs[i].addr ==> q < |LiveAt(w, a)| && LiveHandlersAt(w, a)[q] == w.s.recs[i].handler)
            && LiveHandlersAt(w', a) ==
               if a == w.s.recs[i].addr then LiveHandlersAt(w, a)[q := h'] else LiveHandlersAt(w, a)
  {
    if a == w.s.recs[i].addr {
      SwapOf(w.s.recs, LiveAt(w, a), i, h');
    }
  }

  lemma UpdateHeld<I>(k: Kinds, w: World<I>, e: Event<I>, a: Addr)
    requires Known(k, w.s) && LiveKnown(w) && Allowed(k, w, e) && e.Updates?
    requires e.i in InfosAt(w.s, w.s.recs[e.i].addr) || !k.home(w.s.recs[e.i].addr)
    requires KnownAt(w.s, a) && LiveKnownAt(w, a) && HeldAt(k, w, a)
    ensures KnownAt(Step(k, w, e).s, a) && LiveKnownAt(Step(k, w, e), a) && HeldAt(k, Step(k, w, e), a)
  {
    UpdateEffect(k, w.s, e.i, e.h, a, 0, true);
    UpdateLive(k, w, e.i, e.h, a);
    if a == w.s.recs[e.i].addr && k.home(a) {
      UpdateListed(k, w.s, e.i, e.h);
      BothSwap(LiveHandlersAt(w, a), HandlersAt(w.s, a), IndexOf(LiveAt(w, a), e.i),
        IndexOf(InfosAt(w.s, a), e.i), e.h);
    }
  }

  ghost predicate BagInv<I>(k: Kinds, w: World<I>) {
    Known(k, w.s) && LiveKnown(w) && Held(k, w) && Bags(k, w.s)
  }

  /** Replacing a handler by itself changes nothing. */
  lemma UpdateByItself<I>(k: Kinds, w: World<I>, i: I)
    requires i in w.s.recs && Allowed(k, w, Updates(i, w.s.recs[i].handler)) && Known(k, w.s)
    ensures Step(k, w, Updates(i, w.s.recs[i].handler)) == w
  {
    var r := w.s.recs[i];
    var s' := Update(k, w.s, i, r.handler);
    assert s'.recs == w.s.recs;
    var key := Key(r.addr, k.typeOf(r.handler));
    var hs := Side(Entry(w.s.index, key), k.mine(r.handler));
    if r.handler in hs {
      assert hs[First(hs, r.handler) := r.handler] == hs;
    }
    assert s'.index == w.s.index;
  }

  lemma StepKeepsBags<I>(k: Kinds, w: World<I>, e: Event<I>)
    requires BagInv(k, w) && Allowed(k, w, e) && Careful(w, e)
    ensures BagInv(k, Step(k, w, e))
  {
    var w' := Step(k, w, e);
    StepKeepsKnown(k, w, e);
    StepKeepsLiveKnown(k, w, e);
    if e.Updates? && e.h == w.s.recs[e.i].handler {
      UpdateByItself(k, w, e.i);
    } else {
      forall a ensures HeldAt(k, w', a) {
        assert KnownAt(w.s, a) && LiveKnownAt(w, a) && HeldAt(k, w, a);
        match e
        case Materializes(_, _, _) => MaterializeHeld(k, w, e, a);
        case Updates(_, _) => UpdateHeld(k, w, e, a);
        case Forgets(_) => ForgetHeld(k, w, e, a);
      }
      forall a, kind, mine ensures BagAt(k, w'.s, a, kind, mine) {
        StepBagAt(k, w, e, a, kind, mine);
      }
    }
  }

  lemma LiveIsListed<I>(k: Kinds, w: World<I>, i: I)
    requires BagInv(k, w) && i in w.s.recs && i in LiveAt(w, w.s.recs[i].addr) && k.home(w.s.recs[i].addr)
    ensures KnownAt(w.s, w.s.recs[i].addr)
    ensures w.s.recs[i].handler in HandlersAt(w.s, w.s.recs[i].addr)
  {
    var a := w.s.recs[i].addr;
    assert KnownAt(w.s, a) && LiveKnownAt(w, a) && HeldAt(k, w, a);
    assert LiveHandlersAt(w, a)[IndexOf(LiveAt(w, a), i)] == w.s.recs[i].handler;
    assert w.s.recs[i].handler in multiset(HandlersAt(w.s, a));
  }

  lemma StepBagAt<I>(k: Kinds, w: World<I>, e: Event<I>, a: Addr, kind: Type, mine: bool)
    requires BagInv(k, w) && Allowed(k, w, e)
    requires e.Updates? ==>
               e.i in InfosAt(w.s, w.s.recs[e.i].addr) || !k.home(w.s.recs[e.i].addr)
    ensures KnownAt(Step(k, w, e).s, a) && BagAt(k, Step(k, w, e).s, a, kind, mine)
  {
    assert KnownAt(w.s, a) && BagAt(k, w.s, a, kind, mine);
    match e
    case Materializes(i, b, h) => MaterializeBag(k, w.s, i, b, h, a, kind, mine);
    case Updates(i, h) =>
      if k.home(w.s.recs[i].addr) {
        UpdateBag(k, w.s, i, h, a, kind, mine);
      } else {
        UpdateEffect(k, w.s, i, h, a, kind, mine);
      }
    case Forgets(i) =>
      if w.s.recs[i].internalAddress { LiveIsListed(k, w, i); }
      ForgetBag(k, w.s, i, a, kind, mine);
  }

  lemma ChangedMultiset(side: seq<Handler>, h: Handler, h': Handler)
    requires h in side && h != h'
    ensures multiset(side[First(side, h) := h']) != multiset(side)
  {
    SwapMultiset(side, First(side, h), h');
    assert multiset(side)[h] > 0;
    assert (multiset(side) - multiset{h} + multiset{h'})[h] == multiset(side)[h] - 1;
  }

  /** A step keeps index and list in agreement if and only if it is careful: forgetting one of
      two subscriptions of a handler may leave the other unlisted, and `update` on that one
      changes the index alone. */
  lemma StepKeepsBagsIff<I>(k: Kinds, w: World<I>, e: Event<I>)
    requires BagInv(k, w) && Allowed(k, w, e)
    ensures Known(k, Step(k, w, e).s)
    ensures Bags(k, Step(k, w, e).s) <==> Careful(w, e)
  {
    StepKeepsKnown(k, w, e);
    if Careful(w, e) {
      StepKeepsBags(k, w, e);
    } else {
      var r := w.s.recs[e.i];
      var kind, mine := k.typeOf(r.handler), k.mine(r.handler);
      assert KnownAt(w.s, r.addr) && BagAt(k, w.s, r.addr, kind, mine);
      UpdateEffect(k, w.s, e.i, e.h, r.addr, kind, mine);
      LiveIsListed(k, w, e.i);
      var side := SideAt(w.s, r.addr, kind, mine);
      SelectMembers(k, HandlersAt(w.s, r.addr), kind, mine, r.handler);
      assert r.handler in multiset(side);
      ChangedMultiset(side, r.handler, e.h);
      assert !BagAt(k, Step(k, w, e).s, r.addr, kind, mine);
    }
  }

  // ---------------------------------------------------------------- agreement in order

  predicate OrderAt<I>(k: Kinds, s: State<I>, a: Addr, kind: Type, mine: bool)
    requires KnownAt(s, a)
  {
    SideAt(s, a, kind, mine) == Select(k, HandlersAt(s, a), kind, mine)
  }

  /** For every address and message type the index has the handlers of the list, in its order. */
  ghost predicate InOrder<I>(k: Kinds, s: State<I>)
    requires Known(k, s)
  {
    forall a, kind, mine :: OrderAt(k, s, a, kind, mine)
  }

  /** The handler that is replaced is the first of its kind in the list, or stays the same. */
  predicate FirstReplaced<I>(k: Kinds, w: World<I>, e: Event<I>)
    requires Known(k, w.s) && Allowed(k, w, e)
  {
    e.Updates? && k.home(w.s.recs[e.i].addr) && e.h != w.s.recs[e.i].handler ==>
      var a := w.s.recs[e.i].addr;
      && KnownAt(w.s, a)
      && e.i in InfosAt(w.s, a)
      && IndexOf(InfosAt(w.s, a), e.i) == First(HandlersAt(w.s, a), w.s.recs[e.i].handler)
  }

  lemma MaterializeOrder<I>(k: Kinds, s: State<I>, i: I, a: Addr, h: Handler, b: Addr, kind: Type, mine: bool)
    requires i !in s.recs && KnownAt(s, b) && OrderAt(k, s, b, kind, mine)
    ensures KnownAt(Materialize(k, s, i, a, h), b) && OrderAt(k, Materialize(k, s, i, a, h), b, kind, mine)
  {
    MaterializeEffect(k, s, i, a, h, b, kind, mine);
    SelectConcat(k, HandlersAt(s, b), [h], kind, mine);
    SelectOne(k, h, kind, mine);
  }

  lemma ForgetOrder<I>(k: Kinds, s: State<I>, i: I, b: Addr, kind: Type, mine: bool)
    requires Known(k, s) && i in s.recs && OrderAt(k, s, b, kind, mine)
    requires s.recs[i].internalAddress ==> s.recs[i].handler in HandlersAt(s, s.recs[i].addr)
    ensures KnownAt(s, s.recs[i].addr)
    ensures KnownAt(Forget(k, s, i), b) && OrderAt(k, Forget(k, s, i), b, kind, mine)
  {
    ForgetEffect(k, s, i, b, kind, mine);
    if s.recs[i].internalAddress && b == s.recs[i].addr {
      SelectWithout(k, HandlersAt(s, b), s.recs[i].handler, kind, mine);
    }
  }

  /** The replaced handler is listed: only its own message type is touched, and there the
      order is kept if and only if the first occurrence was replaced. */
  lemma UpdateOrder<I>(k: Kinds, s: State<I>, i: I, h': Handler, b: Addr, kind: Type, mine: bool)
    requires Known(k, s) && i in s.recs && OrderAt(k, s, b, kind, mine)
    requires k.typeOf(h') == k.typeOf(s.recs[i].handler) && k.mine(h') == k.mine(s.recs[i].handler)
    requires i in InfosAt(s, s.recs[i].addr)
    ensures KnownAt(Update(k, s, i, h'), b)
    ensures OrderAt(k, Update(k, s, i, h'), b, kind, mine) <==>
            (b == s.recs[i].addr && Fits(k, h', kind, mine) ==>
               IndexOf(InfosAt(s, b), i) == First(HandlersAt(s, b), s.recs[i].handler) || h' == s.recs[i].handler)
  {
    assert KnownAt(s, b);
    UpdateEffect(k, s, i, h', b, kind, mine);
    if b == s.recs[i].addr {
      UpdateListed(k, s, i, h');
      var hs, p := HandlersAt(s, b), IndexOf(InfosAt(s, b), i);
      SwapAgrees(k, hs, p, h');
      var q := SelectSwap(k, hs, p, h', kind, mine);
    }
  }

  lemma OrderedBags<I>(k: Kinds, s: State<I>)
    requires Known(k, s) && InOrder(k, s)
    ensures Bags(k, s)
  {
    forall a, kind, mine ensures BagAt(k, s, a, kind, mine) {
      assert KnownAt(s, a) && OrderAt(k, s, a, kind, mine);
    }
  }

  lemma ListedUpdateIff<I>(k: Kinds, w: World<I>, i: I, h': Handler)
    requires BagInv(k, w) && InOrder(k, w.s) && Allowed(k, w, Updates(i, h'))
    requires i in InfosAt(w.s, w.s.recs[i].addr) && h' != w.s.recs[i].handler
    ensures Known(k, Step(k, w, Updates(i, h')).s)
    ensures InOrder(k, Step(k, w, Updates(i, h')).s) <==> FirstReplaced(k, w, Updates(i, h'))
  {
    StepKeepsKnown(k, w, Updates(i, h'));
    var s' := Step(k, w, Updates(i, h')).s;
    var a := w.s.recs[i].addr;
    if FirstReplaced(k, w, Updates(i, h')) {
      forall b, kind, mine ensures OrderAt(k, s', b, kind, mine) {
        assert KnownAt(w.s, b) && OrderAt(k, w.s, b, kind, mine);
        UpdateOrder(k, w.s, i, h', b, kind, mine);
      }
    } else {
      assert KnownAt(w.s, a) && OrderAt(k, w.s, a, k.typeOf(h'), k.mine(h'));
      UpdateOrder(k, w.s, i, h', a, k.typeOf(h'), k.mine(h'));
      assert !OrderAt(k, s', a, k.typeOf(h'), k.mine(h'));
    }
  }

  lemma ForeignUpdateOrder<I>(k: Kinds, w: World<I>, i: I, h': Handler)
    requires BagInv(k, w) && InOrder(k, w.s) && Allowed(k, w, Updates(i, h')) && !k.home(w.s.recs[i].addr)
    ensures Known(k, Step(k, w, Updates(i, h')).s) && InOrder(k, Step(k, w, Updates(i, h')).s)
  {
    StepKeepsKnown(k, w, Updates(i, h'));
    forall b, kind, mine ensures OrderAt(k, Step(k, w, Updates(i, h')).s, b, kind, mine) {
      assert KnownAt(w.s, b) && OrderAt(k, w.s, b, kind, mine);
      UpdateEffect(k, w.s, i, h', b, kind, mine);
    }
  }

  /** Subscribing and forgetting keep the order even with handlers subscribed twice; `update`
      keeps it if and only if it replaces the first such handler of the list. */
  lemma StepKeepsOrderIff<I>(k: Kinds, w: World<I>, e: Event<I>)
    requires BagInv(k, w) && InOrder(k, w.s) && Allowed(k, w, e)
    ensures Known(k, Step(k, w, e).s)
    ensures InOrder(k, Step(k, w, e).s) <==> FirstReplaced(k, w, e)
  {
    StepKeepsKnown(k, w, e);
    match e
    case Materializes(i, a, h) =>
      forall b, kind, mine ensures OrderAt(k, Step(k, w, e).s, b, kind, mine) {
        assert KnownAt(w.s, b) && OrderAt(k, w.s, b, kind, mine);
        MaterializeOrder(k, w.s, i, a, h, b, kind, mine);
      }
    case Forgets(i) =>
      if w.s.recs[i].internalAddress { LiveIsListed(k, w, i); }
      forall b, kind, mine ensures OrderAt(k, Step(k, w, e).s, b, kind, mine) {
        assert KnownAt(w.s, b) && OrderAt(k, w.s, b, kind, mine);
        ForgetOrder(k, w.s, i, b, kind, mine);
      }
    case Updates(i, h') =>
      if !k.home(w.s.recs[i].addr) {
        ForeignUpdateOrder(k, w, i, h');
      } else if h' == w.s.recs[i].handler {
        UpdateByItself(k, w, i);
      } else if i in InfosAt(w.s, w.s.recs[i].addr) {
        ListedUpdateIff(k, w, i, h');
      } else {
        StepKeepsBagsIff(k, w, e);
        if InOrder(k, Step(k, w, e).s) { OrderedBags(k, Step(k, w, e).s); }
      }
  }

  // ---------------------------------------------------------------- one subscription for each handler

  /** No handler object is subscribed twice to an address. */
  predicate Single<I>(k: Kinds, w: World<I>, e: Event<I>)
    requires LiveKnown(w) && Allowed(k, w, e)
  {
    match e
    case Materializes(_, a, h) => LiveKnownAt(w, a) && (k.home(a) ==> h !in LiveHandlersAt(w, a))
    case Updates(i, h) =>
      var a := w.s.recs[i].addr;
      LiveKnownAt(w, a) && (h != w.s.recs[i].handler ==> h !in LiveHandlersAt(w, a))
    case Forgets(_) => true
  }

  /** What is listed is exactly what callers hold, with no handler twice. */
  predicate SameAt<I>(k: Kinds, w: World<I>, a: Addr)
    requires LiveKnownAt(w, a)
  {
    k.home(a) ==> InfosAt(w.s, a) == LiveAt(w, a) && Distinct(LiveHandlersAt(w, a))
  }

  ghost predicate SingleInv<I>(k: Kinds, w: World<I>) {
    && BagInv(k, w) && InOrder(k, w.s)
    && (forall a :: SameAt(k, w, a))
  }

  lemma DistinctFirst(hs: seq<Handler>, p: nat)
    requires p < |hs| && Distinct(hs)
    ensures First(hs, hs[p]) == p
  {}

  lemma ForgetSame<I>(k: Kinds, w: World<I>, i: I, a: Addr)
    requires SingleInv(k, w) && Allowed(k, w, Forgets(i)) && LiveKnownAt(w, a) && SameAt(k, w, a)
    ensures LiveKnownAt(Step(k, w, Forgets(i)), a) && SameAt(k, Step(k, w, Forgets(i)), a)
  {
    hide First, IndexOf;
    ForgetLive(k, w, i, a);
    if a == w.s.recs[i].addr && k.home(a) {
      assert KnownAt(w.s, a);
      DistinctFirst(LiveHandlersAt(w, a), IndexOf(LiveAt(w, a), i));
      DropInfoEffect(w.s.recs, w.s.infos, a, First(HandlersAt(w.s, a), w.s.recs[i].handler), a);
    } else if w.s.recs[i].internalAddress {
      assert KnownAt(w.s, w.s.recs[i].addr);
      DropInfoEffect(w.s.recs, w.s.infos, w.s.recs[i].addr,
        First(HandlersAt(w.s, w.s.recs[i].addr), w.s.recs[i].handler), a);
    }
  }

  lemma MaterializeSame<I>(k: Kinds, w: World<I>, e: Event<I>, a: Addr)
    requires Known(k, w.s) && LiveKnown(w) && Allowed(k, w, e) && Single(k, w, e) && e.Materializes?
    requires LiveKnownAt(w, a) && SameAt(k, w, a)
    ensures LiveKnownAt(Step(k, w, e), a) && SameAt(k, Step(k, w, e), a)
  {
    hide Known, LiveKnown;
    MaterializeLive(k, w, e, a);
  }

  lemma StepKeepsSame<I>(k: Kinds, w: World<I>, e: Event<I>, a: Addr)
    requires SingleInv(k, w) && Allowed(k, w, e) && Single(k, w, e)
    ensures LiveKnownAt(Step(k, w, e), a) && SameAt(k, Step(k, w, e), a)
  {
    assert LiveKnownAt(w, a) && SameAt(k, w, a);
    match e
    case Materializes(_, _, _) => MaterializeSame(k, w, e, a);
    case Updates(i, h) => UpdateLive(k, w, i, h, a);
    case Forgets(i) => ForgetSame(k, w, i, a);
  }

  lemma StepKeepsSingle<I>(k: Kinds, w: World<I>, e: Event<I>)
    requires SingleInv(k, w) && Allowed(k, w, e) && Single(k, w, e)
    ensures SingleInv(k, Step(k, w, e)) && Careful(w, e)
  {
    if e.Updates? && k.home(w.s.recs[e.i].addr) {
      var a := w.s.recs[e.i].addr;
      assert KnownAt(w.s, a) && LiveKnownAt(w, a) && SameAt(k, w, a);
      DistinctFirst(LiveHandlersAt(w, a), IndexOf(LiveAt(w, a), e.i));
    }
    StepKeepsBags(k, w, e);
    StepKeepsOrderIff(k, w, e);
    forall a ensures LiveKnownAt(Step(k, w, e), a) && SameAt(k, Step(k, w, e), a) {
      StepKeepsSame(k, w, e, a);
    }
  }
}
