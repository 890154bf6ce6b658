/** The polls of plugins that end initialization and shutdown, and the resource counters that
    hold them up. Plugins are numbered; one of them is the resources plugin. */
module Lifecycle {

  const WORD := 0x1_0000_0000
  const HALF := 0x8000_0000

  type Counter = n: nat | n < WORD

  datatype Life = New | Initializing | Initialized | Operational | ShuttingDown | ShutDown

  datatype Phase = Init | Shutdown

  /** Reaction bits by plugin, the counters of the resources plugin `res`, and whether that
      plugin is still active. */
  datatype State = State(
    life: Life, init: seq<bool>, shutdown: seq<bool>, res: nat, counters: seq<Counter>, active: bool)

  /** What handlers do to reactions: acquire a resource; deactivate a plugin, which clears all
      its reactions, as `deactivate_plugins` does; or switch a reaction, as `link` does. */
  datatype Effect = Acquires(id: nat) | Deactivates(p: nat) | Switches(p: nat, phase: Phase, on: bool)

  /** What asking a plugin does: its vote, and what its handler does on the way. The vote of the
      resources plugin is its own. */
  datatype Answer = Answer(yes: bool, effects: seq<Effect>)

  predicate Sized(s: State) {
    |s.init| == |s.shutdown| && s.res < |s.init|
  }

  function Flags(s: State, phase: Phase): seq<bool> {
    if phase.Init? then s.init else s.shutdown
  }

  function WithFlag(s: State, phase: Phase, p: nat, on: bool): State
    requires p < |Flags(s, phase)|
  {
    if phase.Init? then s.(init := s.init[p := on]) else s.(shutdown := s.shutdown[p := on])
  }

  // ---------------------------------------------------------------- counters

  function Total(cs: seq<Counter>): nat {
    if cs == [] then 0 else Total(cs[..|cs| - 1]) + cs[|cs| - 1]
  }

  /** An unsigned sum stored in an `int`. */
  function ToInt(n: nat): int {
    if n % WORD < HALF then n % WORD else n % WORD - WORD
  }

  /** One step of `std::accumulate` from an `int`. */
  function AddToInt(acc: int, c: Counter): int {
    ToInt((acc + c) % WORD)
  }

  function Accumulate(cs: seq<Counter>): int {
    if cs == [] then 0 else AddToInt(Accumulate(cs[..|cs| - 1]), cs[|cs| - 1])
  }

  predicate HasAny(cs: seq<Counter>) {
    Accumulate(cs) > 0
  }

  function Resized(cs: seq<Counter>, n: nat): (r: seq<Counter>)
    ensures |r| >= |cs| && |r| >= n && r[..|cs|] == cs
    ensures forall i :: |cs| <= i < |r| ==> r[i] == 0
  {
    if n <= |cs| then cs else cs + seq(n - |cs|, _ => 0)
  }

  function Incremented(cs: seq<Counter>, id: nat): seq<Counter> {
    var r := Resized(cs, id + 1);
    r[id := (r[id] + 1) % WORD]
  }

  /** Lives in which acquiring switches the reaction of the phase on. */
  predicate Arms(life: Life, phase: Phase) {
    if phase.Init? then life == Initializing else life == Operational || life == ShuttingDown || life == ShutDown
  }

  /** `acquire`; it needs the actor, which a deactivated plugin does not have any more. */
  function Acquire(s: State, id: nat): State
    requires Sized(s)
  {
    var s1 := s.(counters := Incremented(s.counters, id));
    if s.life == Initializing then WithFlag(s1, Init, s.res, true)
    else if Arms(s.life, Shutdown) then WithFlag(s1, Shutdown, s.res, true)
    else s1
  }

  /** Nobody else switches the reactions of the resources plugin. */
  function Apply(s: State, f: Effect): (r: State)
    requires Sized(s)
    ensures Sized(r) && |r.init| == |s.init| && r.res == s.res && r.life == s.life
  {
    match f
    case Acquires(id) => Acquire(s, id)
    case Deactivates(p) =>
      if p >= |s.init| then s
      else s.(init := s.init[p := false], shutdown := s.shutdown[p := false], active := s.active && p != s.res)
    case Switches(p, phase, on) =>
      if p >= |s.init| || p == s.res then s else WithFlag(s, phase, p, on)
  }

  function ApplyAll(s: State, fs: seq<Effect>): (r: State)
    requires Sized(s)
    ensures Sized(r) && |r.init| == |s.init| && r.res == s.res && r.life == s.life
    decreases fs
  {
    if fs == [] then s else ApplyAll(Apply(s, fs[0]), fs[1..])
  }

  // ---------------------------------------------------------------- polls

  datatype Visit = Passed(p: nat) | Asked(p: nat, yes: bool)

  datatype Poll = Poll(s: State, visits: seq<Visit>, refused: bool)

  /** Asks one plugin: what its handler does, then its vote. */
  function Asking(s: State, phase: Phase, p: nat, v: nat -> Answer): State
    requires Sized(s)
  {
    ApplyAll(s, EffectsOf(phase, p, s.res, v))
  }

  /** The resources plugin does nothing on the way to its vote for shutdown. */
  function EffectsOf(phase: Phase, p: nat, res: nat, v: nat -> Answer): seq<Effect> {
    if p == res && phase.Shutdown? then [] else v(p).effects
  }

  predicate Vote(s: State, p: nat, v: nat -> Answer) {
    if p == s.res then !HasAny(s.counters) else v(p).yes
  }

  /** The plugin whose turn it is when `left` of `n` are left: initialization goes forwards,
      shutdown backwards. */
  function Turn(phase: Phase, n: nat, left: nat): (p: nat)
    requires 0 < left <= n
    ensures p < n
  {
    if phase.Init? then n - left else left - 1
  }

  predicate Refusal(x: Visit) {
    x.Asked? && !x.yes
  }

  datatype Turned = Turned(s: State, visit: Visit)

  /** One turn of the loop: a plugin that still reacts is asked, and stops reacting when it
      says yes. */
  function Round(s: State, phase: Phase, p: nat, v: nat -> Answer): (r: Turned)
    requires Sized(s) && p < |s.init|
    ensures Sized(r.s) && |r.s.init| == |s.init| && r.s.res == s.res && r.s.life == s.life
  {
    if !Flags(s, phase)[p] then Turned(s, Passed(p))
    else
      var s1 := Asking(s, phase, p, v);
      if Vote(s1, p, v) then Turned(WithFlag(s1, phase, p, false), Asked(p, true))
      else Turned(s1, Asked(p, false))
  }

  /** The loop of `init_continue` and `shutdown_continue` when `left` plugins are left. */
  function Ask(s: State, phase: Phase, left: nat, v: nat -> Answer): (r: Poll)
    requires Sized(s) && left <= |s.init|
    ensures Sized(r.s) && |r.s.init| == |s.init| && r.s.res == s.res && r.s.life == s.life
    decreases left
  {
    if left == 0 then Poll(s, [], false)
    else
      var t := Round(s, phase, Turn(phase, |s.init|, left), v);
      if Refusal(t.visit) then Poll(t.s, [t.visit], true)
      else
        var rest := Ask(t.s, phase, left - 1, v);
        Poll(rest.s, [t.visit] + rest.visits, rest.refused)
  }

  /** What a life becomes when nobody refuses. */
  function Ended(phase: Phase): Life {
    if phase.Init? then Initialized else ShutDown
  }

  function Continue(s: State, phase: Phase, v: nat -> Answer): (s': State)
    requires Sized(s)
    ensures Sized(s')
  {
    var r := Ask(s, phase, |s.init|, v);
    if r.refused then r.s else r.s.(life := Ended(phase))
  }

  function Release(s: State, id: nat, v: nat -> Answer): (s': State)
    requires Sized(s)
    ensures Sized(s')
  {
    if id >= |s.counters| || s.counters[id] == 0 then s  // asserted not to happen
    else
      var s1 := s.(counters := s.counters[id := s.counters[id] - 1]);
      if HasAny(s1.counters) then s1
      else if s.life == Initializing then Continue(s1, Init, v)
      else if s.life == ShuttingDown then Continue(s1, Shutdown, v)
      else s1
  }

  // ---------------------------------------------------------------- the sum of the counters

  lemma ToIntStep(n: nat, c: Counter)
    ensures AddToInt(ToInt(n), c) == ToInt(n + c)
  {
    assert (ToInt(n) + c) % WORD == (n + c) % WORD;
  }

  lemma {:induction false} AccumulateIsTotal(cs: seq<Counter>)
    ensures Accumulate(cs) == ToInt(Total(cs))
  {
    if cs != [] {
      AccumulateIsTotal(cs[..|cs| - 1]);
      ToIntStep(Total(cs[..|cs| - 1]), cs[|cs| - 1]);
    }
  }

  /** `has_any` looks at the sum modulo 2^32, as a signed number. */
  lemma HasAnyExactly(cs: seq<Counter>)
    ensures HasAny(cs) <==> 0 < Total(cs) % WORD < HALF
  {
    AccumulateIsTotal(cs);
  }

  predicate Held(cs: seq<Counter>) {
    exists i :: 0 <= i < |cs| && cs[i] > 0
  }

  lemma {:induction false} HeldIffTotal(cs: seq<Counter>)
    ensures Held(cs) <==> Total(cs) > 0
  {
    if cs != [] {
      var n := |cs| - 1;
      HeldIffTotal(cs[..n]);
      if Held(cs[..n]) {
        var i :| 0 <= i < n && cs[..n][i] > 0;
        assert cs[i] > 0;
      }
      if Held(cs) {
        var i :| 0 <= i < |cs| && cs[i] > 0;
        if i < n { assert cs[..n][i] > 0; }
      }
    }
  }

  /** `has_any` tells whether a counter is positive, for exactly these sums. */
  lemma HasAnyIsRightIff(cs: seq<Counter>)
    ensures (HasAny(cs) <==> Held(cs)) <==> Total(cs) == 0 || 0 < Total(cs) % WORD < HALF
  {
    HasAnyExactly(cs);
    HeldIffTotal(cs);
  }

  /** A single counter can be too large for it. */
  lemma HasAnyCanMiss()
    ensures Held([HALF as Counter]) && !HasAny([HALF as Counter])
  {
    var cs := [HALF as Counter];
    assert cs[..0] == [];
    assert Total(cs) == HALF;
    HasAnyExactly(cs);
    HeldIffTotal(cs);
  }

  // ---------------------------------------------------------------- acquiring

  lemma {:induction false} TotalConcat(a: seq<Counter>, b: seq<Counter>)
    ensures Total(a + b) == Total(a) + Total(b)
    decreases |b|
  {
    if b == [] {
      assert a + b == a;
    } else {
      assert (a + b)[..|a + b| - 1] == a + b[..|b| - 1];
      TotalConcat(a, b[..|b| - 1]);
    }
  }

  lemma {:induction false} TotalOfZeros(cs: seq<Counter>)
    requires forall i :: 0 <= i < |cs| ==> cs[i] == 0
    ensures Total(cs) == 0
  {
    if cs != [] { TotalOfZeros(cs[..|cs| - 1]); }
  }

  lemma TotalReplaced(cs: seq<Counter>, i: nat, c: Counter)
    requires i < |cs|
    ensures Total(cs[i := c]) == Total(cs) - cs[i] + c
    ensures cs[i] <= Total(cs)
  {
    assert cs == cs[..i] + [cs[i]] + cs[i + 1..];
    assert cs[i := c] == cs[..i] + [c] + cs[i + 1..];
    TotalConcat(cs[..i] + [cs[i]], cs[i + 1..]);
    TotalConcat(cs[..i], [cs[i]]);
    TotalConcat(cs[..i] + [c], cs[i + 1..]);
    TotalConcat(cs[..i], [c]);
    assert Total([c][..0]) == 0 && Total([cs[i]][..0]) == 0;
  }

  lemma ResizeKeepsTotal(cs: seq<Counter>, n: nat)
    ensures Total(Resized(cs, n)) == Total(cs)
  {
    var r := Resized(cs, n);
    assert r == cs + r[|cs|..];
    TotalConcat(cs, r[|cs|..]);
    TotalOfZeros(r[|cs|..]);
  }

  lemma IncrementAdds(cs: seq<Counter>, id: nat)
    requires Total(cs) + 1 < WORD
    ensures Total(Incremented(cs, id)) == Total(cs) + 1
  {
    hide Total;
    var r := Resized(cs, id + 1);
    ResizeKeepsTotal(cs, id + 1);
    TotalReplaced(r, id, 0);
    assert r[id] + 1 < WORD;
    TotalReplaced(r, id, r[id] + 1);
  }

  /** The resources a handler acquires. */
  function AcquiredIn(fs: seq<Effect>): seq<nat> {
    if fs == [] then []
    else if fs[0].Acquires? then [fs[0].id] + AcquiredIn(fs[1..])
    else AcquiredIn(fs[1..])
  }

  // ---------------------------------------------------------------- who is asked

  /** A poll is a turn and the poll of the plugins after it. */
  lemma AskStep(s: State, phase: Phase, left: nat, v: nat -> Answer)
    requires Sized(s) && 0 < left <= |s.init|
    ensures var t := Round(s, phase, Turn(phase, |s.init|, left), v);
            var r := Ask(s, phase, left, v);
            && r.visits != [] && r.visits[0] == t.visit && t.visit.p == Turn(phase, |s.init|, left)
            && (Refusal(t.visit) ==> r.s == t.s && r.refused && r.visits[1..] == [])
            && (!Refusal(t.visit) ==>
                  var rest := Ask(t.s, phase, left - 1, v);
                  r.s == rest.s && r.refused == rest.refused && r.visits[1..] == rest.visits)
  {}

  lemma AskNobody(s: State, phase: Phase, v: nat -> Answer)
    requires Sized(s)
    ensures Ask(s, phase, 0, v) == Poll(s, [], false)
  {}

  lemma {:induction false} VisitsBounded(s: State, phase: Phase, left: nat, v: nat -> Answer)
    requires Sized(s) && left <= |s.init|
    ensures var r := Ask(s, phase, left, v);
            && |r.visits| <= left
            && (!r.refused ==> |r.visits| == left)
            && (r.refused ==> r.visits != [])
    decreases left
  {
    hide Round, Ask;
    if left == 0 {
      AskNobody(s, phase, v);
    } else {
      AskStep(s, phase, left, v);
      var t := Round(s, phase, Turn(phase, |s.init|, left), v);
      if !Refusal(t.visit) {
        VisitsBounded(t.s, phase, left - 1, v);
      }
    }
  }

  /** The poll visits plugins in order, and none after the first that says no. */
  lemma {:induction false} VisitsAreInOrder(s: State, phase: Phase, left: nat, v: nat -> Answer, i: nat)
    requires Sized(s) && left <= |s.init| && i < |Ask(s, phase, left, v).visits|
    ensures var r := Ask(s, phase, left, v);
            && |r.visits| <= left
            && r.visits[i].p == Turn(phase, |s.init|, left - i)
            && (Refusal(r.visits[i]) <==> r.refused && i == |r.visits| - 1)
    decreases left
  {
    hide Round, Ask;
    VisitsBounded(s, phase, left, v);
    AskStep(s, phase, left, v);
    var t := Round(s, phase, Turn(phase, |s.init|, left), v);
    if !Refusal(t.visit) {
      VisitsBounded(t.s, phase, left - 1, v);
      if i > 0 {
        VisitsAreInOrder(t.s, phase, left - 1, v, i - 1);
        assert Ask(s, phase, left, v).visits[i] == Ask(s, phase, left, v).visits[1..][i - 1];
      }
    }
  }

  /** A plugin is asked only if every plugin before it in the order of the phase has just said
      yes, or has its reaction off; initialization goes forwards, shutdown backwards. */
  lemma AskedOnlyAfterYes(s: State, phase: Phase, v: nat -> Answer, i: nat, j: nat)
    requires Sized(s) && i < j < |Ask(s, phase, |s.init|, v).visits|
    ensures var visits := Ask(s, phase, |s.init|, v).visits;
            && |visits| <= |s.init|
            && visits[i].p == (if phase.Init? then i else |s.init| - 1 - i)
            && visits[j].p == (if phase.Init? then j else |s.init| - 1 - j)
            && (visits[i].Passed? || visits[i].yes)
  {
    hide Ask;
    VisitsAreInOrder(s, phase, |s.init|, v, i);
    VisitsAreInOrder(s, phase, |s.init|, v, j);
  }

  /** The phase ends if and only if nobody says no, and then everybody has been visited. */
  lemma PhaseEndsIff(s: State, phase: Phase, v: nat -> Answer)
    requires Sized(s) && s.life != Ended(phase)
    ensures var visits := Ask(s, phase, |s.init|, v).visits;
            && (Continue(s, phase, v).life == Ended(phase) <==>
                forall m :: 0 <= m < |visits| ==> !Refusal(visits[m]))
            && (Continue(s, phase, v).life == Ended(phase) ==> |visits| == |s.init|)
  {
    hide Ask;
    var r := Ask(s, phase, |s.init|, v);
    VisitsBounded(s, phase, |s.init|, v);
    forall m | 0 <= m < |r.visits| ensures Refusal(r.visits[m]) <==> r.refused && m == |r.visits| - 1 {
      VisitsAreInOrder(s, phase, |s.init|, v, m);
    }
    if r.refused {
      assert Refusal(r.visits[|r.visits| - 1]);
    }
  }

  // What a poll does to reactions.

  /** What one effect makes of the bit of plugin `q` for `phase`. */
  function BitAfterOne(bit: bool, f: Effect, q: nat, phase: Phase, res: nat, life: Life): bool {
    match f
    case Acquires(_) => bit || (q == res && Arms(life, phase))
    case Deactivates(p) => bit && p != q
    case Switches(p, of, on) => if p == q && of == phase && q != res then on else bit
  }

  function BitAfter(bit: bool, fs: seq<Effect>, q: nat, phase: Phase, res: nat, life: Life): bool
    decreases fs
  {
    if fs == [] then bit else BitAfter(BitAfterOne(bit, fs[0], q, phase, res, life), fs[1..], q, phase, res, life)
  }

  predicate Touches(f: Effect, q: nat, phase: Phase, res: nat) {
    match f
    case Acquires(_) => q == res
    case Deactivates(p) => p == q
    case Switches(p, of, _) => p == q && of == phase
  }

  lemma {:induction false} BitAfterAppend(bit: bool, a: seq<Effect>, b: seq<Effect>, q: nat, phase: Phase,
      res: nat, life: Life)
    ensures BitAfter(bit, a + b, q, phase, res, life) ==
            BitAfter(BitAfter(bit, a, q, phase, res, life), b, q, phase, res, life)
    decreases a
  {
    if a == [] {
      assert a + b == b;
    } else {
      assert (a + b)[1..] == a[1..] + b;
      BitAfterAppend(BitAfterOne(bit, a[0], q, phase, res, life), a[1..], b, q, phase, res, life);
    }
  }

  lemma {:induction false} UntouchedBit(bit: bool, fs: seq<Effect>, q: nat, phase: Phase, res: nat, life: Life)
    requires forall f :: f in fs ==> !Touches(f, q, phase, res)
    ensures BitAfter(bit, fs, q, phase, res, life) == bit
    decreases fs
  {
    if fs != [] {
      assert fs[0] in fs;
      UntouchedBit(bit, fs[1..], q, phase, res, life);
    }
  }

  lemma ApplyFlags(s: State, f: Effect, phase: Phase, q: nat)
    requires Sized(s) && q < |s.init|
    ensures Flags(Apply(s, f), phase)[q] == BitAfterOne(Flags(s, phase)[q], f, q, phase, s.res, s.life)
  {}

  lemma {:induction false} ApplyAllFlags(s: State, fs: seq<Effect>, phase: Phase, q: nat)
    requires Sized(s) && q < |s.init|
    ensures Flags(ApplyAll(s, fs), phase)[q] == BitAfter(Flags(s, phase)[q], fs, q, phase, s.res, s.life)
    decreases fs
  {
    hide Apply;
    if fs != [] {
      ApplyFlags(s, fs[0], phase, q);
      ApplyAllFlags(Apply(s, fs[0]), fs[1..], phase, q);
    }
  }

  predicate Visited(visits: seq<Visit>, q: nat) {
    exists i :: 0 <= i < |visits| && visits[i].p == q
  }

  /** All that the handlers asked in a poll have done, in order. */
  function Performed(visits: seq<Visit>, res: nat, phase: Phase, v: nat -> Answer): seq<Effect> {
    if visits == [] then []
    else (if visits[0].Asked? then EffectsOf(phase, visits[0].p, res, v) else []) +
         Performed(visits[1..], res, phase, v)
  }

  lemma RoundFlags(s: State, phase: Phase, p: nat, v: nat -> Answer, q: nat, other: Phase)
    requires Sized(s) && p < |s.init| && q < |s.init| && (other != phase || q != p)
    ensures var t := Round(s, phase, p, v);
            Flags(t.s, other)[q] ==
            if t.visit.Asked?
            then BitAfter(Flags(s, other)[q], EffectsOf(phase, p, s.res, v), q, other, s.res, s.life)
            else Flags(s, other)[q]
  {
    hide ApplyAll, BitAfter;
    ApplyAllFlags(s, EffectsOf(phase, p, s.res, v), other, q);
  }

  /** The reactions of plugins that a poll does not reach, and those for the other phase, are
      changed by what the handlers asked in the poll do, and by nothing else. */
  lemma {:induction false} ReactionsBeyond(s: State, phase: Phase, left: nat, v: nat -> Answer, q: nat, other: Phase)
    requires Sized(s) && left <= |s.init| && q < |s.init|
    requires other != phase || !Visited(Ask(s, phase, left, v).visits, q)
    ensures var r := Ask(s, phase, left, v);
            Flags(r.s, other)[q] ==
            BitAfter(Flags(s, other)[q], Performed(r.visits, s.res, phase, v), q, other, s.res, s.life)
    decreases left
  {
    hide Round, Ask, BitAfter;
    if left == 0 {
      AskNobody(s, phase, v);
      UntouchedBit(Flags(s, other)[q], [], q, other, s.res, s.life);
    } else {
      var p := Turn(phase, |s.init|, left);
      var t := Round(s, phase, p, v);
      var visits := Ask(s, phase, left, v).visits;
      AskStep(s, phase, left, v);
      assert visits[0].p == p;
      assert forall i :: 0 <= i < |visits[1..]| ==> visits[1..][i] == visits[i + 1];
      RoundFlags(s, phase, p, v, q, other);
      var done := if t.visit.Asked? then EffectsOf(phase, p, s.res, v) else [];
      UntouchedBit(Flags(s, other)[q], [], q, other, s.res, s.life);
      BitAfterAppend(Flags(s, other)[q], done, Performed(visits[1..], s.res, phase, v), q, other, s.res, s.life);
      if !Refusal(t.visit) {
        ReactionsBeyond(t.s, phase, left - 1, v, q, other);
      } else {
        UntouchedBit(Flags(t.s, other)[q], [], q, other, s.res, s.life);
      }
    }
  }

  /** So those that no such handler touches stay as they were. */
  lemma ReactionsBeyondStay(s: State, phase: Phase, v: nat -> Answer, q: nat, other: Phase)
    requires Sized(s) && q < |s.init|
    requires other != phase || !Visited(Ask(s, phase, |s.init|, v).visits, q)
    requires forall f :: f in Performed(Ask(s, phase, |s.init|, v).visits, s.res, phase, v) ==>
               !Touches(f, q, other, s.res)
    ensures Flags(Ask(s, phase, |s.init|, v).s, other)[q] == Flags(s, other)[q]
  {
    hide Ask, Performed;
    ReactionsBeyond(s, phase, |s.init|, v, q, other);
    UntouchedBit(Flags(s, other)[q], Performed(Ask(s, phase, |s.init|, v).visits, s.res, phase, v), q, other,
      s.res, s.life);
  }

  // ---------------------------------------------------------------- resources hold the phase up

  /** A held resource keeps the reaction of the resources plugin on until it is deactivated. */
  predicate Armed(s: State, phase: Phase)
    requires Sized(s)
  {
    s.active && Total(s.counters) > 0 ==> Flags(s, phase)[s.res]
  }

  /** What the handlers asked in a poll acquire. */
  function AcquiredBy(visits: seq<Visit>, res: nat, phase: Phase, v: nat -> Answer): seq<nat> {
    if visits == [] then []
    else (if visits[0].Asked? then AcquiredIn(EffectsOf(phase, visits[0].p, res, v)) else []) +
         AcquiredBy(visits[1..], res, phase, v)
  }

  /** What is acquired after the turn of the resources plugin. */
  function Late(visits: seq<Visit>, res: nat, phase: Phase, v: nat -> Answer): seq<nat> {
    if visits == [] then []
    else if visits[0].p == res then AcquiredBy(visits[1..], res, phase, v)
    else Late(visits[1..], res, phase, v)
  }

  lemma ApplyArms(s: State, f: Effect, phase: Phase)
    requires Sized(s) && Armed(s, phase) && Arms(s.life, phase)
    requires Total(s.counters) + |AcquiredIn([f])| < HALF
    ensures Armed(Apply(s, f), phase)
    ensures Total(Apply(s, f).counters) == Total(s.counters) + |AcquiredIn([f])|
  {
    hide Total;
    assert [f][1..] == [];
    if f.Acquires? { IncrementAdds(s.counters, f.id); }
  }

  lemma {:induction false} ApplyAllArms(s: State, fs: seq<Effect>, phase: Phase)
    requires Sized(s) && Armed(s, phase) && Arms(s.life, phase)
    requires Total(s.counters) + |AcquiredIn(fs)| < HALF
    ensures Armed(ApplyAll(s, fs), phase)
    ensures Total(ApplyAll(s, fs).counters) == Total(s.counters) + |AcquiredIn(fs)|
    decreases fs
  {
    hide Total, Apply;
    if fs != [] {
      assert |AcquiredIn(fs)| == |AcquiredIn([fs[0]])| + |AcquiredIn(fs[1..])| by {
        assert [fs[0]][1..] == [];
      }
      ApplyArms(s, fs[0], phase);
      ApplyAllArms(Apply(s, fs[0]), fs[1..], phase);
    }
  }

  /** Whoever is active has been so before, and only its deactivation clears the bits of the
      resources plugin. */
  lemma {:induction false} ApplyAllActive(s: State, fs: seq<Effect>, phase: Phase)
    requires Sized(s)
    ensures var r := ApplyAll(s, fs);
            r.active ==> s.active && (Flags(s, phase)[s.res] ==> Flags(r, phase)[s.res])
    decreases fs
  {
    if fs != [] {
      ApplyAllActive(Apply(s, fs[0]), fs[1..], phase);
    }
  }

  /** No sum that `has_any` looks at during the poll reaches 2^31. */
  predicate Bounded(s: State, phase: Phase, left: nat, v: nat -> Answer)
    requires Sized(s) && left <= |s.init|
  {
    Total(s.counters) + |AcquiredBy(Ask(s, phase, left, v).visits, s.res, phase, v)| < HALF
  }

  /** What one turn does to the counters, and to the resources plugin before and after its own
      turn. */
  lemma RoundArms(s: State, phase: Phase, p: nat, v: nat -> Answer, visits: seq<Visit>)
    requires Sized(s) && p < |s.init| && Armed(s, phase) && Arms(s.life, phase)
    requires visits != [] && visits[0] == Round(s, phase, p, v).visit
    requires Total(s.counters) + |AcquiredBy(visits, s.res, phase, v)| < HALF
    ensures var t := Round(s, phase, p, v);
            && Armed(t.s, phase)
            && (p == s.res && !Refusal(t.visit) && (t.visit.Asked? || s.active) ==> Total(t.s.counters) == 0)
            && Total(t.s.counters) + |AcquiredBy(visits[1..], s.res, phase, v)| ==
               Total(s.counters) + |AcquiredBy(visits, s.res, phase, v)|
  {
    hide ApplyAll, Total, Accumulate, AcquiredIn;
    if Flags(s, phase)[p] {
      ApplyAllArms(s, EffectsOf(phase, p, s.res, v), phase);
      HasAnyExactly(Asking(s, phase, p, v).counters);
    }
  }

  /** The turn of the resources plugin is over. */
  predicate Over(s: State, phase: Phase, left: nat)
    requires left <= |s.init|
  {
    if phase.Init? then s.res < |s.init| - left else s.res >= left
  }

  /** When its turn comes, the resources plugin is asked or is still active. */
  predicate Heeded(s: State, phase: Phase, left: nat, v: nat -> Answer)
    requires Sized(s) && left <= |s.init| && !Over(s, phase, left)
    decreases left
  {
    var p := Turn(phase, |s.init|, left);
    if p == s.res then s.active || Flags(s, phase)[p]
    else
      var t := Round(s, phase, p, v);
      Heeded(t.s, phase, left - 1, v)
  }

  /** In a poll, resources are only acquired; the resources plugin stays armed while any is
      held; and a poll without refusal leaves just what was acquired after its turn. */
  lemma {:induction false} AskArms(s: State, phase: Phase, left: nat, v: nat -> Answer)
    requires Sized(s) && left <= |s.init| && Armed(s, phase) && Arms(s.life, phase)
    requires Bounded(s, phase, left, v)
    ensures var r := Ask(s, phase, left, v);
            && Armed(r.s, phase)
            && Total(r.s.counters) == Total(s.counters) + |AcquiredBy(r.visits, s.res, phase, v)|
            && (!Over(s, phase, left) && !r.refused && Heeded(s, phase, left, v) ==>
                  Total(r.s.counters) == |Late(r.visits, s.res, phase, v)|)
    decreases left
  {
    hide Round, Total, Ask, AcquiredIn;
    if left == 0 {
      AskNobody(s, phase, v);
    } else {
      var p := Turn(phase, |s.init|, left);
      var t := Round(s, phase, p, v);
      AskStep(s, phase, left, v);
      RoundAsks(s, phase, p, v);
      RoundArms(s, phase, p, v, Ask(s, phase, left, v).visits);
      if !Refusal(t.visit) {
        AskArms(t.s, phase, left - 1, v);
      }
    }
  }

  lemma RoundAsks(s: State, phase: Phase, p: nat, v: nat -> Answer)
    requires Sized(s) && p < |s.init|
    ensures Round(s, phase, p, v).visit.p == p && (Round(s, phase, p, v).visit.Asked? <==> Flags(s, phase)[p])
  {}

  lemma {:induction false} AskActive(s: State, phase: Phase, left: nat, v: nat -> Answer, other: Phase)
    requires Sized(s) && left <= |s.init| && other != phase
    ensures var r := Ask(s, phase, left, v);
            r.s.active ==> s.active && (Flags(s, other)[s.res] ==> Flags(r.s, other)[s.res])
    decreases left
  {
    hide Ask, ApplyAll;
    if left == 0 {
      AskNobody(s, phase, v);
    } else {
      var p := Turn(phase, |s.init|, left);
      var t := Round(s, phase, p, v);
      AskStep(s, phase, left, v);
      ApplyAllActive(s, EffectsOf(phase, p, s.res, v), other);
      if !Refusal(t.visit) {
        AskActive(t.s, phase, left - 1, v, other);
      }
    }
  }

  // ---------------------------------------------------------------- foreseeing a poll

  /** The plugin with turn `i`, counted from the beginning of the poll. */
  function At(phase: Phase, n: nat, i: nat): (p: nat)
    requires i < n
    ensures p < n
  {
    Turn(phase, n, n - i)
  }

  /** The turn of plugin `p`. */
  function TurnOf(phase: Phase, n: nat, p: nat): (i: nat)
    requires p < n
    ensures i < n && At(phase, n, i) == p
    ensures forall j :: 0 <= j < n && At(phase, n, j) == p ==> j == i
  {
    if phase.Init? then p else n - 1 - p
  }

  /** Whether the plugin with turn `i` reacts before turn `j`, seen from the state `t` before the
      poll: its bit, and what plugins that react at earlier turns do to it. */
  function BitAt(t: State, phase: Phase, v: nat -> Answer, i: nat, j: nat): bool
    requires Sized(t) && j <= i < |t.init|
    decreases i, j
  {
    var n := |t.init|;
    if j == 0 then Flags(t, phase)[At(phase, n, i)]
    else
      var bit := BitAt(t, phase, v, i, j - 1);
      if BitAt(t, phase, v, j - 1, j - 1)
      then BitAfter(bit, EffectsOf(phase, At(phase, n, j - 1), t.res, v), At(phase, n, i), phase, t.res, t.life)
      else bit
  }

  predicate Reacts(t: State, phase: Phase, v: nat -> Answer, i: nat)
    requires Sized(t) && i < |t.init|
  {
    BitAt(t, phase, v, i, i)
  }

  /** `s` is the state in the poll from `t` when `left` plugins are left, as far as the bits of
      those plugins go. */
  ghost predicate Foreseen(t: State, s: State, phase: Phase, left: nat, v: nat -> Answer) {
    && Sized(t) && Sized(s) && |s.init| == |t.init| && s.res == t.res && s.life == t.life && left <= |t.init|
    && forall i :: |t.init| - left <= i < |t.init| ==>
         Flags(s, phase)[At(phase, |t.init|, i)] == BitAt(t, phase, v, i, |t.init| - left)
  }

  lemma AtIsOne(phase: Phase, n: nat, i: nat, j: nat)
    requires i < n && j < n && i != j
    ensures At(phase, n, i) != At(phase, n, j)
  {}

  lemma RoundForeseen(t: State, s: State, phase: Phase, left: nat, v: nat -> Answer)
    requires Foreseen(t, s, phase, left, v) && left > 0
    ensures var p := Turn(phase, |t.init|, left);
            && (Flags(s, phase)[p] <==> Reacts(t, phase, v, |t.init| - left))
            && Foreseen(t, Round(s, phase, p, v).s, phase, left - 1, v)
  {
    hide Round, BitAfter;
    var n := |t.init|;
    var p := Turn(phase, n, left);
    assert p == At(phase, n, n - left);
    RoundAsks(s, phase, p, v);
    forall i | n - left + 1 <= i < n
      ensures Flags(Round(s, phase, p, v).s, phase)[At(phase, n, i)] == BitAt(t, phase, v, i, n - left + 1)
    {
      AtIsOne(phase, n, i, n - left);
      RoundFlags(s, phase, p, v, At(phase, n, i), phase);
    }
  }

  /** In a poll without refusal exactly the plugins foreseen to react are asked. */
  lemma {:induction false} AskForeseen(t: State, s: State, phase: Phase, left: nat, v: nat -> Answer, k: nat)
    requires Foreseen(t, s, phase, left, v) && !Ask(s, phase, left, v).refused
    requires k < |Ask(s, phase, left, v).visits|
    ensures |Ask(s, phase, left, v).visits| == left
    ensures Ask(s, phase, left, v).visits[k].p == At(phase, |t.init|, |t.init| - left + k)
    ensures Ask(s, phase, left, v).visits[k].Asked? <==> Reacts(t, phase, v, |t.init| - left + k)
    decreases left
  {
    hide Round, Ask, BitAt;
    VisitsBounded(s, phase, left, v);
    AskStep(s, phase, left, v);
    RoundForeseen(t, s, phase, left, v);
    var p := Turn(phase, |t.init|, left);
    RoundAsks(s, phase, p, v);
    var r := Ask(s, phase, left, v);
    if k > 0 {
      assert r.visits[k] == r.visits[1..][k - 1];
      AskForeseen(t, Round(s, phase, p, v).s, phase, left - 1, v, k - 1);
    }
  }

  lemma {:induction false} AcquiredNoneIff(visits: seq<Visit>, res: nat, phase: Phase, v: nat -> Answer)
    ensures AcquiredBy(visits, res, phase, v) == [] <==>
            forall k :: 0 <= k < |visits| && visits[k].Asked? ==>
              AcquiredIn(EffectsOf(phase, visits[k].p, res, v)) == []
  {
    hide AcquiredIn, EffectsOf;
    if visits != [] {
      AcquiredNoneIff(visits[1..], res, phase, v);
      assert forall k :: 0 < k < |visits| ==> visits[k] == visits[1..][k - 1];
    }
  }

  lemma {:induction false} LateIs(visits: seq<Visit>, res: nat, phase: Phase, v: nat -> Answer, r: nat)
    requires r < |visits| && visits[r].p == res && forall k :: 0 <= k < r ==> visits[k].p != res
    ensures Late(visits, res, phase, v) == AcquiredBy(visits[r + 1..], res, phase, v)
  {
    hide AcquiredBy;
    if r > 0 {
      LateIs(visits[1..], res, phase, v, r - 1);
      assert visits[1..][r..] == visits[r + 1..];
    }
  }

  /** Nobody who reacts behind the resources plugin acquires anything. */
  ghost predicate QuietBehind(t: State, phase: Phase, v: nat -> Answer)
    requires Sized(t)
  {
    forall i :: TurnOf(phase, |t.init|, t.res) < i < |t.init| && Reacts(t, phase, v, i) ==>
      AcquiredIn(v(At(phase, |t.init|, i)).effects) == []
  }

  /** The resources plugin is active, and nobody who reacts before it deactivates it. */
  ghost predicate KeptBefore(t: State, phase: Phase, v: nat -> Answer)
    requires Sized(t)
  {
    && t.active
    && forall i :: 0 <= i < TurnOf(phase, |t.init|, t.res) && Reacts(t, phase, v, i) ==>
         Deactivates(t.res) !in v(At(phase, |t.init|, i)).effects
  }

  lemma StartForeseen(t: State, phase: Phase, v: nat -> Answer)
    requires Sized(t)
    ensures Foreseen(t, t, phase, |t.init|, v)
  {}

  lemma LateForeseen(t: State, phase: Phase, v: nat -> Answer)
    requires Sized(t) && !Ask(t, phase, |t.init|, v).refused
    ensures Late(Ask(t, phase, |t.init|, v).visits, t.res, phase, v) == [] <==> QuietBehind(t, phase, v)
  {
    hide Ask, AcquiredBy, AcquiredIn, BitAt, Late;
    var n, r := |t.init|, TurnOf(phase, |t.init|, t.res);
    var visits := Ask(t, phase, n, v).visits;
    VisitsBounded(t, phase, n, v);
    StartForeseen(t, phase, v);
    forall k | 0 <= k < n
      ensures visits[k].p == At(phase, n, k) && (visits[k].Asked? <==> Reacts(t, phase, v, k))
    {
      AskForeseen(t, t, phase, n, v, k);
    }
    LateIs(visits, t.res, phase, v, r);
    var behind := visits[r + 1..];
    AcquiredNoneIff(behind, t.res, phase, v);
    assert forall k :: 0 <= k < |behind| ==> behind[k] == visits[r + 1 + k];
    forall i | r < i < n ensures visits[i] == behind[i - r - 1] && At(phase, n, i) != t.res {}
  }

  lemma {:induction false} StaysActive(s: State, fs: seq<Effect>)
    requires Sized(s) && s.active && Deactivates(s.res) !in fs
    ensures ApplyAll(s, fs).active
    decreases fs
  {
    if fs != [] {
      assert fs[0] in fs;
      StaysActive(Apply(s, fs[0]), fs[1..]);
    }
  }

  lemma RoundStaysActive(s: State, phase: Phase, p: nat, v: nat -> Answer)
    requires Sized(s) && p < |s.init| && s.active
    requires Flags(s, phase)[p] ==> Deactivates(s.res) !in EffectsOf(phase, p, s.res, v)
    ensures Round(s, phase, p, v).s.active
  {
    hide ApplyAll;
    if Flags(s, phase)[p] { StaysActive(s, EffectsOf(phase, p, s.res, v)); }
  }

  lemma {:induction false} HeededForeseen(t: State, s: State, phase: Phase, left: nat, v: nat -> Answer)
    requires Foreseen(t, s, phase, left, v) && !Over(s, phase, left) && s.active && KeptBefore(t, phase, v)
    ensures Heeded(s, phase, left, v)
    decreases left
  {
    hide Round, BitAt;
    var p := Turn(phase, |t.init|, left);
    if p != s.res {
      assert p == At(phase, |t.init|, |t.init| - left);
      RoundForeseen(t, s, phase, left, v);
      RoundStaysActive(s, phase, p, v);
      HeededForeseen(t, Round(s, phase, p, v).s, phase, left - 1, v);
    }
  }

  /** A poll that ends leaves nothing held if and only if, seen from the state before it, nobody
      who reacts behind the resources plugin acquires anything. */
  lemma PollEndsUnheldIff(t: State, phase: Phase, v: nat -> Answer)
    requires Sized(t) && Armed(t, phase) && Arms(t.life, phase) && Bounded(t, phase, |t.init|, v)
    requires KeptBefore(t, phase, v) && !Ask(t, phase, |t.init|, v).refused
    ensures Held(Ask(t, phase, |t.init|, v).s.counters) <==> !QuietBehind(t, phase, v)
  {
    hide Ask, Total, Late, BitAt, Held;
    AskArms(t, phase, |t.init|, v);
    StartForeseen(t, phase, v);
    HeededForeseen(t, t, phase, |t.init|, v);
    LateForeseen(t, phase, v);
    HeldIffTotal(Ask(t, phase, |t.init|, v).s.counters);
  }

  /** Somebody who reacts acquires a resource. */
  ghost predicate SomebodyAcquires(t: State, phase: Phase, v: nat -> Answer)
    requires Sized(t)
  {
    exists i :: 0 <= i < |t.init| && Reacts(t, phase, v, i) &&
      AcquiredIn(EffectsOf(phase, At(phase, |t.init|, i), t.res, v)) != []
  }

  lemma AcquiredForeseen(t: State, phase: Phase, v: nat -> Answer)
    requires Sized(t) && !Ask(t, phase, |t.init|, v).refused
    ensures AcquiredBy(Ask(t, phase, |t.init|, v).visits, t.res, phase, v) != [] <==> SomebodyAcquires(t, phase, v)
  {
    hide Ask, AcquiredBy, AcquiredIn, BitAt, EffectsOf;
    var n, visits := |t.init|, Ask(t, phase, |t.init|, v).visits;
    VisitsBounded(t, phase, n, v);
    StartForeseen(t, phase, v);
    forall k | 0 <= k < n
      ensures visits[k].p == At(phase, n, k) && (visits[k].Asked? <==> Reacts(t, phase, v, k))
    {
      AskForeseen(t, t, phase, n, v, k);
    }
    AcquiredNoneIff(visits, t.res, phase, v);
  }

  /** Whether or not the resources plugin is still there at its turn: a poll that ends leaves
      something held if and only if, seen from the state before it, something is held already
      or somebody who reacts acquires something. */
  lemma PollEndsHeldIff(t: State, phase: Phase, v: nat -> Answer)
    requires Sized(t) && Armed(t, phase) && Arms(t.life, phase) && Bounded(t, phase, |t.init|, v)
    requires !Ask(t, phase, |t.init|, v).refused
    ensures Held(Ask(t, phase, |t.init|, v).s.counters) <==> Held(t.counters) || SomebodyAcquires(t, phase, v)
  {
    hide Ask, Total, AcquiredBy, SomebodyAcquires, Heeded, Held, Late;
    AskArms(t, phase, |t.init|, v);
    AcquiredForeseen(t, phase, v);
    HeldIffTotal(t.counters);
    HeldIffTotal(Ask(t, phase, |t.init|, v).s.counters);
  }

  /** No handler changes how a plugin other than the resources plugin reacts to the phase. */
  ghost predicate Steady(t: State, phase: Phase, v: nat -> Answer)
    requires Sized(t)
  {
    forall i, q, f :: 0 <= i < |t.init| && q != t.res && f in v(i).effects ==> !Touches(f, q, phase, t.res)
  }

  lemma {:induction false} SteadyBit(t: State, phase: Phase, v: nat -> Answer, i: nat, j: nat)
    requires Sized(t) && j <= i < |t.init| && At(phase, |t.init|, i) != t.res && Steady(t, phase, v)
    ensures BitAt(t, phase, v, i, j) == Flags(t, phase)[At(phase, |t.init|, i)]
    decreases j
  {
    hide BitAfter;
    if j > 0 {
      SteadyBit(t, phase, v, i, j - 1);
      UntouchedBit(BitAt(t, phase, v, i, j - 1), EffectsOf(phase, At(phase, |t.init|, j - 1), t.res, v),
        At(phase, |t.init|, i), phase, t.res, t.life);
    }
  }

  /** Then it is read off the reactions before the poll. */
  lemma QuietBehindIff(t: State, phase: Phase, v: nat -> Answer)
    requires Sized(t) && Steady(t, phase, v)
    ensures QuietBehind(t, phase, v) <==>
            forall i :: TurnOf(phase, |t.init|, t.res) < i < |t.init| && Flags(t, phase)[At(phase, |t.init|, i)] ==>
              AcquiredIn(v(At(phase, |t.init|, i)).effects) == []
  {
    hide BitAt, AcquiredIn;
    forall i | TurnOf(phase, |t.init|, t.res) < i < |t.init|
      ensures Reacts(t, phase, v, i) == Flags(t, phase)[At(phase, |t.init|, i)]
    {
      SteadyBit(t, phase, v, i, i);
    }
  }

  // ---------------------------------------------------------------- whole runs

  /** `Does` is what a handler of any message does outside a poll. */
  datatype Event =
    | Does(f: Effect)
    | Releases(id: nat, v: nat -> Answer)
    | Polls(v: nat -> Answer)
    | InitStarts
    | Starts
    | ShutdownStarts

  function PhaseOf(life: Life): Phase {
    if life == Initializing then Init else Shutdown
  }

  /** Events that do not fit the life of the actor change nothing. */
  function Step(s: State, e: Event): (s': State)
    requires Sized(s)
    ensures Sized(s')
  {
    match e
    case Does(f) => Apply(s, f)
    case Releases(id, v) => Release(s, id, v)
    case Polls(v) =>
      if s.life == Initializing || s.life == ShuttingDown then Continue(s, PhaseOf(s.life), v) else s
    case InitStarts => if s.life == New then s.(life := Initializing) else s
    case Starts => if s.life == Initialized then s.(life := Operational) else s
    case ShutdownStarts => if s.life == ShuttingDown || s.life == ShutDown then s else s.(life := ShuttingDown)
  }

  /** A new actor: plugins have switched their reactions on. */
  predicate Initial(s: State) {
    Sized(s) && s.life == New && s.counters == [] && s.active && s.init[s.res] && s.shutdown[s.res]
  }

  function Run(s: State, es: seq<Event>): (s': State)
    requires Sized(s)
    ensures Sized(s')
  {
    if es == [] then s else Step(Run(s, es[..|es| - 1]), es[|es| - 1])
  }

  /** The state in which an event polls, if it does. */
  function Polled(s: State, e: Event): State
    requires Sized(s)
  {
    if e.Releases? && e.id < |s.counters| && s.counters[e.id] > 0
    then s.(counters := s.counters[e.id := s.counters[e.id] - 1]) else s
  }

  /** The sums stay below 2^31. */
  predicate Small(s: State, e: Event)
    requires Sized(s)
  {
    && Total(s.counters) + 1 < HALF
    && (e.Polls? || e.Releases? ==>
          Bounded(Polled(s, e), PhaseOf(s.life), |s.init|, e.v))
  }

  ghost predicate AllSmall(s: State, es: seq<Event>)
    requires Sized(s)
  {
    forall n :: 0 <= n < |es| ==> Small(Run(s, es[..n]), es[n])
  }

  /** What holds the phases up in each part of an actor's life, until the resources plugin is
      deactivated. */
  predicate Inv(s: State) {
    && Sized(s)
    && (s.active ==>
          && (s.life == New ==> s.init[s.res])
          && (s.life == New || s.life == Initializing ==> Armed(s, Init))
          && (s.life != ShuttingDown && s.life != ShutDown ==> s.shutdown[s.res])
          && (s.life != ShutDown ==> Armed(s, Shutdown)))
  }

  lemma PollKeepsInv(s: State, v: nat -> Answer)
    requires Inv(s) && (s.life == Initializing || s.life == ShuttingDown)
    requires Bounded(s, PhaseOf(s.life), |s.init|, v)
    ensures Inv(Continue(s, PhaseOf(s.life), v))
  {
    hide Ask, Total;
    var phase := PhaseOf(s.life);
    AskArms(s, phase, |s.init|, v);
    if phase.Init? { AskActive(s, Init, |s.init|, v, Shutdown); }
  }

  lemma ApplyKeepsInv(s: State, f: Effect)
    requires Inv(s) && Total(s.counters) + 1 < HALF
    ensures Inv(Apply(s, f))
  {
    hide Total, Incremented;
    if f.Acquires? { IncrementAdds(s.counters, f.id); }
  }

  lemma PolledKeepsInv(s: State, e: Event)
    requires Inv(s)
    ensures Inv(Polled(s, e)) && Polled(s, e).life == s.life && |Polled(s, e).init| == |s.init|
  {
    hide Total;
    if e.Releases? && e.id < |s.counters| && s.counters[e.id] > 0 {
      TotalReplaced(s.counters, e.id, s.counters[e.id] - 1);
    }
  }

  lemma ReleaseKeepsInv(s: State, id: nat, v: nat -> Answer)
    requires Inv(s) && Small(s, Releases(id, v))
    ensures Inv(Release(s, id, v))
  {
    hide Continue, Total, Accumulate;
    var s1 := Polled(s, Releases(id, v));
    PolledKeepsInv(s, Releases(id, v));
    if !HasAny(s1.counters) && (s.life == Initializing || s.life == ShuttingDown) {
      PollKeepsInv(s1, v);
    }
  }

  lemma StepKeepsInv(s: State, e: Event)
    requires Inv(s) && Small(s, e)
    ensures Inv(Step(s, e))
  {
    match e
    case Does(f) => ApplyKeepsInv(s, f);
    case Releases(id, v) => ReleaseKeepsInv(s, id, v);
    case Polls(v) => if s.life == Initializing || s.life == ShuttingDown { PollKeepsInv(s, v); }
    case InitStarts =>
    case Starts =>
    case ShutdownStarts =>
  }

  lemma {:induction false} RunKeepsInv(s: State, es: seq<Event>)
    requires Initial(s) && AllSmall(s, es)
    ensures Inv(Run(s, es))
  {
    hide Step, Inv, Small, AllSmall;
    if es == [] {
      InitialInv(s);
    } else {
      var n := |es| - 1;
      SmallBefore(s, es);
      RunKeepsInv(s, es[..n]);
      StepKeepsInv(Run(s, es[..n]), es[n]);
    }
  }

  lemma InitialInv(s: State)
    requires Initial(s)
    ensures Inv(s)
  {}

  lemma SmallBefore(s: State, es: seq<Event>)
    requires Sized(s) && es != [] && AllSmall(s, es)
    ensures AllSmall(s, es[..|es| - 1]) && Small(Run(s, es[..|es| - 1]), es[|es| - 1])
  {
    hide Run, Small;
    var n := |es| - 1;
    forall m | 0 <= m < n ensures Small(Run(s, es[..n][..m]), es[..n][m]) {
      assert es[..n][..m] == es[..m];
    }
  }

  /** In every run with sums below 2^31, as long as a resource is held, the resources plugin has
      not been deactivated and the actor is not shut down, the plugin still reacts to shutdown,
      so the next poll that reaches it asks it. */
  lemma HeldKeepsShutdownArmed(s: State, es: seq<Event>)
    requires Initial(s) && AllSmall(s, es)
    ensures var t := Run(s, es);
            t.active && t.life != ShutDown && Held(t.counters) ==> t.res < |t.shutdown| && t.shutdown[t.res]
  {
    hide Run;
    RunKeepsInv(s, es);
    HeldIffTotal(Run(s, es).counters);
  }

  lemma ChangedByPoll(s: State, e: Event)
    requires Sized(s) && (e.Polls? || e.Releases?) && Step(s, e).life != s.life
    ensures var t := Polled(s, e);
            var r := Ask(t, PhaseOf(s.life), |t.init|, e.v);
            && (s.life == Initializing || s.life == ShuttingDown) && t.life == s.life && |t.init| == |s.init|
            && !r.refused && Step(s, e).counters == r.s.counters && Step(s, e).life == Ended(PhaseOf(s.life))
  {
    hide Ask, Accumulate;
  }

  /** When initialization or shutdown ends, in any run with sums below 2^31, and the resources
      plugin has been active at its turn, then a resource is held if and only if, seen from the
      state before the poll, somebody who reacts behind that plugin acquires one. */
  lemma EndsUnheldIff(s: State, es: seq<Event>, e: Event)
    requires Initial(s) && AllSmall(s, es)
    ensures var t := Run(s, es);
            var before := Polled(t, e);
            Small(t, e) && (e.Polls? || e.Releases?) && Step(t, e).life != t.life &&
            KeptBefore(before, PhaseOf(t.life), e.v) ==>
              && Step(t, e).life == Ended(PhaseOf(t.life))
              && (Held(Step(t, e).counters) <==> !QuietBehind(before, PhaseOf(t.life), e.v))
  {
    hide Run, Step, Ask, QuietBehind, KeptBefore, Held, Total;
    RunKeepsInv(s, es);
    var t := Run(s, es);
    var before := Polled(t, e);
    PolledKeepsInv(t, e);
    if Small(t, e) && (e.Polls? || e.Releases?) && Step(t, e).life != t.life &&
       KeptBefore(before, PhaseOf(t.life), e.v)
    {
      ChangedByPoll(t, e);
      PollEndsUnheldIff(before, PhaseOf(t.life), e.v);
    }
  }

  /** When initialization or shutdown ends, in any run with sums below 2^31, also past a
      deactivated resources plugin, then a resource is held if and only if, seen from the state
      before the poll, one is held already or somebody who reacts acquires one. */
  lemma EndsHeldIff(s: State, es: seq<Event>, e: Event)
    requires Initial(s) && AllSmall(s, es)
    ensures var t := Run(s, es);
            var before := Polled(t, e);
            Small(t, e) && (e.Polls? || e.Releases?) && Step(t, e).life != t.life ==>
              (Held(Step(t, e).counters) <==>
                Held(before.counters) || SomebodyAcquires(before, PhaseOf(t.life), e.v))
  {
    hide Run, Step, Ask, SomebodyAcquires, Held, Total;
    RunKeepsInv(s, es);
    var t := Run(s, es);
    PolledKeepsInv(t, e);
    if Small(t, e) && (e.Polls? || e.Releases?) && Step(t, e).life != t.life {
      ChangedByPoll(t, e);
      PollEndsHeldIff(Polled(t, e), PhaseOf(t.life), e.v);
    }
  }

  // ---------------------------------------------------------------- each resource is counted

  /** The counter of resource `i`; beyond the list it is zero. */
  function Has(cs: seq<Counter>, i: nat): nat {
    if i < |cs| then cs[i] else 0
  }

  lemma IncrementCounts(cs: seq<Counter>, id: nat, i: nat)
    ensures Has(Incremented(cs, id), i) == if i == id then (Has(cs, id) + 1) % WORD else Has(cs, i)
  {
    var r := Resized(cs, id + 1);
    assert i < |cs| ==> r[..|cs|][i] == r[i];
    assert id < |cs| ==> r[..|cs|][id] == r[id];
  }

  lemma HasBelowTotal(cs: seq<Counter>, i: nat)
    ensures Has(cs, i) <= Total(cs)
  {
    hide Total;
    if i < |cs| { TotalReplaced(cs, i, cs[i]); }
  }

  lemma ApplyCounts(s: State, f: Effect, i: nat)
    requires Sized(s) && Total(s.counters) + |AcquiredIn([f])| < HALF
    ensures Has(Apply(s, f).counters, i) == Has(s.counters, i) + multiset(AcquiredIn([f]))[i]
    ensures Total(Apply(s, f).counters) == Total(s.counters) + |AcquiredIn([f])|
  {
    hide Total, Incremented;
    assert [f][1..] == [];
    if f.Acquires? {
      IncrementAdds(s.counters, f.id);
      IncrementCounts(s.counters, f.id, i);
      HasBelowTotal(s.counters, f.id);
    }
  }

  lemma AcquiredStep(f: Effect, fs: seq<Effect>)
    ensures AcquiredIn([f] + fs) == AcquiredIn([f]) + AcquiredIn(fs)
  {
    assert ([f] + fs)[1..] == fs && [f][1..] == [];
  }

  lemma {:induction false} ApplyAllCounts(s: State, fs: seq<Effect>, i: nat)
    requires Sized(s) && Total(s.counters) + |AcquiredIn(fs)| < HALF
    ensures Has(ApplyAll(s, fs).counters, i) == Has(s.counters, i) + multiset(AcquiredIn(fs))[i]
    ensures Total(ApplyAll(s, fs).counters) == Total(s.counters) + |AcquiredIn(fs)|
    decreases fs
  {
    hide Total, Apply, Has, AcquiredIn;
    if fs == [] {
      assert AcquiredIn([]) == [] by { NothingAcquired(); }
    } else {
      assert fs == [fs[0]] + fs[1..];
      AcquiredStep(fs[0], fs[1..]);
      ApplyCounts(s, fs[0], i);
      ApplyAllCounts(Apply(s, fs[0]), fs[1..], i);
    }
  }

  lemma NothingAcquired()
    ensures AcquiredIn([]) == []
  {}

  lemma RoundCounts(s: State, phase: Phase, p: nat, v: nat -> Answer, visits: seq<Visit>, i: nat)
    requires Sized(s) && p < |s.init|
    requires visits != [] && visits[0] == Round(s, phase, p, v).visit
    requires Total(s.counters) + |AcquiredBy(visits, s.res, phase, v)| < HALF
    ensures var t := Round(s, phase, p, v);
            && Has(t.s.counters, i) + multiset(AcquiredBy(visits[1..], s.res, phase, v))[i] ==
               Has(s.counters, i) + multiset(AcquiredBy(visits, s.res, phase, v))[i]
            && Total(t.s.counters) + |AcquiredBy(visits[1..], s.res, phase, v)| ==
               Total(s.counters) + |AcquiredBy(visits, s.res, phase, v)|
  {
    hide ApplyAll, Total, AcquiredIn, Accumulate, Has;
    if Flags(s, phase)[p] { ApplyAllCounts(s, EffectsOf(phase, p, s.res, v), i); }
  }

  /** In a poll, each counter grows by what the handlers asked acquire of the resource. */
  lemma {:induction false} AskCounts(s: State, phase: Phase, left: nat, v: nat -> Answer, i: nat)
    requires Sized(s) && left <= |s.init| && Bounded(s, phase, left, v)
    ensures var r := Ask(s, phase, left, v);
            Has(r.s.counters, i) == Has(s.counters, i) + multiset(AcquiredBy(r.visits, s.res, phase, v))[i]
    decreases left
  {
    hide Round, Total, Ask, AcquiredIn, Has;
    if left == 0 {
      AskNobody(s, phase, v);
    } else {
      var p := Turn(phase, |s.init|, left);
      var t := Round(s, phase, p, v);
      AskStep(s, phase, left, v);
      RoundCounts(s, phase, p, v, Ask(s, phase, left, v).visits, i);
      if !Refusal(t.visit) {
        AskCounts(t.s, phase, left - 1, v, i);
      }
    }
  }

  /** Whether the event polls: always, or because it releases the last resource. */
  predicate PollsNow(s: State, e: Event)
    requires Sized(s)
  {
    && (s.life == Initializing || s.life == ShuttingDown)
    && (e.Polls? || (e.Releases? && Has(s.counters, e.id) > 0 && !HasAny(Polled(s, e).counters)))
  }

  /** How often the event acquires resource `i`. */
  function Acquisitions(s: State, e: Event, i: nat): nat
    requires Sized(s)
  {
    if e == Does(Acquires(i)) then 1
    else if PollsNow(s, e) then
      var t := Polled(s, e);
      multiset(AcquiredBy(Ask(t, PhaseOf(s.life), |t.init|, e.v).visits, t.res, PhaseOf(s.life), e.v))[i]
    else 0
  }

  function Releasings(s: State, e: Event, i: nat): nat {
    if e.Releases? && e.id == i && Has(s.counters, i) > 0 then 1 else 0
  }

  lemma PolledCounts(s: State, e: Event, i: nat)
    requires Sized(s)
    ensures Has(Polled(s, e).counters, i) == Has(s.counters, i) - Releasings(s, e, i)
  {}

  lemma StepPolls(s: State, e: Event)
    requires Sized(s) && (e.Polls? || e.Releases?)
    ensures Sized(Polled(s, e)) && |Polled(s, e).init| == |s.init| && Polled(s, e).life == s.life
    ensures var t := Polled(s, e);
            Step(s, e).counters ==
            if PollsNow(s, e) then Ask(t, PhaseOf(s.life), |t.init|, e.v).s.counters else t.counters
  {
    hide Ask, Accumulate;
  }

  lemma StepCounts(s: State, e: Event, i: nat)
    requires Sized(s) && Small(s, e)
    ensures Has(Step(s, e).counters, i) + Releasings(s, e, i) == Has(s.counters, i) + Acquisitions(s, e, i)
  {
    hide Ask, Has, Total, AcquiredBy, Accumulate;
    if e.Polls? || e.Releases? {
      PolledCounts(s, e, i);
      StepPolls(s, e);
      if PollsNow(s, e) { AskCounts(Polled(s, e), PhaseOf(s.life), |s.init|, e.v, i); }
    } else if e.Does? {
      DoesCounts(s, e.f, i);
    }
  }

  lemma DoesCounts(s: State, f: Effect, i: nat)
    requires Sized(s) && Total(s.counters) + 1 < HALF
    ensures Has(Apply(s, f).counters, i) == Has(s.counters, i) + if f == Acquires(i) then 1 else 0
  {
    hide Total, Has;
    assert [f][1..] == [];
    ApplyCounts(s, f, i);
  }

  function AcquiredSo(s: State, es: seq<Event>, i: nat): nat
    requires Sized(s)
  {
    if es == [] then 0
    else AcquiredSo(s, es[..|es| - 1], i) + Acquisitions(Run(s, es[..|es| - 1]), es[|es| - 1], i)
  }

  function ReleasedSo(s: State, es: seq<Event>, i: nat): nat
    requires Sized(s)
  {
    if es == [] then 0
    else ReleasedSo(s, es[..|es| - 1], i) + Releasings(Run(s, es[..|es| - 1]), es[|es| - 1], i)
  }

  /** In every run with sums below 2^31, the counter of each resource is the number of its
      acquisitions, in and outside polls, minus the number of its releases. */
  lemma {:induction false} RunCounts(s: State, es: seq<Event>, i: nat)
    requires Initial(s) && AllSmall(s, es)
    ensures Has(Run(s, es).counters, i) + ReleasedSo(s, es, i) == AcquiredSo(s, es, i)
  {
    hide Step, Acquisitions, Releasings, Small, AllSmall;
    if es != [] {
      var n := |es| - 1;
      SmallBefore(s, es);
      RunCounts(s, es[..n], i);
      StepCounts(Run(s, es[..n]), es[n], i);
    }
  }

  /** Acquiring a resource and releasing it restores all counters, if something else is held or
      no phase is under way. */
  lemma AcquireThenRelease(s: State, id: nat, v: nat -> Answer, i: nat)
    requires Sized(s) && Total(s.counters) + 1 < HALF
    requires Total(s.counters) > 0 || (s.life != Initializing && s.life != ShuttingDown)
    ensures Has(Release(Acquire(s, id), id, v).counters, i) == Has(s.counters, i)
  {
    hide Total, Accumulate, Continue;
    var cs := Incremented(s.counters, id);
    IncrementCounts(s.counters, id, i);
    IncrementCounts(s.counters, id, id);
    HasBelowTotal(s.counters, id);
    IncrementAdds(s.counters, id);
    TotalReplaced(cs, id, cs[id] - 1);
    HasAnyExactly(cs[id := cs[id] - 1]);
  }

  /** Releasing a resource ends a phase if and only if nothing else is held and nobody refuses in
      the poll that follows. */
  lemma ReleaseEndsIff(s: State, id: nat, v: nat -> Answer)
    requires Sized(s) && Total(s.counters) < HALF && Has(s.counters, id) > 0
    requires s.life == Initializing || s.life == ShuttingDown
    ensures var t, phase := s.(counters := s.counters[id := s.counters[id] - 1]), PhaseOf(s.life);
            Step(s, Releases(id, v)).life == Ended(phase) <==>
              && !Held(t.counters)
              && forall m :: 0 <= m < |Ask(t, phase, |t.init|, v).visits| ==>
                   !Refusal(Ask(t, phase, |t.init|, v).visits[m])
  {
    hide Total, Accumulate, Ask, Continue, Held;
    var t := s.(counters := s.counters[id := s.counters[id] - 1]);
    TotalReplaced(s.counters, id, s.counters[id] - 1);
    HasAnyExactly(t.counters);
    HeldIffTotal(t.counters);
    PhaseEndsIff(t, PhaseOf(s.life), v);
  }

  // Both conditions can fail: with plugins 0 and 1, of which 0 is the resources plugin.

  lemma RunTwo(s: State, a: Event, b: Event)
    requires Sized(s)
    ensures Run(s, [a, b]) == Step(Step(s, a), b)
  {
    assert [a, b][..1] == [a] && [a][..0] == [];
    assert Run(s, [a]) == Step(s, a);
  }

  const FRESH := State(New, [true, true], [true, true], 0, [], true)

  function Acquiring(p: nat): Answer {
    Answer(true, if p == 1 then [Acquires(0)] else [])
  }

  /** Plugin 1 acquires a resource while it is asked: initialization ends with it held. */
  lemma LateAcquisitionIsMissed()
    ensures Initial(FRESH)
    ensures var t := Run(FRESH, [InitStarts, Polls(Acquiring)]);
            t.life == Initialized && Held(t.counters)
  {
    var v := Acquiring;
    var s1 := Step(FRESH, InitStarts);
    RunTwo(FRESH, InitStarts, Polls(v));
    var t0 := Round(s1, Init, 0, v);
    assert ApplyAll(s1, []) == s1;
    assert t0.s == s1.(init := [false, true]) && t0.visit == Asked(0, true);
    var t1 := Round(t0.s, Init, 1, v);
    assert [Acquires(0)][1..] == [];
    assert ApplyAll(t0.s, [Acquires(0)]) == Acquire(t0.s, 0);
    assert t1.visit == Asked(1, true) && t1.s.counters == Incremented([], 0);
    assert Incremented([], 0)[0] == 1;
    AskStep(s1, Init, 2, v);
    AskStep(t0.s, Init, 1, v);
    AskNobody(t1.s, Init, v);
  }

  function Agreeing(p: nat): Answer {
    Answer(true, [])
  }

  lemma FirstAcquired()
    ensures Held(Incremented([], 0))
  {
    assert Incremented([], 0)[0] == 1;
  }

  lemma PollPastDeactivated(s3: State)
    requires Sized(s3) && s3.res == 0 && s3.shutdown == [false, true]
    ensures var r := Ask(s3, Shutdown, 2, Agreeing);
            !r.refused && r.s.counters == s3.counters
  {
    var v := Agreeing;
    var t0 := Round(s3, Shutdown, 1, v);
    assert ApplyAll(s3, []) == s3;
    assert t0.visit == Asked(1, true) && t0.s.counters == s3.counters && t0.s.shutdown == [false, false];
    var t1 := Round(t0.s, Shutdown, 0, v);
    AskStep(s3, Shutdown, 2, v);
    AskStep(t0.s, Shutdown, 1, v);
    AskNobody(t1.s, Shutdown, v);
  }

  /** A deactivated resources plugin is not asked: shutdown ends with a resource held. */
  lemma DeactivationIsMissed()
    ensures var t := Run(FRESH, [Does(Acquires(0)), Does(Deactivates(0)), ShutdownStarts, Polls(Agreeing)]);
            t.life == ShutDown && Held(t.counters)
  {
    hide Ask, Incremented;
    var es := [Does(Acquires(0)), Does(Deactivates(0)), ShutdownStarts, Polls(Agreeing)];
    var s1 := Acquire(FRESH, 0);
    var s2 := Apply(s1, Deactivates(0));
    var s3 := s2.(life := ShuttingDown);
    assert es[..3][..2] == es[..2] && es[..2] == [es[0], es[1]];
    RunTwo(FRESH, es[0], es[1]);
    assert Run(FRESH, es[..2]) == s2 && Run(FRESH, es[..3]) == s3;
    assert s3.shutdown == [false, true];
    PollPastDeactivated(s3);
    FirstAcquired();
  }
}
