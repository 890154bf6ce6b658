/** How the life of an actor goes on, and which plugins still react after a poll. */
module LifecycleLaws {
  import opened Lifecycle

  /** The life changes as the events say, one state after the other; polls end initialization and
      shutdown, and no handler changes the life. */
  lemma LifeGoesOn(s: State, e: Event)
    requires Sized(s)
    ensures var life := Step(s, e).life;
            match e
            case InitStarts => life == if s.life == New then Initializing else s.life
            case Starts => life == if s.life == Initialized then Operational else s.life
            case ShutdownStarts => life == if s.life == ShutDown then ShutDown else ShuttingDown
            case Does(_) => life == s.life
            case _ =>
              || life == s.life
              || (s.life == Initializing && life == Initialized)
              || (s.life == ShuttingDown && life == ShutDown)
  {
    hide Ask, Accumulate;
  }

  /** A poll of an initializing actor and one of an actor that is shutting down end the phase exactly
      if no plugin refuses. */
  lemma PollEndsPhaseIff(s: State, v: nat -> Answer)
    requires Sized(s) && (s.life == Initializing || s.life == ShuttingDown)
    ensures var phase := if s.life == Initializing then Init else Shutdown;
            var visits := Ask(s, phase, |s.init|, v).visits;
            Step(s, Polls(v)).life ==
            if exists m :: 0 <= m < |visits| && Refusal(visits[m]) then s.life
            else if s.life == Initializing then Initialized else ShutDown
  {
    hide Ask, Refusal;
    var phase := if s.life == Initializing then Init else Shutdown;
    var visits := Ask(s, phase, |s.init|, v).visits;
    PhaseEndsIff(s, phase, v);
    if exists m :: 0 <= m < |visits| && Refusal(visits[m]) {
      var m :| 0 <= m < |visits| && Refusal(visits[m]);
      assert Step(s, Polls(v)).life != Ended(phase);
    } else {
      assert Step(s, Polls(v)).life == Ended(phase);
    }
  }

  /** Acquiring makes the resources plugin react to the phase that the life calls for: to the end of
      initialization while initializing, to shutdown once operational; other reactions stay. */
  lemma AcquireArms(s: State, id: nat, q: nat)
    requires Sized(s) && q < |s.init|
    ensures var s' := Step(s, Does(Acquires(id)));
            && s'.init[q] == (s.init[q] || (q == s.res && s.life == Initializing))
            && s'.shutdown[q] == (s.shutdown[q] || (q == s.res && Rank(s.life) >= Rank(Operational)))
            && |s'.counters| == (if id < |s.counters| then |s.counters| else id + 1)
  {
    assert |Incremented(s.counters, id)| == |Resized(s.counters, id + 1)|;
    hide Incremented;
  }

  function Rank(life: Life): nat {
    match life
    case New => 1
    case Initializing => 2
    case Initialized => 3
    case Operational => 4
    case ShuttingDown => 5
    case ShutDown => 6
  }

  /** The resources plugin itself takes part in a poll for shutdown by its vote alone. */
  lemma ResourcesOnlyVote(s: State, v: nat -> Answer)
    requires Sized(s)
    ensures var t := Round(s, Shutdown, s.res, v);
            && t.s == s.(shutdown := s.shutdown[s.res := t.s.shutdown[s.res]])
            && (t.s.shutdown[s.res] <==> s.shutdown[s.res] && HasAny(s.counters))
            && t.visit == if s.shutdown[s.res] then Asked(s.res, !HasAny(s.counters)) else Passed(s.res)
  {
    hide HasAny;
    assert ApplyAll(s, []) == s;
    assert s.shutdown[s.res := s.shutdown[s.res]] == s.shutdown;
  }

  // ---------------------------------------------------------------- plugins that have agreed

  lemma NotVisitedAgain(s: State, phase: Phase, left: nat, v: nat -> Answer, q: nat)
    requires Sized(s) && left < |s.init| && q == Turn(phase, |s.init|, left + 1)
    ensures !Visited(Ask(s, phase, left, v).visits, q)
  {
    hide Ask;
    var visits := Ask(s, phase, left, v).visits;
    forall i | 0 <= i < |visits| ensures visits[i].p != q {
      VisitsAreInOrder(s, phase, left, v, i);
    }
  }

  lemma TurnOff(s: State, phase: Phase, p: nat, v: nat -> Answer)
    requires Sized(s) && p < |s.init| && !Refusal(Round(s, phase, p, v).visit)
    ensures !Flags(Round(s, phase, p, v).s, phase)[p]
  {
    hide ApplyAll, HasAny;
  }

  lemma FromFirst(s: State, phase: Phase, left: nat, v: nat -> Answer)
    requires Sized(s) && 0 < left <= |s.init|
    requires !Refusal(Ask(s, phase, left, v).visits[0])
    ensures var r := Ask(s, phase, left, v);
            Flags(r.s, phase)[r.visits[0].p] ==
            BitAfter(false, Performed(r.visits[1..], s.res, phase, v), r.visits[0].p, phase, s.res, s.life)
  {
    hide Round, Ask, BitAfter;
    var p := Turn(phase, |s.init|, left);
    AskStep(s, phase, left, v);
    TurnOff(s, phase, p, v);
    var t := Round(s, phase, p, v);
    NotVisitedAgain(t.s, phase, left - 1, v, p);
    ReactionsBeyond(t.s, phase, left - 1, v, p, phase);
  }

  /** A plugin that a poll passes or that says yes does not react any more, unless something that a
      handler asked later in the poll does makes it react again. */
  lemma {:induction false} AgreedReactsNoMore(s: State, phase: Phase, left: nat, v: nat -> Answer, i: nat)
    requires Sized(s) && left <= |s.init| && i < |Ask(s, phase, left, v).visits|
    requires !Refusal(Ask(s, phase, left, v).visits[i])
    ensures var r := Ask(s, phase, left, v);
            var q := r.visits[i].p;
            q < |s.init| && Flags(r.s, phase)[q] ==
              BitAfter(false, Performed(r.visits[i + 1..], s.res, phase, v), q, phase, s.res, s.life)
    decreases left
  {
    hide Round, Ask, BitAfter, Performed;
    VisitsAreInOrder(s, phase, left, v, i);
    AskStep(s, phase, left, v);
    var visits := Ask(s, phase, left, v).visits;
    if i == 0 {
      FromFirst(s, phase, left, v);
    } else {
      var t := Round(s, phase, Turn(phase, |s.init|, left), v);
      assert visits[1..][i - 1] == visits[i] && visits[1..][i..] == visits[i + 1..];
      VisitsAreInOrder(s, phase, left, v, 0);
      AgreedReactsNoMore(t.s, phase, left - 1, v, i - 1);
    }
  }

  /** So a plugin that has said yes is not asked in the next poll, if no handler asked has switched it
      on again: it is passed. */
  lemma AgreedIsPassed(s: State, phase: Phase, v: nat -> Answer, i: nat)
    requires Sized(s) && i < |Ask(s, phase, |s.init|, v).visits|
    requires var r := Ask(s, phase, |s.init|, v);
             && !Refusal(r.visits[i])
             && forall f :: f in Performed(r.visits[i + 1..], s.res, phase, v) ==>
                  !Touches(f, r.visits[i].p, phase, s.res)
    ensures var r := Ask(s, phase, |s.init|, v);
            var q := r.visits[i].p;
            q < |s.init| && !Flags(r.s, phase)[q] && Round(r.s, phase, q, v).visit == Passed(q)
  {
    hide Ask, Performed, Refusal;
    AgreedReactsNoMore(s, phase, |s.init|, v, i);
    var r := Ask(s, phase, |s.init|, v);
    UntouchedBit(false, Performed(r.visits[i + 1..], s.res, phase, v), r.visits[i].p, phase, s.res, s.life);
  }
}
