/** What single events do to the children of a supervisor, and how its shutdown completes. */
module ChildEffects {
  import opened AddressMapping
  import opened Children

  /** A child that has not been asked to shut down. */
  predicate Waiting(s: State, c: Addr) {
    c in s.actors && c != s.self && s.actors[c] == None
  }

  function AllWaiting(s: State): set<Addr> {
    set c | c in s.actors && Waiting(s, c)
  }

  /** Children asked by the step, each once, and nobody else; nobody comes or goes. */
  ghost predicate AsksExactly(s: State, s': State, these: set<Addr>) {
    && s'.actors.Keys == s.actors.Keys
    && (forall c :: s'.log.requests[c] == s.log.requests[c] + if c in these then 1 else 0)
    && (forall c :: c in s.actors && c != s.self ==> s'.actors[c] == if c in these then Sent else s.actors[c])
    && s'.log.answers == s.log.answers && s'.log.removals == s.log.removals
    && s'.log.created == s.log.created && s'.log.late == s.log.late
    && s'.self == s.self && s'.hasParent == s.hasParent && s'.mapping == s.mapping
  }

  lemma AllAsked(s: State)
    ensures AsksExactly(s, RequestAll(Confirm(s, s.self)), AllWaiting(s))
    ensures RequestAll(Confirm(s, s.self)) ==
            s.(actors := RequestAll(Confirm(s, s.self)).actors, log := RequestAll(Confirm(s, s.self)).log)
  {
    assert AllUnasked(Confirm(s, s.self)) == AllWaiting(s);
  }

  /** The manager agrees exactly if it is reached and no child is left; once it has agreed a poll that
      reaches it takes all points down, or ends the shutdown when there are none. */
  ghost predicate GoesOn(s: State, s': State, v: Votes) {
    && (s'.armed <==> s.armed && !(v.reached && s.actors.Keys == {s.self}))
    && s'.unsubscribing == s.unsubscribing +
         (if v.reached && !s'.armed && v.unsubscribes then AllPoints(s.mapping) else {})
    && s'.life == (if v.reached && !s'.armed && !v.unsubscribes && v.rest && s.mapping == map[]
                   then ShutDown else ShuttingDown)
  }

  /** A poll that reaches the manager asks every child not asked before and nobody twice; the manager
      agrees exactly when no child is left, and only then the plugins behind it are asked. */
  lemma PollAsksAll(s: State, v: Votes)
    requires s.life == ShuttingDown && s.armed && s.self in s.actors
    ensures var s' := Step(s, Polls(v));
            && AsksExactly(s, s', if v.reached then AllWaiting(s) else {})
            && GoesOn(s, s', v)
  {
    hide RequestAll, AllPoints, AllWaiting;
    AllAsked(s);
    AloneIff(s);
    if v.reached {
      assert Step(s, Polls(v)).log == RequestAll(Confirm(s, s.self)).log;
    } else {
      hide AsksExactly;
      AsksNobody(s);
    }
  }

  lemma AsksNobody(s: State)
    ensures AsksExactly(s, s, {})
  {}

  lemma AloneIff(s: State)
    requires s.self in s.actors
    ensures |s.actors| == 1 <==> s.actors.Keys == {s.self}
    ensures |RequestAll(Confirm(s, s.self)).actors| == |s.actors|
  {
    assert RequestAll(Confirm(s, s.self)).actors.Keys == s.actors.Keys;
    if |s.actors| == 1 { OnlySelfLeft(s); }
  }

  /** With the manager's agreement the poll asks nobody any more. */
  lemma PollWithoutManager(s: State, v: Votes)
    requires !s.armed || s.life != ShuttingDown
    ensures Step(s, Polls(v)) ==
            if s.life != ShuttingDown || !v.reached then s
            else if v.unsubscribes then s.(unsubscribing := s.unsubscribing + AllPoints(s.mapping))
            else if v.rest && s.mapping == map[] then s.(life := ShutDown)
            else s
  {}

  /** The request of its parent starts the shutdown of a running supervisor with a poll. */
  lemma StartPolls(s: State, v: Votes)
    ensures Step(s, ShutdownStarts(v)) ==
            if s.life == Running then Step(s.(life := ShuttingDown), Polls(v)) else s
  {}

  /** A trigger asks the child it is about, once; a supervisor that has a parent is only marked, as the
      request will come from there; one that has none asks all children and shuts down. */
  lemma TriggerAsks(s: State, c: Addr, v: Votes)
    requires s.self in s.actors
    ensures var s' := Step(s, Triggers(c, v));
            if c !in s.actors || s.actors[c] != None then s' == s
            else if c != s.self then
              AsksExactly(s, s', {c}) && s' == s.(actors := s.actors[c := Sent], log := s'.log)
            else if s.hasParent || s.life == ShuttingDown then
              AsksExactly(s, s', {}) && s' == s.(actors := s.actors[c := Sent], log := s'.log)
            else
              AsksExactly(s, s', AllWaiting(s)) && GoesOn(s, s', v) && s'.actors[c] == Sent
  {
    hide RequestAll, AllPoints, AllWaiting, Poll;
    if c in s.actors && s.actors[c] == None {
      if c != s.self {
        assert multiset{c}[c] == 1;
      } else if s.hasParent || s.life == ShuttingDown {
        assert s.log == s.log.(requests := s.log.requests);
      } else {
        SelfAsks(s, v);
      }
    }
  }

  lemma SelfAsks(s: State, v: Votes)
    requires s.self in s.actors && s.life != ShuttingDown
    ensures var s' := ShutdownSelf(s, v);
            AsksExactly(s, s', AllWaiting(s)) && GoesOn(s, s', v)
  {
    hide RequestAll, AllWaiting, Confirm, Poll, AsksExactly, GoesOn;
    AllAsked(s);
    var s0 := RequestAll(Confirm(s, s.self));
    var s1 := s0.(life := ShuttingDown);
    ShutdownAside(s, s0, AllWaiting(s));
    PollAgain(s, v);
    AsksTwice(s, s1, Poll(s1, v), AllWaiting(s));
    SameGoing(s, s1, Poll(s1, v), v);
  }

  /** The children have been asked, so the poll asks nobody. */
  lemma PollAgain(s: State, v: Votes)
    requires s.self in s.actors
    ensures var s1 := RequestAll(Confirm(s, s.self)).(life := ShuttingDown);
            AsksExactly(s1, Poll(s1, v), {}) && GoesOn(s1, Poll(s1, v), v)
  {
    AllAsked(s);
    NobodyWaits(s);
    hide RequestAll, AllWaiting, Confirm;
    var s1 := RequestAll(Confirm(s, s.self)).(life := ShuttingDown);
    if s1.armed {
      hide Poll;
      PollAsksAll(s1, v);
    } else {
      PollWithoutManager(s1, v);
    }
  }

  lemma SameGoing(s: State, s1: State, s': State, v: Votes)
    requires GoesOn(s1, s', v) && AsksExactly(s, s1, AllWaiting(s))
    requires s1.armed == s.armed && s1.unsubscribing == s.unsubscribing
    ensures GoesOn(s, s', v)
  {
    hide AllWaiting, AllPoints;
  }

  lemma ShutdownAside(s: State, s0: State, these: set<Addr>)
    requires AsksExactly(s, s0, these)
    ensures AsksExactly(s, s0.(life := ShuttingDown), these)
  {}

  lemma AsksTwice(s: State, s1: State, s': State, these: set<Addr>)
    requires AsksExactly(s, s1, these) && AsksExactly(s1, s', {})
    ensures AsksExactly(s, s', these)
  {}

  lemma NobodyWaits(s: State)
    ensures AllWaiting(RequestAll(Confirm(s, s.self)).(life := ShuttingDown)) == {}
  {}

  /** The first answer to a request takes down exactly the points of the child, which leaves at once
      if it has none; another answer does nothing. */
  lemma AnswerTakesDown(s: State, c: Addr)
    requires Inv(s) && c != s.self && c in s.actors
    ensures var s' := Step(s, Answers(c));
            if s.log.requests[c] == 0 || s.log.answers[c] > 0 then s' == s
            else
              && s'.log.answers == s.log.answers + multiset{c} && s'.log.requests == s.log.requests
              && s'.mapping == s.mapping && s'.life == s.life && s'.armed == s.armed
              && (forall p :: p in s'.unsubscribing <==> p in s.unsubscribing || (Has(s.mapping, p) && p.owner == c))
              && if exists p :: Has(s.mapping, p) && p.owner == c
                 then s'.actors == s.actors[c := Confirmed] && s'.log.removals == s.log.removals
                 else s'.actors == s.actors - {c} && s'.log.removals == s.log.removals + multiset{c}
  {
    assert ChildInv(s, c);
    SubscriptionsArePoints(s.mapping, c);
    var s' := Step(s, Answers(c));
    if s.log.requests[c] != 0 && s.log.answers[c] == 0 {
      forall p ensures p in s'.unsubscribing <==> p in s.unsubscribing || (Has(s.mapping, p) && p.owner == c) {
        PointsTakenDown(s.mapping, c, p);
      }
    }
  }

  lemma PointsTakenDown(m: map<Addr, Points>, c: Addr, p: Point)
    requires Tidy(m)
    ensures (c in m && p in set t | t in m[c] :: m[c][t]) <==> Has(m, p) && p.owner == c
  {}

  /** When a point has been taken down exactly that point is gone, and its owner leaves exactly if it
      was the last one. */
  lemma UnsubscribedEnds(s: State, p: Point)
    requires Inv(s) && p in s.unsubscribing
    ensures var s' := Step(s, Unsubscribes(p));
            && (forall q :: Has(s'.mapping, q) <==> Has(s.mapping, q) && q != p)
            && s'.unsubscribing == s.unsubscribing - {p} && s'.life == s.life && s'.armed == s.armed
            && s'.log.requests == s.log.requests && s'.log.answers == s.log.answers
            && s'.actors == (if exists q :: Has(s'.mapping, q) && q.owner == p.owner
                             then s.actors else s.actors - {p.owner})
  {
    StepKeepsInv(s, Unsubscribes(p));
    var s' := Step(s, Unsubscribes(p));
    SubscriptionsArePoints(s'.mapping, p.owner);
    forall q ensures Has(s'.mapping, q) <==> Has(s.mapping, q) && q != p {
      RemoveIsExact(s.mapping, p, q);
    }
  }

  /** A point set up is there, whatever was there stays, and one of a type in use is not replaced. */
  lemma MapsAdds(s: State, a: Addr, t: Type, p: Point)
    requires Inv(s) && p.owner == a
    requires forall q :: Has(s.mapping, q) ==> q.handler != p.handler || q.address != p.address
    ensures var s' := Step(s, Maps(a, t, p));
            && s' == s.(mapping := s'.mapping)
            && (forall q :: Has(s'.mapping, q) <==> Has(s.mapping, q) || (q == p && t !in PointsOf(s.mapping, a)))
            && PointsOf(s'.mapping, a).Keys == PointsOf(s.mapping, a).Keys + {t}
  {
    var s' := Step(s, Maps(a, t, p));
    forall q | q in AllPoints(s.mapping) ensures Has(s.mapping, q) {}
    assert s'.mapping == Set(s.mapping, a, t, p);
    forall q ensures Has(s'.mapping, q) <==> Has(s.mapping, q) || (q == p && t !in PointsOf(s.mapping, a)) {
      SetAdds(s.mapping, a, t, p, q);
    }
  }

  lemma SetAdds(m: map<Addr, Points>, a: Addr, t: Type, p: Point, q: Point)
    requires p.owner == a
    ensures Has(Set(m, a, t, p), q) <==> Has(m, q) || (q == p && t !in PointsOf(m, a))
  {
    var m' := Set(m, a, t, p);
    if Has(m, q) {
      var u :| u in m[q.owner] && m[q.owner][u] == q;
      assert u in m'[q.owner] && m'[q.owner][u] == q;
    }
    if q == p && t !in PointsOf(m, a) {
      assert t in m'[a] && m'[a][t] == p;
    }
    if Has(m', q) {
      var u :| u in m'[q.owner] && m'[q.owner][u] == q;
      assert q.owner == a || m'[q.owner] == m[q.owner];
    }
  }

  /** The supervisor leaves its own map when the manager has agreed and it is alone without points. */
  lemma DeactivationLeaves(s: State)
    ensures var s' := Step(s, Deactivates);
            && s' == s.(actors := s'.actors, log := s.log.(removals := s'.log.removals))
            && s'.actors == if !s.armed && s.mapping == map[] && s.actors.Keys == {s.self} then map[] else s.actors
  {
    if s.self in s.actors {
      AloneIff(s);
      if s.actors.Keys == {s.self} {
        assert (s.actors - {s.self}).Keys == {};
      }
    }
  }

  // ---------------------------------------------------------------- the shutdown completes

  /** A child that has answered is there only because of points that are being taken down. */
  ghost predicate Parting(s: State, c: Addr) {
    c in s.actors && c != s.self && s.actors[c] == Confirmed ==>
      && c in s.mapping
      && forall p :: Has(s.mapping, p) && p.owner == c ==> p in s.unsubscribing
  }

  ghost predicate AllParting(s: State) {
    forall c :: Parting(s, c)
  }

  /** A child that has answered sends no further requests. */
  predicate Quiet(s: State, e: Event) {
    e.Maps? ==> !(e.child in s.actors && s.actors[e.child] == Confirmed)
  }

  ghost predicate QuietRun(s: State, es: seq<Event>) {
    es != [] ==> QuietRun(s, es[..|es| - 1]) && Quiet(Run(s, es[..|es| - 1]), es[|es| - 1])
  }

  /** Nobody is confirmed by the step, and no point is set up or taken off the list. */
  ghost predicate OnlyAsks(s: State, s': State) {
    && s'.self == s.self && s'.mapping == s.mapping && s.unsubscribing <= s'.unsubscribing
    && forall c :: c in s'.actors && c != s.self && s'.actors[c] == Confirmed ==>
         c in s.actors && s.actors[c] == Confirmed
  }

  lemma OnlyAsksKeeps(s: State, s': State)
    requires AllParting(s) && OnlyAsks(s, s')
    ensures AllParting(s')
  {
    hide Has;
    forall c ensures Parting(s', c) {
      assert Parting(s, c);
    }
  }

  lemma PollOnlyAsks(s: State, v: Votes)
    ensures OnlyAsks(s, Poll(s, v))
  {
    hide AllPoints, RequestAll;
    RequestOnlyAsks(s);
  }

  lemma RequestOnlyAsks(s: State)
    ensures OnlyAsks(s, RequestAll(Confirm(s, s.self)))
  {
    hide AllUnasked;
  }

  lemma TriggerOnlyAsks(s: State, c: Addr, v: Votes)
    ensures OnlyAsks(s, OnTrigger(s, c, v))
  {
    hide RequestAll, Poll;
    if c == s.self {
      RequestOnlyAsks(s);
      PollOnlyAsks(RequestAll(Confirm(s, s.self)).(life := ShuttingDown), v);
    }
  }

  lemma AnswerKeepsParting(s: State, c: Addr)
    requires Inv(s) && AllParting(s)
    ensures AllParting(OnAnswer(s, c))
  {
    var s' := OnAnswer(s, c);
    forall x ensures Parting(s', x) {
      assert Parting(s, x);
      if x == c && c in s.mapping {
        forall p | Has(s.mapping, p) && p.owner == c ensures p in set t | t in s.mapping[c] :: s.mapping[c][t] {
          PointsTakenDown(s.mapping, c, p);
        }
      }
    }
  }

  lemma UnsubscribedKeepsParting(s: State, p: Point)
    requires Inv(s) && AllParting(s)
    ensures AllParting(OnUnsubscribed(s, p))
  {
    var s' := OnUnsubscribed(s, p);
    if p in s.unsubscribing {
      UnsubscribedEnds(s, p);
      forall x ensures Parting(s', x) {
        assert Parting(s, x);
      }
    }
  }

  lemma MapKeepsParting(s: State, a: Addr, t: Type, p: Point)
    requires AllParting(s) && Quiet(s, Maps(a, t, p))
    ensures AllParting(OnMap(s, a, t, p))
  {
    var s' := OnMap(s, a, t, p);
    forall x ensures Parting(s', x) {
      assert Parting(s, x);
      if x != a && s' != s {
        forall q | Has(s'.mapping, q) && q.owner == x ensures Has(s.mapping, q) {
          SetAdds(s.mapping, a, t, p, q);
        }
      }
    }
  }

  lemma OthersOnlyAsk(s: State, e: Event)
    ensures e.Creates? ==> OnlyAsks(s, OnCreate(s, e.child))
    ensures e.Deactivates? ==> OnlyAsks(s, OnDeactivate(s))
    ensures e.ShutdownStarts? ==> OnlyAsks(s, Step(s, e))
  {
    hide Poll;
    if e.ShutdownStarts? {
      PollOnlyAsks(s.(life := ShuttingDown), e.v);
    }
  }

  lemma StepKeepsParting(s: State, e: Event)
    requires Inv(s) && AllParting(s) && Quiet(s, e)
    ensures AllParting(Step(s, e))
  {
    hide Inv, AllParting, Poll, OnTrigger, OnAnswer, OnUnsubscribed, OnMap, OnCreate, OnDeactivate;
    OthersOnlyAsk(s, e);
    hide OnlyAsks;
    match e
    case Creates(c) => OnlyAsksKeeps(s, OnCreate(s, c));
    case Maps(c, t, p) => MapKeepsParting(s, c, t, p);
    case Triggers(c, v) => TriggerOnlyAsks(s, c, v); OnlyAsksKeeps(s, OnTrigger(s, c, v));
    case ShutdownStarts(_) => OnlyAsksKeeps(s, Step(s, e));
    case Polls(v) => PollOnlyAsks(s, v); OnlyAsksKeeps(s, Poll(s, v));
    case Answers(c) => AnswerKeepsParting(s, c);
    case Unsubscribes(p) => UnsubscribedKeepsParting(s, p);
    case Deactivates => OnlyAsksKeeps(s, OnDeactivate(s));
  }

  lemma {:induction false} QuietRunParts(self: Addr, hasParent: bool, es: seq<Event>)
    requires QuietRun(Initially(self, hasParent), es)
    ensures AllParting(Run(Initially(self, hasParent), es))
  {
    hide Step, AllParting, Quiet, Inv;
    var s0 := Initially(self, hasParent);
    if es == [] {
      OneParting(s0);
    } else {
      QuietRunParts(self, hasParent, es[..|es| - 1]);
      RunKeepsInv(self, hasParent, es[..|es| - 1]);
      StepKeepsParting(Run(s0, es[..|es| - 1]), es[|es| - 1]);
    }
  }

  lemma OneParting(s: State)
    requires forall c :: c in s.actors ==> s.actors[c] == None
    ensures AllParting(s)
  {}

  /** Children that have been asked and have not answered. */
  function Outstanding(s: State): set<Addr> {
    set c | c in s.actors && c != s.self && s.actors[c] == Sent
  }

  /** The supervisor is shutting down and has asked every child. */
  ghost predicate AllAskedTo(s: State) {
    && Inv(s) && AllParting(s) && s.life == ShuttingDown
    && forall c :: c in s.actors && c != s.self ==> s.actors[c] != None
  }

  /** The child answers. */
  lemma AnswerGoesOn(s: State, c: Addr)
    requires AllAskedTo(s) && s.armed && c in Outstanding(s)
    ensures var s' := Step(s, Answers(c));
            AllAskedTo(s') && s'.armed && Outstanding(s') == Outstanding(s) - {c}
  {
    StepKeepsInv(s, Answers(c));
    AnswerKeepsParting(s, c);
    assert ChildInv(s, c);
    hide Inv, AllParting;
  }

  /** A point of an answered child is taken down. */
  lemma UnsubscribedGoesOn(s: State, p: Point)
    requires AllAskedTo(s) && s.armed && p in s.unsubscribing
    ensures var s' := Step(s, Unsubscribes(p));
            && AllAskedTo(s') && s'.armed && s'.unsubscribing == s.unsubscribing - {p}
            && Outstanding(s') <= Outstanding(s)
  {
    StepKeepsInv(s, Unsubscribes(p));
    UnsubscribedKeepsParting(s, p);
    hide Inv, AllParting, Remove;
  }

  lemma PartingPoint(s: State, c: Addr) returns (p: Point)
    requires AllAskedTo(s) && s.armed && Outstanding(s) == {} && c in s.actors && c != s.self
    ensures p in s.unsubscribing
  {
    assert c !in Outstanding(s);
    assert Parting(s, c);
    SubscriptionsArePoints(s.mapping, c);
    p :| Has(s.mapping, p) && p.owner == c;
  }

  /** As long as there are children, one of them can go on. */
  lemma {:induction false} ChildrenLeave(s: State) returns (es: seq<Event>)
    requires AllAskedTo(s) && s.armed
    ensures var s' := Run(s, es); AllAskedTo(s') && s'.armed && s'.self in s'.actors && |s'.actors| == 1
    decreases Outstanding(s), s.unsubscribing, 0
  {
    if Outstanding(s) != {} {
      var c :| c in Outstanding(s);
      AnswerGoesOn(s, c);
      es := OneThen(s, Answers(c));
    } else if exists c :: c in s.actors && c != s.self {
      var c :| c in s.actors && c != s.self;
      var p := PartingPoint(s, c);
      UnsubscribedGoesOn(s, p);
      es := OneThen(s, Unsubscribes(p));
    } else {
      es := [];
      assert s.actors.Keys == {s.self};
    }
  }

  lemma OneThen(s: State, e: Event) returns (es: seq<Event>)
    requires var s' := Step(s, e); AllAskedTo(s') && s'.armed
    ensures var s' := Run(s, es); AllAskedTo(s') && s'.armed && s'.self in s'.actors && |s'.actors| == 1
    decreases Outstanding(Step(s, e)), Step(s, e).unsubscribing, 1
  {
    var rest := ChildrenLeave(Step(s, e));
    es := [e] + rest;
    RunOne(s, e);
    RunJoined(s, [e], rest);
  }

  /** The last poll takes down what is left, and the one after it ends the shutdown. */
  lemma AloneEnds(s: State) returns (es: seq<Event>)
    requires Inv(s) && s.life == ShuttingDown && s.log.answers[s.self] == 0
    requires s.armed ==> s.self in s.actors && |s.actors| == 1
    ensures Run(s, es).life == ShutDown
  {
    hide Inv, Ending, Poll;
    var s1 := Poll(s, UNSUBSCRIBE);
    AloneUnsubscribes(s);
    StepKeepsInv(s, Polls(UNSUBSCRIBE));
    var down := AllPointsGo(s1, s.self);
    LastPollEnds(Run(s1, down), s.self);
    es := [Polls(UNSUBSCRIBE)] + down + [Polls(GO)];
    RunOne(s, Polls(UNSUBSCRIBE));
    RunJoined(s, [Polls(UNSUBSCRIBE)], down);
    RunOneMore(s, [Polls(UNSUBSCRIBE)] + down, Polls(GO));
  }

  lemma AloneUnsubscribes(s: State)
    requires s.life == ShuttingDown && s.log.answers[s.self] == 0
    requires s.armed ==> s.self in s.actors && |s.actors| == 1
    ensures Ending(Poll(s, UNSUBSCRIBE), s.self)
  {
    if s.armed {
      AllAsked(s);
      AloneIff(s);
      UnsubscribingEnds(RequestAll(Confirm(s, s.self)).(armed := false), s.self);
    } else {
      UnsubscribingEnds(s, s.self);
    }
  }

  lemma LastPollEnds(s: State, c: Addr)
    requires Ending(s, c) && s.mapping == map[]
    ensures Poll(s, GO).life == ShutDown
  {}

  lemma CanEnd(s: State) returns (es: seq<Event>)
    requires Inv(s) && (s.armed ==> AllParting(s))
    ensures Run(s, es).life == ShutDown
  {
    hide Run, Step, Inv, AllParting;
    if s.life == ShutDown {
      es := [];
      RunNothing(s);
    } else {
      var e := if s.life == Running then ShutdownStarts(ASK) else Polls(ASK);
      var s1 := Step(s, e);
      StepKeepsInv(s, e);
      if s.armed { StepKeepsParting(s, e); }
      FirstPoll(s);
      NotArmedAgain(s, e);
      var rest := FromPoll(s1);
      es := [e] + rest;
      RunOne(s, e);
      RunJoined(s, [e], rest);
    }
  }

  const ASK := Votes(true, false, false)

  /** The first poll asks every child, unless the manager has agreed already. */
  lemma FirstPoll(s: State)
    requires Inv(s) && s.life != ShutDown
    ensures var s1 := Step(s, if s.life == Running then ShutdownStarts(ASK) else Polls(ASK));
            && s1.life == ShuttingDown && s1.log.answers[s1.self] == 0
            && (s1.armed ==> s1.self in s1.actors)
            && (s1.armed ==> forall c :: c in s1.actors && c != s1.self ==> s1.actors[c] != None)
  {
    if s.armed {
      PollAsksAll(s.(life := ShuttingDown), ASK);
    }
  }

  lemma FromPoll(s: State) returns (es: seq<Event>)
    requires Inv(s) && s.life == ShuttingDown && s.log.answers[s.self] == 0
    requires s.armed ==> AllParting(s) && s.self in s.actors
    requires s.armed ==> forall c :: c in s.actors && c != s.self ==> s.actors[c] != None
    ensures Run(s, es).life == ShutDown
  {
    hide Run, Step, Inv, AllParting;
    if s.armed {
      var leave := ChildrenLeave(s);
      SelfUnanswered(Run(s, leave));
      var rest := AloneEnds(Run(s, leave));
      es := leave + rest;
      RunJoined(s, leave, rest);
    } else {
      es := AloneEnds(s);
    }
  }

  lemma SelfUnanswered(s: State)
    requires Inv(s)
    ensures s.log.answers[s.self] == 0
  {}

  lemma NotArmedAgain(s: State, e: Event)
    ensures Step(s, e).armed ==> s.armed
  {
    hide AllUnasked, AllPoints;
  }

  /** Shutdown is never stuck: whatever a supervisor and its children have done so far, as long as
      children that have answered send no more requests, it can still end. */
  lemma ShutdownCanEnd(self: Addr, hasParent: bool, before: seq<Event>) returns (es: seq<Event>)
    requires QuietRun(Initially(self, hasParent), before)
    ensures Run(Run(Initially(self, hasParent), before), es).life == ShutDown
  {
    hide Run, Step, Inv, AllParting, QuietRun;
    RunKeepsInv(self, hasParent, before);
    QuietRunParts(self, hasParent, before);
    es := CanEnd(Run(Initially(self, hasParent), before));
  }

  // ---------------------------------------------------------------- when it cannot end

  /** A child that has answered is there because of a point. */
  ghost predicate Mapped(s: State) {
    forall c :: c in s.actors && c != s.self && s.actors[c] == Confirmed ==> c in s.mapping
  }

  lemma OnlyAsksMaps(s: State, s': State)
    requires Mapped(s) && OnlyAsks(s, s')
    ensures Mapped(s')
  {}

  lemma StepKeepsMapped(s: State, e: Event)
    requires Mapped(s)
    ensures Mapped(Step(s, e))
  {
    hide Poll, OnTrigger, OnCreate, OnDeactivate, OnlyAsks, Remove, Mapped;
    match e
    case Triggers(c, v) => TriggerOnlyAsks(s, c, v); OnlyAsksMaps(s, OnTrigger(s, c, v));
    case Polls(v) => PollOnlyAsks(s, v); OnlyAsksMaps(s, Poll(s, v));
    case Maps(c, t, p) => MapsKeepMapped(s, e);
    case Answers(c) => MapsKeepMapped(s, e);
    case Unsubscribes(p) => MapsKeepMapped(s, e);
    case _ => OthersOnlyAsk(s, e); OnlyAsksMaps(s, Step(s, e));
  }

  lemma MapsKeepMapped(s: State, e: Event)
    requires Mapped(s) && (e.Maps? || e.Answers? || e.Unsubscribes?)
    ensures Mapped(Step(s, e))
  {}

  lemma {:induction false} RunMaps(self: Addr, hasParent: bool, es: seq<Event>)
    ensures Mapped(Run(Initially(self, hasParent), es))
  {
    hide Step, Mapped;
    if es == [] {
      OneMapped(Initially(self, hasParent));
    } else {
      RunMaps(self, hasParent, es[..|es| - 1]);
      StepKeepsMapped(Run(Initially(self, hasParent), es[..|es| - 1]), es[|es| - 1]);
    }
  }

  lemma OneMapped(s: State)
    requires forall c :: c in s.actors ==> s.actors[c] == None
    ensures Mapped(s)
  {}

  /** A point of an answered child that is not being taken down. */
  ghost predicate Stuck(s: State, p: Point) {
    && s.armed && p.owner != s.self && p.owner in s.actors && s.actors[p.owner] == Confirmed
    && Has(s.mapping, p) && p !in s.unsubscribing
  }

  lemma StuckStays(s: State, e: Event, p: Point)
    requires Inv(s) && Stuck(s, p)
    ensures Stuck(Step(s, e), p)
  {
    assert ChildInv(s, p.owner);
    hide Has, Inv;
    match e
    case Triggers(c, v) => StuckTriggered(s, c, v, p);
    case ShutdownStarts(v) => StuckPolled(s.(life := ShuttingDown), v, p);
    case Polls(v) => StuckPolled(s, v, p);
    case Maps(a, t, q) => if q.owner == a { SetAdds(s.mapping, a, t, q, p); }
    case Unsubscribes(q) => if q in s.unsubscribing { UnsubscribedEnds(s, q); }
    case Answers(c) => StuckAnswered(s, c, p);
    case Creates(c) =>
    case Deactivates =>
  }

  lemma StuckPolled(s: State, v: Votes, p: Point)
    requires Stuck(s, p) && s.self in s.actors
    ensures Stuck(Poll(s, v), p)
  {
    hide Has, AllPoints;
    AloneIff(s);
  }

  lemma StuckTriggered(s: State, c: Addr, v: Votes, p: Point)
    requires Stuck(s, p) && s.self in s.actors
    ensures Stuck(OnTrigger(s, c, v), p)
  {
    hide Has, Poll;
    if c == s.self && !s.hasParent && s.life != ShuttingDown {
      StuckPolled(RequestAll(Confirm(s, s.self)).(life := ShuttingDown), v, p);
    }
  }

  lemma StuckAnswered(s: State, c: Addr, p: Point)
    requires Inv(s) && Stuck(s, p)
    ensures Stuck(OnAnswer(s, c), p)
  {
    assert ChildInv(s, p.owner);
    hide Inv;
  }

  lemma {:induction false} RunStaysStuck(s: State, es: seq<Event>, p: Point)
    requires Inv(s) && Stuck(s, p)
    ensures Inv(Run(s, es)) && Stuck(Run(s, es), p)
  {
    hide Step, Inv, Stuck;
    if es != [] {
      RunStaysStuck(s, es[..|es| - 1], p);
      StuckStays(Run(s, es[..|es| - 1]), es[|es| - 1], p);
      StepKeepsInv(Run(s, es[..|es| - 1]), es[|es| - 1]);
    }
  }

  /** The shutdown of a supervisor can still end exactly if its manager has agreed, or no child that
      has answered has set up another point since. */
  lemma ShutdownCanEndIff(s: State)
    requires Reachable(s)
    ensures (exists es :: Run(s, es).life == ShutDown) <==> !exists p :: Stuck(s, p)
  {
    hide Run, Inv, Stuck;
    ReachableKeepsInv(s);
    if exists p :: Stuck(s, p) {
      var p :| Stuck(s, p);
      forall es ensures Run(s, es).life != ShutDown {
        RunStaysStuck(s, es, p);
        StuckIsUp(Run(s, es), p);
      }
    } else {
      ReachableMaps(s);
      if s.armed { NotStuckParts(s); }
      var es := CanEnd(s);
    }
  }

  lemma ReachableMaps(s: State)
    requires Reachable(s)
    ensures Mapped(s)
  {
    hide Run, Mapped;
    var self, hasParent, es :| s == Run(Initially(self, hasParent), es);
    RunMaps(self, hasParent, es);
  }

  lemma StuckIsUp(s: State, p: Point)
    requires Inv(s) && Stuck(s, p)
    ensures s.life != ShutDown
  {}

  lemma NotStuckParts(s: State)
    requires Mapped(s) && s.armed && !exists p :: Stuck(s, p)
    ensures AllParting(s)
  {
    hide Has;
    forall c ensures Parting(s, c) {
      forall p | Has(s.mapping, p) && p.owner == c && c in s.actors && c != s.self && s.actors[c] == Confirmed
        ensures p in s.unsubscribing
      {
        assert !Stuck(s, p);
      }
    }
  }
}
