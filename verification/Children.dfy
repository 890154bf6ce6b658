/** How a supervisor ends its children: at most one shutdown request for each, removal from
    `actors_map` when it is answered and the child's reply addresses are gone, and its own
    shutdown only after that. */
module Children {
  import opened AddressMapping

  type Addr = int

  datatype Asked = None | Sent | Confirmed

  datatype Life = Running | ShuttingDown | ShutDown

  /** What has happened so far. `late` are children created after the child manager has agreed
      to the shutdown of the supervisor. */
  datatype Log = Log(
    created: set<Addr>, late: set<Addr>,
    requests: multiset<Addr>, answers: multiset<Addr>, removals: multiset<Addr>)

  datatype State = State(
    self: Addr, hasParent: bool, life: Life,
    actors: map<Addr, Asked>,           // actors_map, the shutdown field
    mapping: map<Addr, Points>,         // address_mapping
    unsubscribing: set<Point>,          // unsubscription messages under way
    armed: bool,                        // the manager's reaction to shutdown
    log: Log)

  /** How far a shutdown poll gets besides the child manager: whether it is reached at all,
      whether the lifetime plugin unsubscribes, and whether everybody else agrees. */
  datatype Votes = Votes(reached: bool, unsubscribes: bool, rest: bool)

  function Initially(self: Addr, hasParent: bool): State {
    State(self, hasParent, Running, map[self := None], map[], {}, true,
      Log({}, {}, multiset{}, multiset{}, multiset{}))
  }

  // ---------------------------------------------------------------- the handlers

  predicate Unasked(s: State, c: Addr) {
    c in s.actors && c != s.self && s.actors[c] == None
  }

  function AllUnasked(s: State): set<Addr> {
    set c | c in s.actors && Unasked(s, c)
  }

  /** `request_shutdown` for all; the supervisor itself has been marked before. */
  function RequestAll(s: State): (s': State)
    ensures s'.self == s.self && s'.log.created == s.log.created && s'.log.late == s.log.late
  {
    s.(actors := map c | c in s.actors :: if Unasked(s, c) then Sent else s.actors[c],
       log := s.log.(requests := s.log.requests + multiset(AllUnasked(s))))
  }

  function RequestOne(s: State, c: Addr): State {
    if Unasked(s, c) then
      s.(actors := s.actors[c := Sent], log := s.log.(requests := s.log.requests + multiset{c}))
    else s
  }

  function Confirm(s: State, c: Addr): (s': State)
    ensures s'.self == s.self && s'.log.created == s.log.created && s'.log.late == s.log.late
  {
    if c in s.actors then s.(actors := s.actors[c := Confirmed]) else s
  }

  function AllPoints(m: map<Addr, Points>): set<Point> {
    set a, t | a in m && t in m[a] :: m[a][t]
  }

  /** The plugins that are polled after the child manager; the lifetime plugin does not agree
      as long as a point is left. */
  function PollRest(s: State, v: Votes): (s': State)
    ensures s'.self == s.self && s'.log.created == s.log.created && s'.log.late == s.log.late
  {
    if v.unsubscribes then s.(unsubscribing := s.unsubscribing + AllPoints(s.mapping))
    else if v.rest && s.mapping == map[] then s.(life := ShutDown)
    else s
  }

  /** A poll for shutdown, as far as the child manager sees it. */
  function Poll(s: State, v: Votes): (s': State)
    ensures s'.self == s.self && s'.log.created == s.log.created && s'.log.late == s.log.late
  {
    if s.life != ShuttingDown || !v.reached then s
    else if !s.armed then PollRest(s, v)
    else
      var s1 := RequestAll(Confirm(s, s.self));
      if |s1.actors| == 1 then PollRest(s1.(armed := false), v) else s1
  }

  /** A supervisor without parent starts its own shutdown. */
  function ShutdownSelf(s: State, v: Votes): (s': State)
    ensures s'.self == s.self && s'.log.created == s.log.created && s'.log.late == s.log.late
  {
    if s.life == ShuttingDown then s
    else Poll(RequestAll(Confirm(s, s.self)).(life := ShuttingDown), v)
  }

  function MarkSent(s: State, c: Addr): State {
    if c in s.actors then s.(actors := s.actors[c := Sent]) else s
  }

  /** `on_shutdown_trigger`; there is nothing to do for an unknown address. */
  function OnTrigger(s: State, c: Addr, v: Votes): State {
    if c !in s.actors || s.actors[c] != None then s
    else if c != s.self then RequestOne(s, c)
    else if s.hasParent then MarkSent(s, c)
    else MarkSent(ShutdownSelf(s, v), c)
  }

  /** `remove_child`. */
  function Dropped(s: State, c: Addr): State {
    if c in s.actors then
      s.(actors := s.actors - {c}, log := s.log.(removals := s.log.removals + multiset{c}))
    else s
  }

  /** The answer to a shutdown request: a confirmation, or the timeout. */
  function OnAnswer(s: State, c: Addr): State {
    if s.log.answers[c] >= s.log.requests[c] then s  // every request is answered once
    else
      var s1 := s.(log := s.log.(answers := s.log.answers + multiset{c}));
      if c !in s.actors then s1
      else if c in s.mapping then
        Confirm(s1, c).(unsubscribing := s.unsubscribing + set t | t in s.mapping[c] :: s.mapping[c][t])
      else Dropped(Confirm(s1, c), c)
  }

  function OnUnsubscribed(s: State, p: Point): State {
    if p !in s.unsubscribing then s
    else
      var s1 := s.(mapping := Remove(s.mapping, p), unsubscribing := s.unsubscribing - {p});
      if p.owner in s1.mapping then s1 else Dropped(s1, p.owner)
  }

  /** `deactivate`, which the supervisor reaches only after the child manager has agreed. */
  function OnDeactivate(s: State): State {
    if !s.armed && s.mapping == map[] && |s.actors| == 1 then Dropped(s, s.self) else s
  }

  function OnCreate(s: State, c: Addr): State {
    if c == s.self || c in s.log.created then s  // addresses are new
    else
      s.(actors := s.actors[c := None],
         log := s.log.(created := s.log.created + {c}, late := if s.armed then s.log.late else s.log.late + {c}))
  }

  /** An actor sends a request of a kind it has not sent before: a point is set up. */
  function OnMap(s: State, a: Addr, t: Type, p: Point): State {
    if p.owner == a && p !in AllPoints(s.mapping) && (forall q :: q in AllPoints(s.mapping) ==> !Same(q, p))
    then s.(mapping := Set(s.mapping, a, t, p)) else s
  }

  datatype Event =
    | Creates(child: Addr)
    | Maps(child: Addr, kind: Type, point: Point)
    | Triggers(child: Addr, v: Votes)
    | ShutdownStarts(v: Votes)
    | Polls(v: Votes)
    | Answers(child: Addr)
    | Unsubscribes(point: Point)
    | Deactivates

  function Step(s: State, e: Event): State {
    match e
    case Creates(c) => OnCreate(s, c)
    case Maps(c, t, p) => OnMap(s, c, t, p)
    case Triggers(c, v) => OnTrigger(s, c, v)
    case ShutdownStarts(v) => if s.life == Running then Poll(s.(life := ShuttingDown), v) else s
    case Polls(v) => Poll(s, v)
    case Answers(c) => OnAnswer(s, c)
    case Unsubscribes(p) => OnUnsubscribed(s, p)
    case Deactivates => OnDeactivate(s)
  }

  function Run(s: State, es: seq<Event>): State {
    if es == [] then s else Step(Run(s, es[..|es| - 1]), es[|es| - 1])
  }

  // ---------------------------------------------------------------- what every run keeps

  /** The life of one child, as a function of what is known about it. */
  predicate ChildOk(isChild: bool, present: bool, asked: Asked, late: bool,
      requests: nat, answers: nat, removals: nat)
  {
    if !isChild then !present && requests == 0 && answers == 0 && removals == 0
    else
      && answers <= requests <= 1
      && removals == (if present then 0 else 1)
      && (present ==> match asked
                      case None => requests == 0
                      case Sent => requests == 1 && answers == 0
                      case Confirmed => answers == 1)
      && (!present && !late ==> answers == 1)
  }

  predicate ChildInv(s: State, c: Addr) {
    c != s.self ==>
      ChildOk(c in s.log.created, c in s.actors, if c in s.actors then s.actors[c] else None, c in s.log.late,
        s.log.requests[c], s.log.answers[c], s.log.removals[c])
  }

  ghost predicate Children(s: State) {
    forall c :: ChildInv(s, c)
  }

  predicate SelfInv(s: State) {
    && s.self !in s.log.created && s.log.requests[s.self] == 0 && s.log.answers[s.self] == 0
    && (s.armed ==> s.self in s.actors && s.log.late == {})
    && (!s.armed ==> forall c :: c in s.actors ==> c == s.self || c in s.log.late)
    && (s.life == ShutDown ==> !s.armed)
    && (!s.armed ==> s.life != Running)
  }

  predicate Answered(s: State, c: Addr) {
    c in s.log.created && (c in s.actors ==> s.actors[c] == Confirmed)
  }

  /** As long as the manager has not agreed, only points of answered children are taken down. */
  ghost predicate PointsInv(s: State) {
    && Tidy(s.mapping)
    && (forall p :: p in s.unsubscribing ==> Has(s.mapping, p))
    && (s.armed ==> forall p :: p in s.unsubscribing ==> Answered(s, p.owner))
  }

  ghost predicate Inv(s: State) {
    Children(s) && SelfInv(s) && PointsInv(s)
  }

  lemma RequestAllKeeps(s: State, c: Addr)
    requires ChildInv(s, c)
    ensures ChildInv(RequestAll(s), c)
  {}

  /** Nothing but the asked children and the life changes in a poll. */
  lemma PollKeepsChild(s: State, v: Votes, c: Addr)
    requires ChildInv(s, c)
    ensures ChildInv(Poll(s, v), c)
  {
    assert ChildInv(Confirm(s, s.self), c);
    RequestAllKeeps(Confirm(s, s.self), c);
  }

  lemma RequestOneKeeps(s: State, t: Addr, c: Addr)
    requires ChildInv(s, c)
    ensures ChildInv(RequestOne(s, t), c)
  {}

  lemma ShutdownSelfKeeps(s: State, v: Votes, c: Addr)
    requires ChildInv(s, c)
    ensures ChildInv(ShutdownSelf(s, v), c)
  {
    assert ChildInv(Confirm(s, s.self), c);
    RequestAllKeeps(Confirm(s, s.self), c);
    PollKeepsChild(RequestAll(Confirm(s, s.self)).(life := ShuttingDown), v, c);
  }

  lemma MarkSelfKeeps(s: State, c: Addr)
    requires ChildInv(s, c)
    ensures ChildInv(MarkSent(s, s.self), c)
  {}

  lemma TriggerKeepsChild(s: State, t: Addr, v: Votes, c: Addr)
    requires ChildInv(s, c)
    ensures ChildInv(OnTrigger(s, t, v), c)
  {
    if t != s.self {
      RequestOneKeeps(s, t, c);
    } else if s.hasParent {
      MarkSelfKeeps(s, c);
    } else {
      ShutdownSelfKeeps(s, v, c);
      MarkSelfKeeps(ShutdownSelf(s, v), c);
    }
  }

  /** Nothing that concerns `c` has changed. */
  predicate SameFor(s: State, s': State, c: Addr) {
    && s'.self == s.self && s'.log.created == s.log.created && s'.log.late == s.log.late
    && (c in s'.actors <==> c in s.actors) && (c in s.actors ==> s'.actors[c] == s.actors[c])
    && s'.log.requests[c] == s.log.requests[c] && s'.log.answers[c] == s.log.answers[c]
    && s'.log.removals[c] == s.log.removals[c]
  }

  lemma ConfirmElsewhere(s: State, a: Addr, c: Addr)
    requires c != a
    ensures SameFor(s, Confirm(s, a), c)
  {}

  lemma DroppedElsewhere(s: State, a: Addr, c: Addr)
    requires c != a
    ensures SameFor(s, Dropped(s, a), c)
  {}

  lemma AnswerElsewhere(s: State, a: Addr, c: Addr)
    requires c != a
    ensures SameFor(s, OnAnswer(s, a), c)
  {
    hide Confirm, Dropped;
    var s1 := s.(log := s.log.(answers := s.log.answers + multiset{a}));
    assert SameFor(s, s1, c);
    ConfirmElsewhere(s1, a, c);
    DroppedElsewhere(Confirm(s1, a), a, c);
  }

  lemma AnswerKeepsOwn(s: State, a: Addr)
    requires ChildInv(s, a)
    ensures ChildInv(OnAnswer(s, a), a)
  {}

  lemma AnswerKeepsChild(s: State, a: Addr, c: Addr)
    requires SelfInv(s) && ChildInv(s, a) && ChildInv(s, c)
    ensures ChildInv(OnAnswer(s, a), c)
  {
    hide OnAnswer;
    if c == a {
      AnswerKeepsOwn(s, a);
    } else {
      hide ChildOk;
      AnswerElsewhere(s, a, c);
    }
  }

  /** The owner of a point that is being taken down is the supervisor itself, was answered, was
      created late, or is not there any more. */
  lemma UnsubscribedKeepsChild(s: State, p: Point, c: Addr)
    requires SelfInv(s) && PointsInv(s) && ChildInv(s, p.owner) && ChildInv(s, c)
    ensures ChildInv(OnUnsubscribed(s, p), c)
  {}

  lemma CreateKeepsChild(s: State, n: Addr, c: Addr)
    requires SelfInv(s) && ChildInv(s, n) && ChildInv(s, c)
    ensures ChildInv(OnCreate(s, n), c)
  {}

  lemma StepKeepsChild(s: State, e: Event, c: Addr)
    requires Inv(s)
    ensures ChildInv(Step(s, e), c)
  {
    assert ChildInv(s, c);
    match e
    case Creates(n) => assert ChildInv(s, n); CreateKeepsChild(s, n, c);
    case Maps(_, _, _) =>
    case Triggers(t, v) => TriggerKeepsChild(s, t, v, c);
    case ShutdownStarts(v) => if s.life == Running { PollKeepsChild(s.(life := ShuttingDown), v, c); }
    case Polls(v) => PollKeepsChild(s, v, c);
    case Answers(a) => assert ChildInv(s, a); AnswerKeepsChild(s, a, c);
    case Unsubscribes(p) => assert ChildInv(s, p.owner); UnsubscribedKeepsChild(s, p, c);
    case Deactivates =>
  }

  // What concerns the supervisor itself.

  lemma OnlySelfLeft(s: State)
    requires s.self in s.actors && |s.actors| == 1
    ensures forall c :: c in s.actors ==> c == s.self
  {
    assert |s.actors.Keys - {s.self}| == 0;
    assert s.actors.Keys == {s.self} + (s.actors.Keys - {s.self});
  }

  lemma PollKeepsSelf(s: State, v: Votes)
    requires SelfInv(s)
    ensures SelfInv(Poll(s, v))
  {
    if s.life == ShuttingDown && v.reached && s.armed {
      var s1 := RequestAll(Confirm(s, s.self));
      assert s1.actors.Keys == s.actors.Keys;
      if |s1.actors| == 1 { OnlySelfLeft(s1); }
    }
  }

  lemma MarkedKeepsSelf(s: State)
    requires SelfInv(s)
    ensures SelfInv(MarkSent(s, s.self))
  {}

  lemma CreateKeepsSelf(s: State, c: Addr)
    requires SelfInv(s)
    ensures SelfInv(OnCreate(s, c))
  {}

  lemma MapKeepsSelf(s: State, c: Addr, t: int, p: Point)
    requires SelfInv(s)
    ensures SelfInv(OnMap(s, c, t, p))
  {}

  lemma StartKeepsSelf(s: State, v: Votes)
    requires SelfInv(s)
    ensures SelfInv(Step(s, ShutdownStarts(v)))
  {
    hide Poll;
    if s.life == Running { PollKeepsSelf(s.(life := ShuttingDown), v); }
  }

  lemma TriggerKeepsSelf(s: State, t: Addr, v: Votes)
    requires SelfInv(s)
    ensures SelfInv(OnTrigger(s, t, v))
  {
    hide SelfInv, Poll, MarkSent, RequestOne, RequestAll, Confirm, ShutdownSelf;
    RequestOneKeepsSelf(s, t);
    MarkedKeepsSelf(s);
    ShutdownSelfKeepsSelf(s, v);
    MarkedKeepsSelf(ShutdownSelf(s, v));
  }

  lemma RequestOneKeepsSelf(s: State, t: Addr)
    requires SelfInv(s)
    ensures SelfInv(RequestOne(s, t))
  {}

  lemma AskedKeepsSelf(s: State)
    requires SelfInv(s)
    ensures SelfInv(RequestAll(Confirm(s, s.self)).(life := ShuttingDown))
  {}

  lemma ShutdownSelfKeepsSelf(s: State, v: Votes)
    requires SelfInv(s)
    ensures SelfInv(ShutdownSelf(s, v))
  {
    hide SelfInv, Poll, RequestAll, Confirm;
    AskedKeepsSelf(s);
    PollKeepsSelf(RequestAll(Confirm(s, s.self)).(life := ShuttingDown), v);
  }

  lemma AnswerKeepsSelf(s: State, a: Addr)
    requires Inv(s)
    ensures SelfInv(OnAnswer(s, a))
  {
    hide PointsInv;
    assert ChildInv(s, a);
  }

  lemma UnsubscribedKeepsSelf(s: State, p: Point)
    requires Inv(s)
    ensures SelfInv(OnUnsubscribed(s, p))
  {
    hide Remove;
  }

  lemma DeactivateKeepsSelf(s: State)
    requires SelfInv(s)
    ensures SelfInv(OnDeactivate(s))
  {}

  lemma StepKeepsSelf(s: State, e: Event)
    requires Inv(s)
    ensures SelfInv(Step(s, e))
  {
    hide SelfInv, Children, PointsInv, OnTrigger, Poll, OnAnswer, OnUnsubscribed, OnDeactivate, OnCreate;
    match e
    case Creates(c) => CreateKeepsSelf(s, c);
    case Maps(c, t, p) => MapKeepsSelf(s, c, t, p);
    case Triggers(t, v) => TriggerKeepsSelf(s, t, v);
    case ShutdownStarts(v) => StartKeepsSelf(s, v);
    case Polls(v) => PollKeepsSelf(s, v);
    case Answers(a) => AnswerKeepsSelf(s, a);
    case Unsubscribes(p) => UnsubscribedKeepsSelf(s, p);
    case Deactivates => DeactivateKeepsSelf(s);
  }

  // What concerns the points.

  lemma RequestAllKeepsPoints(s: State)
    requires PointsInv(s)
    ensures PointsInv(RequestAll(s))
  {}

  lemma PollKeepsPoints(s: State, v: Votes)
    requires PointsInv(s)
    ensures PointsInv(Poll(s, v))
  {
    assert PointsInv(Confirm(s, s.self));
    RequestAllKeepsPoints(Confirm(s, s.self));
  }

  lemma AnswerKeepsPoints(s: State, a: Addr)
    requires Inv(s)
    ensures PointsInv(OnAnswer(s, a))
  {
    assert ChildInv(s, a);
  }

  lemma UnsubscribedKeepsPoints(s: State, p: Point)
    requires PointsInv(s)
    ensures PointsInv(OnUnsubscribed(s, p))
  {
    if p in s.unsubscribing {
      RemoveKeepsTidy(s.mapping, p);
      forall q | q in s.unsubscribing - {p} ensures Has(Remove(s.mapping, p), q) {
        RemoveIsExact(s.mapping, p, q);
      }
    }
  }

  lemma MapKeepsPoints(s: State, a: Addr, t: int, p: Point)
    requires PointsInv(s)
    ensures PointsInv(OnMap(s, a, t, p))
  {
    if p.owner == a && p !in AllPoints(s.mapping) && (forall q :: q in AllPoints(s.mapping) ==> !Same(q, p)) {
      SetKeepsTidy(s.mapping, a, t, p);
      forall q | q in s.unsubscribing ensures Has(Set(s.mapping, a, t, p), q) {
        assert Has(s.mapping, q);
        var u :| u in s.mapping[q.owner] && s.mapping[q.owner][u] == q;
        assert u in Set(s.mapping, a, t, p)[q.owner];
      }
    }
  }

  lemma CreateKeepsPoints(s: State, c: Addr)
    requires Inv(s)
    ensures PointsInv(OnCreate(s, c))
  {
  }

  lemma ConfirmKeepsPoints(s: State, c: Addr)
    requires PointsInv(s)
    ensures PointsInv(Confirm(s, c))
  {}

  lemma MarkSelfKeepsPoints(s: State)
    requires PointsInv(s) && SelfNew(s)
    ensures PointsInv(MarkSent(s, s.self))
  {}

  predicate SelfNew(s: State) { s.self !in s.log.created }

  lemma RequestOneKeepsPoints(s: State, t: Addr)
    requires PointsInv(s)
    ensures PointsInv(RequestOne(s, t))
  {}

  lemma ShutdownSelfKeepsPoints(s: State, v: Votes)
    requires PointsInv(s)
    ensures PointsInv(ShutdownSelf(s, v))
  {
    ConfirmKeepsPoints(s, s.self);
    RequestAllKeepsPoints(Confirm(s, s.self));
    var s1 := RequestAll(Confirm(s, s.self)).(life := ShuttingDown);
    assert PointsInv(s1);
    PollKeepsPoints(s1, v);
  }

  lemma TriggerKeepsPoints(s: State, t: Addr, v: Votes)
    requires PointsInv(s) && SelfNew(s)
    ensures PointsInv(OnTrigger(s, t, v))
  {
    if t != s.self {
      RequestOneKeepsPoints(s, t);
    } else if s.hasParent {
      MarkSelfKeepsPoints(s);
    } else {
      ShutdownSelfKeepsPoints(s, v);
      MarkSelfKeepsPoints(ShutdownSelf(s, v));
    }
  }

  lemma StepKeepsPoints(s: State, e: Event)
    requires Inv(s)
    ensures PointsInv(Step(s, e))
  {
    match e
    case Creates(c) => CreateKeepsPoints(s, c);
    case Maps(c, t, p) => MapKeepsPoints(s, c, t, p);
    case Triggers(t, v) => TriggerKeepsPoints(s, t, v);
    case ShutdownStarts(v) => if s.life == Running { PollKeepsPoints(s.(life := ShuttingDown), v); }
    case Polls(v) => PollKeepsPoints(s, v);
    case Answers(a) => AnswerKeepsPoints(s, a);
    case Unsubscribes(p) => UnsubscribedKeepsPoints(s, p);
    case Deactivates =>
  }

  lemma StepKeepsInv(s: State, e: Event)
    requires Inv(s)
    ensures Inv(Step(s, e))
  {
    forall c ensures ChildInv(Step(s, e), c) {
      StepKeepsChild(s, e, c);
    }
    StepKeepsSelf(s, e);
    StepKeepsPoints(s, e);
  }

  lemma {:induction false} RunKeepsInv(self: Addr, hasParent: bool, es: seq<Event>)
    ensures Inv(Run(Initially(self, hasParent), es))
  {
    var s0 := Initially(self, hasParent);
    if es == [] {
      forall c ensures ChildInv(s0, c) {}
    } else {
      RunKeepsInv(self, hasParent, es[..|es| - 1]);
      StepKeepsInv(Run(s0, es[..|es| - 1]), es[|es| - 1]);
    }
  }

  // ---------------------------------------------------------------- main results

  ghost predicate Reachable(s: State) {
    exists self, hasParent, es :: s == Run(Initially(self, hasParent), es)
  }

  lemma ReachableKeepsInv(s: State)
    requires Reachable(s)
    ensures Inv(s)
  {
    var self, hasParent, es :| s == Run(Initially(self, hasParent), es);
    RunKeepsInv(self, hasParent, es);
  }

  /** In every run: a child is asked to shut down at most once and answers at most once; it is
      in `actors_map` until it leaves it, and it leaves it once. */
  lemma AskedOnceLeavesOnce(s: State, c: Addr)
    requires Reachable(s) && c != s.self
    ensures s.log.requests[c] <= 1 && s.log.answers[c] <= s.log.requests[c]
    ensures s.log.removals[c] == if c in s.log.created && c !in s.actors then 1 else 0
    ensures c in s.actors ==> c in s.log.created
  {
    ReachableKeepsInv(s);
    assert ChildInv(s, c);
  }

  lemma RequestAllKeepsActors(s: State)
    ensures RequestAll(s).actors.Keys == s.actors.Keys
  {}

  lemma PollKeepsActors(s: State, v: Votes)
    ensures Poll(s, v).actors.Keys == s.actors.Keys
  {
    hide RequestAll, AllPoints;
    RequestAllKeepsActors(Confirm(s, s.self));
  }

  lemma TriggerKeepsActors(s: State, t: Addr, v: Votes)
    ensures OnTrigger(s, t, v).actors.Keys == s.actors.Keys
  {
    if t == s.self && !s.hasParent {
      PollKeepsActors(RequestAll(Confirm(s, s.self)).(life := ShuttingDown), v);
    }
  }

  /** Only an answer, an unsubscription or the deactivation of the manager removes a child. */
  lemma OthersKeepActors(s: State, e: Event)
    requires !e.Answers? && !e.Unsubscribes? && !e.Deactivates?
    ensures s.actors.Keys <= Step(s, e).actors.Keys
  {
    match e
    case Triggers(t, v) => TriggerKeepsActors(s, t, v);
    case ShutdownStarts(v) => PollKeepsActors(s.(life := ShuttingDown), v);
    case Polls(v) => PollKeepsActors(s, v);
    case _ =>
  }

  lemma LeavesWithoutPoints(s: State, e: Event, c: Addr)
    requires c != s.self && c in s.actors && c !in Step(s, e).actors
    ensures c !in Step(s, e).mapping
  {
    if !e.Answers? && !e.Unsubscribes? && !e.Deactivates? {
      OthersKeepActors(s, e);
    }
  }

  lemma KeepsItsName(s: State, e: Event)
    ensures Step(s, e).self == s.self
  {}

  lemma NeverLateAgain(s: State, e: Event, c: Addr)
    requires c in s.log.created && c !in s.log.late
    ensures c in Step(s, e).log.created && c !in Step(s, e).log.late
  {
    match e
    case Creates(n) =>
    case Maps(_, _, _) =>
    case Triggers(t, v) => assert OnTrigger(s, t, v).log.late == s.log.late;
    case ShutdownStarts(v) =>
    case Polls(v) =>
    case Answers(a) =>
    case Unsubscribes(p) =>
    case Deactivates =>
  }

  /** The step in which a child leaves comes after its shutdown request has been answered, and
      when no reply address of the child is left. */
  lemma LeavesAfterAnswerAndLastPoint(s: State, e: Event, c: Addr)
    requires Reachable(s) && c != s.self && c !in s.log.late
    ensures c in s.actors && c !in Step(s, e).actors ==>
              && Step(s, e).log.requests[c] == 1 && Step(s, e).log.answers[c] == 1
              && forall p :: Has(Step(s, e).mapping, p) ==> p.owner != c
  {
    hide Step;
    if c in s.actors && c !in Step(s, e).actors {
      ReachableKeepsInv(s);
      assert ChildInv(s, c);
      StepKeepsChild(s, e, c);
      NeverLateAgain(s, e, c);
      LeavesWithoutPoints(s, e, c);
      KeepsItsName(s, e);
    }
  }

  /** A supervisor is shut down only when every child created before the child manager agreed
      has been asked, has answered (or its request has timed out) and has left. */
  lemma ShutDownAfterAllChildren(s: State, c: Addr)
    requires Reachable(s) && s.life == ShutDown
    requires c in s.log.created && c !in s.log.late
    ensures s.log.requests[c] == 1 && s.log.answers[c] == 1 && s.log.removals[c] == 1
    ensures c !in s.actors
  {
    ReachableKeepsInv(s);
    assert ChildInv(s, c);
  }

  /** `address_mapping.remove` finds the actor it looks for. */
  lemma UnsubscribedIsMapped(s: State, p: Point)
    requires Reachable(s) && p in s.unsubscribing
    ensures Has(s.mapping, p)
  {
    ReachableKeepsInv(s);
  }

  /** `at` finds the child whose answer arrives, unless the child was created late. */
  lemma AnswerFindsChild(s: State, c: Addr)
    requires Reachable(s) && s.log.answers[c] < s.log.requests[c] && c !in s.log.late
    ensures c in s.actors
  {
    ReachableKeepsInv(s);
    assert ChildInv(s, c);
  }

  // ---------------------------------------------------------------- children created late

  // What is proved above does not hold of children created after the manager has agreed.

  lemma RunOneMore(s: State, es: seq<Event>, e: Event)
    ensures Run(s, es + [e]) == Step(Run(s, es), e)
  {
    assert (es + [e])[..|es|] == es;
  }

  lemma AgreesAlone(s: State)
    requires s == Initially(0, true)
    ensures var s1 := Step(s, ShutdownStarts(Votes(true, false, false)));
            s1.life == ShuttingDown && !s1.armed && s1.log == s.log && s1.self == 0 && s1.mapping == map[]
  {
    var s1 := RequestAll(Confirm(s.(life := ShuttingDown), 0));
    assert s1.actors == map[0 := Confirmed];
    assert AllUnasked(Confirm(s.(life := ShuttingDown), 0)) == {};
  }

  /** The supervisor 0 has agreed to its shutdown when child 1 is created; it ends unasked. */
  lemma LateChildCanBeLeftBehind()
    ensures exists s :: Reachable(s) && s.life == ShutDown && 1 in s.actors && s.log.requests[1] == 0
  {
    var s0 := Initially(0, true);
    var e0, e1, e2 := ShutdownStarts(Votes(true, false, false)), Creates(1), Polls(Votes(true, false, true));
    AgreesAlone(s0);
    var s1 := Step(s0, e0);
    var s2 := OnCreate(s1, 1);
    var s3 := Poll(s2, e2.v);
    RunOneMore(s0, [], e0);
    RunOneMore(s0, [e0], e1);
    RunOneMore(s0, [e0] + [e1], e2);
    assert [] + [e0] == [e0];
    assert s3 == Run(s0, [e0] + [e1] + [e2]);
    assert Reachable(s3);
  }

  /** The supervisor is shut down while the child is there, or the child is gone unanswered. */
  predicate LeftBehind(s: State, c: Addr) {
    (s.life == ShutDown && c in s.actors) || (c !in s.actors && s.log.answers[c] == 0)
  }

  lemma {:induction false} RunKeepsChild(s: State, es: seq<Event>, c: Addr)
    requires Inv(s) && c in s.log.created && c !in s.log.late && c != s.self
    ensures var s' := Run(s, es);
            Inv(s') && c in s'.log.created && c !in s'.log.late && s'.self == s.self
  {
    hide Step, Inv;
    if es != [] {
      var s1 := Run(s, es[..|es| - 1]);
      RunKeepsChild(s, es[..|es| - 1], c);
      StepKeepsInv(s1, es[|es| - 1]);
      NeverLateAgain(s1, es[|es| - 1], c);
      KeepsItsName(s1, es[|es| - 1]);
    }
  }

  lemma NotLeftBehind(s: State, c: Addr)
    requires Inv(s) && c in s.log.created && c !in s.log.late && c != s.self
    ensures !LeftBehind(s, c)
  {
    assert ChildInv(s, c);
  }

  const GO := Votes(true, false, true)

  const UNSUBSCRIBE := Votes(true, true, false)

  /** The manager has agreed, every point is being taken down, and the child has not answered. */
  ghost predicate Ending(s: State, c: Addr) {
    && !s.armed && s.life == ShuttingDown && s.log.answers[c] == 0
    && forall p :: Has(s.mapping, p) ==> p in s.unsubscribing
  }

  lemma {:induction false} RunJoined(s: State, xs: seq<Event>, ys: seq<Event>)
    ensures Run(s, xs + ys) == Run(Run(s, xs), ys)
    decreases |ys|
  {
    hide Step;
    if ys == [] {
      assert xs + ys == xs;
    } else {
      assert (xs + ys)[..|xs + ys| - 1] == xs + ys[..|ys| - 1];
      RunJoined(s, xs, ys[..|ys| - 1]);
    }
  }

  lemma RunOne(s: State, e: Event)
    ensures Run(s, [e]) == Step(s, e)
  {
    hide Step;
    assert [e][..0] == [];
  }

  /** The next point goes. */
  lemma PointGoes(s: State, c: Addr, p: Point)
    requires PointsInv(s) && Ending(s, c) && p in s.unsubscribing
    ensures var s' := OnUnsubscribed(s, p); Ending(s', c) && s'.unsubscribing == s.unsubscribing - {p}
  {
    forall q | Has(Remove(s.mapping, p), q) ensures q in s.unsubscribing - {p} {
      RemoveIsExact(s.mapping, p, q);
    }
  }

  lemma NoPointsLeft(s: State, c: Addr)
    requires PointsInv(s) && Ending(s, c) && s.unsubscribing == {}
    ensures s.mapping == map[]
  {
    forall a ensures a !in s.mapping {
      SubscriptionsArePoints(s.mapping, a);
    }
  }

  lemma {:induction false} AllPointsGo(s: State, c: Addr) returns (es: seq<Event>)
    requires Inv(s) && Ending(s, c)
    ensures var s' := Run(s, es); Ending(s', c) && s'.mapping == map[]
    decreases |s.unsubscribing|
  {
    hide Inv, Ending, OnUnsubscribed;
    if s.unsubscribing == {} {
      InvPoints(s);
      NoPointsLeft(s, c);
      es := [];
    } else {
      var p :| p in s.unsubscribing;
      InvPoints(s);
      PointGoes(s, c, p);
      StepKeepsInv(s, Unsubscribes(p));
      var rest := AllPointsGo(OnUnsubscribed(s, p), c);
      es := [Unsubscribes(p)] + rest;
      RunOne(s, Unsubscribes(p));
      RunJoined(s, [Unsubscribes(p)], rest);
    }
  }

  lemma InvPoints(s: State)
    requires Inv(s)
    ensures PointsInv(s)
  {}

  /** A poll in which the lifetime plugin takes the points down. */
  lemma UnsubscribingEnds(s: State, c: Addr)
    requires !s.armed && s.life == ShuttingDown && s.log.answers[c] == 0
    ensures Ending(Poll(s, UNSUBSCRIBE), c)
  {
    forall p | Has(s.mapping, p) ensures p in AllPoints(s.mapping) {
      var t :| t in s.mapping[p.owner] && s.mapping[p.owner][t] == p;
    }
  }

  /** With no point left, the next poll ends the supervisor. */
  lemma LastPoll(s: State, c: Addr)
    requires Ending(s, c) && s.mapping == map[]
    ensures LeftBehind(Poll(s, GO), c)
  {}

  /** After a late creation the supervisor can end, with or without the child. */
  lemma LateIsLeftBehind(s: State, c: Addr) returns (es: seq<Event>)
    requires Inv(s) && !s.armed && c != s.self && c !in s.log.created
    ensures LeftBehind(Run(Step(s, Creates(c)), es), c)
  {
    hide Inv, Ending, Poll;
    var s1 := Step(s, Creates(c));
    LateIsThere(s, c);
    if s1.life == ShutDown {
      es := [];
    } else {
      var s2 := Poll(s1, UNSUBSCRIBE);
      UnsubscribingEnds(s1, c);
      StepKeepsInv(s, Creates(c));
      StepKeepsInv(s1, Polls(UNSUBSCRIBE));
      var down := AllPointsGo(s2, c);
      LastPoll(Run(s2, down), c);
      es := [Polls(UNSUBSCRIBE)] + down + [Polls(GO)];
      RunOne(s1, Polls(UNSUBSCRIBE));
      RunJoined(s1, [Polls(UNSUBSCRIBE)], down);
      RunOneMore(s1, [Polls(UNSUBSCRIBE)] + down, Polls(GO));
    }
  }

  lemma LateIsThere(s: State, c: Addr)
    requires Inv(s) && !s.armed && c != s.self && c !in s.log.created
    ensures var s1 := Step(s, Creates(c));
            && !s1.armed && s1.life in {ShuttingDown, ShutDown} && c in s1.actors && s1.log.answers[c] == 0
  {
    assert ChildInv(s, c);
  }

  /** A new child can be left behind in no later run if and only if the child manager has not
      agreed to the shutdown when the child is created. */
  lemma NeverLeftBehindIff(s: State, c: Addr)
    requires Reachable(s) && c != s.self && c !in s.log.created
    ensures (forall es :: !LeftBehind(Run(Step(s, Creates(c)), es), c)) <==> s.armed
  {
    hide Run, LeftBehind;
    ReachableKeepsInv(s);
    var s1 := Step(s, Creates(c));
    StepKeepsInv(s, Creates(c));
    KeepsItsName(s, Creates(c));
    if s.armed {
      forall es ensures !LeftBehind(Run(s1, es), c) {
        RunKeepsChild(s1, es, c);
        NotLeftBehind(Run(s1, es), c);
      }
    } else {
      var es := LateIsLeftBehind(s, c);
    }
  }

  /** A late child can also leave without an answer: it is created, sends a request, and the
      supervisor takes down all points for its own shutdown. */
  lemma LateChildCanLeaveUnanswered(s: State, c: Addr, t: int, p: Point)
    requires Inv(s) && !s.armed && s.life == ShuttingDown && c != s.self && c !in s.log.created
    requires c !in s.mapping && p.owner == c && IsNew(s.mapping, p)
    ensures var es := [Creates(c), Maps(c, t, p), Polls(UNSUBSCRIBE), Unsubscribes(p)];
            c !in Run(s, es).actors && Run(s, es).log.answers[c] == 0 && c in Run(s, es).log.created
  {
    hide Run, OnMap, Poll, Inv, IsNew, OnUnsubscribed;
    var e0, e1, e2, e3 := Creates(c), Maps(c, t, p), Polls(UNSUBSCRIBE), Unsubscribes(p);
    var s1 := Step(s, e0);
    var s2 := Step(s1, e1);
    var s3 := Step(s2, e2);
    LateIsThere(s, c);
    LatePointMapped(s1, c, t, p);
    LatePointTaken(s2, c, t, p);
    LatePointGone(s3, c, t, p);
    RunNothing(s);
    RunOneMore(s, [], e0);
    RunOneMore(s, [e0], e1);
    RunOneMore(s, [e0, e1], e2);
    RunOneMore(s, [e0, e1, e2], e3);
    assert [] + [e0] == [e0] && [e0] + [e1] == [e0, e1] && [e0, e1] + [e2] == [e0, e1, e2];
    assert [e0, e1, e2] + [e3] == [e0, e1, e2, e3];
  }

  lemma LatePointMapped(s: State, c: Addr, t: int, p: Point)
    requires c !in s.mapping && p.owner == c && IsNew(s.mapping, p)
    ensures OnMap(s, c, t, p) == s.(mapping := s.mapping[c := map[t := p]])
  {}

  lemma LatePointTaken(s: State, c: Addr, t: int, p: Point)
    requires s.life == ShuttingDown && !s.armed && c in s.mapping && s.mapping[c] == map[t := p]
    ensures p in Poll(s, UNSUBSCRIBE).unsubscribing
    ensures Poll(s, UNSUBSCRIBE).mapping == s.mapping
    ensures Poll(s, UNSUBSCRIBE).actors == s.actors
    ensures Poll(s, UNSUBSCRIBE).log == s.log
  {
    assert s.mapping[c][t] == p;
  }

  lemma LatePointGone(s: State, c: Addr, t: int, p: Point)
    requires p in s.unsubscribing && p.owner == c && c in s.mapping && s.mapping[c] == map[t := p]
    ensures var s' := OnUnsubscribed(s, p);
            c !in s'.actors && s'.log.answers == s.log.answers && s'.log.created == s.log.created
  {
    assert Others(s.mapping[c], p) == map[];
  }

  lemma RunNothing(s: State)
    ensures Run(s, []) == s
  {}
}
