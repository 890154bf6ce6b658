/** Requests with timeouts at one supervisor: ids, `request_map`, the supervisor's
    `timers_map`, and the single outcome of every request. */
module Requests {
  import opened Sets

  type Addr = int
  type Id = nat
  type Payload = int

  datatype TimerKind = RequestTimer | PlainTimer

  datatype Outcome = Answer(payload: Payload) | TimedOut

  datatype Message =
    | Ask(id: Id, origin: Addr, dest: Addr)
    | Response(id: Id, origin: Addr, outcome: Outcome)

  datatype State = State(
    last: nat,                        // last_req_id
    ticks: nat,                       // increments of last_req_id so far
    requests: map<Id, Addr>,          // request_map: who asked
    timers: map<Id, TimerKind>,       // timers_map
    queue: seq<Message>,              // messages put so far
    handed: seq<Id>,                  // ids handed out so far
    dropped: multiset<(Id, Addr)>)    // requests discarded or cancelled so far

  const EMPTY := State(0, 0, map[], map[], [], [], multiset{})

  // ---------------------------------------------------------------- ids

  /** Where `k` increments lead a counter that wraps around at `size`. */
  function After(last: nat, size: nat, k: nat): Id
    requires last < size && k <= size
  {
    if last + k < size then last + k else last + k - size
  }

  /** `k` increments lead to the first id that is not in use. */
  ghost predicate IsNext(last: nat, used: set<Id>, size: nat, k: nat)
    requires last < size
  {
    && 1 <= k <= size
    && After(last, size, k) !in used
    && forall j :: 1 <= j < k ==> After(last, size, j) in used
  }

  /** The ids met in the first `k` increments. */
  ghost function Met(last: nat, size: nat, k: nat): set<Id>
    requires last < size && k <= size
  {
    set j: nat | 1 <= j <= k :: After(last, size, j)
  }

  /** Within one cycle all ids met are different. */
  lemma {:induction false} MetCount(last: nat, size: nat, k: nat)
    requires last < size && k <= size
    ensures |Met(last, size, k)| == k
  {
    if k == 0 {
      assert Met(last, size, 0) == {};
    } else {
      MetCount(last, size, k - 1);
      var id := After(last, size, k);
      assert id !in Met(last, size, k - 1);
      forall x | x in Met(last, size, k) ensures x in Met(last, size, k - 1) + {id} {
        var j: nat :| 1 <= j <= k && x == After(last, size, j);
        assert j == k || j <= k - 1;
      }
      assert Met(last, size, k) == Met(last, size, k - 1) + {id};
    }
  }

  lemma SubsetSize<T>(a: set<T>, b: set<T>)
    requires a <= b
    ensures |a| <= |b|
  {
    assert b == a + (b - a);
  }

  /** When all ids met are in use there are at least as many in use. */
  lemma MetInUse(last: nat, used: set<Id>, size: nat, k: nat)
    requires last < size && k <= size
    requires forall j :: 1 <= j <= k ==> After(last, size, j) in used
    ensures k <= |used|
  {
    MetCount(last, size, k);
    forall x | x in Met(last, size, k) ensures x in used {
      var j: nat :| 1 <= j <= k && x == After(last, size, j);
      assert After(last, size, j) in used;
    }
    SubsetSize(Met(last, size, k), used);
  }

  /** The number of increments `next_request_id` makes, having made `k - 1`. */
  function Increments(last: nat, used: set<Id>, size: nat, k: nat): (r: nat)
    requires last < size && |used| < size && 1 <= k <= |used| + 1
    requires forall j :: 1 <= j < k ==> After(last, size, j) in used
    ensures IsNext(last, used, size, r) && r <= |used| + 1
    decreases |used| + 1 - k
  {
    if After(last, size, k) !in used then k
    else
      MetInUse(last, used, size, k);
      Increments(last, used, size, k + 1)
  }

  // ---------------------------------------------------------------- operations

  /** There is a free id, and it is not the id of a timer that still runs. */
  ghost predicate CanIssue(s: State, size: nat) {
    && s.last < size && |s.requests| < size
    && NextId(s, size) !in s.timers
  }

  function Taken(s: State, size: nat): nat
    requires s.last < size && |s.requests| < size
  {
    Increments(s.last, s.requests.Keys, size, 1)
  }

  /** `next_request_id`. */
  function NextId(s: State, size: nat): (id: Id)
    requires s.last < size && |s.requests| < size
    ensures id < size && id !in s.requests
  {
    After(s.last, size, Taken(s, size))
  }

  function HandOut(s: State, size: nat): State
    requires s.last < size && |s.requests| < size
  {
    var id := NextId(s, size);
    s.(last := id, ticks := s.ticks + Taken(s, size), handed := s.handed + [id])
  }

  function Send(s: State, size: nat, origin: Addr, dest: Addr): State
    requires s.last < size && |s.requests| < size
  {
    var id, s1 := NextId(s, size), HandOut(s, size);
    s1.(requests := s1.requests[id := origin],
        queue := s1.queue + [Ask(id, origin, dest)],
        timers := s1.timers[id := RequestTimer])
  }

  function StartPlain(s: State, size: nat): State
    requires s.last < size && |s.requests| < size
  {
    var id, s1 := NextId(s, size), HandOut(s, size);
    s1.(timers := s1.timers[id := PlainTimer])
  }

  function OnRequestTrigger(s: State, id: Id, cancelled: bool): State {
    if id !in s.requests then s
    else
      s.(queue := if cancelled then s.queue else s.queue + [Response(id, s.requests[id], TimedOut)],
         requests := s.requests - {id})
  }

  function OnTimerTrigger(s: State, id: Id, cancelled: bool): State {
    if id !in s.timers then s
    else
      var s1 := if s.timers[id] == RequestTimer then OnRequestTrigger(s, id, cancelled) else s;
      s1.(timers := s1.timers - {id})
  }

  function Drop(s: State, id: Id): State {
    if id in s.requests then s.(dropped := s.dropped + multiset{(id, s.requests[id])}) else s
  }

  /** `cancel_timer`; it asserts that the timer exists. */
  function CancelTimer(s: State, id: Id): State {
    OnTimerTrigger(s, id, true)
  }

  /** `discard_request`; it asserts that the request exists. */
  function DiscardRequest(s: State, id: Id): State {
    var s1 := CancelTimer(s, id);
    s1.(requests := s1.requests - {id})
  }

  /** The handler that `install_handler` subscribes on the imaginary address. */
  function OnReply(s: State, id: Id, payload: Payload): State {
    if id !in s.requests then s
    else DiscardRequest(s.(queue := s.queue + [Response(id, s.requests[id], Answer(payload))]), id)
  }

  function Pairs(requests: map<Id, Addr>): multiset<(Id, Addr)> {
    multiset(PairSet(requests))
  }

  function PairSet(requests: map<Id, Addr>): set<(Id, Addr)> {
    set id | id in requests :: (id, requests[id])
  }

  function ShutdownFinish(s: State): State {
    s.(requests := map[], timers := map[], dropped := s.dropped + Pairs(s.requests))
  }

  datatype Event =
    | Sending(origin: Addr, dest: Addr)
    | Starting
    | Reply(id: Id, payload: Payload)
    | Expire(id: Id)
    | Cancel(id: Id)
    | Discard(id: Id)
    | Finish

  ghost function Step(s: State, size: nat, e: Event): State {
    match e
    case Sending(origin, dest) => if CanIssue(s, size) then Send(s, size, origin, dest) else s
    case Starting => if CanIssue(s, size) then StartPlain(s, size) else s
    case Reply(id, payload) => OnReply(s, id, payload)
    case Expire(id) => OnTimerTrigger(s, id, false)
    case Cancel(id) => if id in s.timers then CancelTimer(Drop(s, id), id) else s
    case Discard(id) => if id in s.requests then DiscardRequest(Drop(s, id), id) else s
    case Finish => ShutdownFinish(s)
  }

  ghost function Run(size: nat, es: seq<Event>): State {
    if es == [] then EMPTY else Step(Run(size, es[..|es| - 1]), size, es[|es| - 1])
  }

  /** Every time an id was asked for, one could be issued. */
  ghost predicate Supplied(size: nat, es: seq<Event>) {
    es != [] ==>
      var s, e := Run(size, es[..|es| - 1]), es[|es| - 1];
      && Supplied(size, es[..|es| - 1])
      && (e.Sending? || e.Starting? ==> CanIssue(s, size))
  }

  // ---------------------------------------------------------------- coupling

  /** The pending requests are exactly the supervisor's request timers. */
  ghost predicate Coupled(s: State) {
    forall id :: id in s.requests <==> id in s.timers && s.timers[id] == RequestTimer
  }

  lemma StepKeepsCoupling(s: State, size: nat, e: Event)
    requires Coupled(s)
    ensures Coupled(Step(s, size, e))
  {}

  /** Requests and request timers stay coupled, so at shutdown, when all timers are gone, no
      request is pending. */
  lemma {:induction false} RunKeepsCoupling(size: nat, es: seq<Event>)
    ensures Coupled(Run(size, es))
  {
    if es != [] {
      RunKeepsCoupling(size, es[..|es| - 1]);
      StepKeepsCoupling(Run(size, es[..|es| - 1]), size, es[|es| - 1]);
    }
  }

  // ---------------------------------------------------------------- one outcome

  /** Requests issued, with who asked. */
  function Asked(queue: seq<Message>): multiset<(Id, Addr)> {
    if queue == [] then multiset{}
    else
      var last := queue[|queue| - 1];
      Asked(queue[..|queue| - 1]) + if last.Ask? then multiset{(last.id, last.origin)} else multiset{}
  }

  /** Responses put, with whom they are for. */
  function Responded(queue: seq<Message>): multiset<(Id, Addr)> {
    if queue == [] then multiset{}
    else
      var last := queue[|queue| - 1];
      Responded(queue[..|queue| - 1]) + if last.Response? then multiset{(last.id, last.origin)} else multiset{}
  }

  ghost predicate Balanced(s: State) {
    Asked(s.queue) == Responded(s.queue) + Pairs(s.requests) + s.dropped
  }

  lemma Put(queue: seq<Message>, m: Message)
    ensures Asked(queue + [m]) == Asked(queue) + if m.Ask? then multiset{(m.id, m.origin)} else multiset{}
    ensures Responded(queue + [m]) == Responded(queue) + if m.Response? then multiset{(m.id, m.origin)} else multiset{}
  {
    assert (queue + [m])[..|queue|] == queue;
  }

  lemma PairsAre(requests: map<Id, Addr>)
    ensures forall p :: p in PairSet(requests) <==> p.0 in requests && requests[p.0] == p.1
  {
    forall p: (Id, Addr) | p.0 in requests && requests[p.0] == p.1 ensures p in PairSet(requests) {
      assert p == (p.0, requests[p.0]);
    }
  }

  lemma PairsAdd(requests: map<Id, Addr>, id: Id, origin: Addr)
    requires id !in requests
    ensures Pairs(requests[id := origin]) == Pairs(requests) + multiset{(id, origin)}
  {
    var more := requests[id := origin];
    PairsAre(requests);
    PairsAre(more);
    hide PairSet;
    assert PairSet(more) == PairSet(requests) + {(id, origin)};
  }

  lemma PairsRemove(requests: map<Id, Addr>, id: Id)
    requires id in requests
    ensures Pairs(requests) == Pairs(requests - {id}) + multiset{(id, requests[id])}
  {
    assert requests == (requests - {id})[id := requests[id]];
    PairsAdd(requests - {id}, id, requests[id]);
  }

  /** A request leaves the map with a response or by being dropped. */
  lemma ConcludeBalance(s: State, s': State, id: Id)
    requires Balanced(s) && id in s.requests && s'.requests == s.requests - {id}
    requires || (s'.dropped == s.dropped && exists o :: s'.queue == s.queue + [Response(id, s.requests[id], o)])
             || (s'.dropped == s.dropped + multiset{(id, s.requests[id])} && s'.queue == s.queue)
    ensures Balanced(s')
  {
    PairsRemove(s.requests, id);
    if s'.dropped == s.dropped {
      var o :| s'.queue == s.queue + [Response(id, s.requests[id], o)];
      Put(s.queue, Response(id, s.requests[id], o));
    }
  }

  lemma SendBalance(s: State, size: nat, origin: Addr, dest: Addr)
    requires Balanced(s) && s.last < size && |s.requests| < size
    ensures Balanced(Send(s, size, origin, dest))
  {
    Put(s.queue, Ask(NextId(s, size), origin, dest));
    PairsAdd(s.requests, NextId(s, size), origin);
  }

  /** What a cancelled request timer does. */
  lemma CancelledRequest(s: State, id: Id)
    requires Coupled(s) && id in s.requests
    ensures CancelTimer(s, id) == s.(requests := s.requests - {id}, timers := s.timers - {id})
    ensures DiscardRequest(s, id) == CancelTimer(s, id)
  {}

  lemma FinishBalance(s: State)
    requires Balanced(s)
    ensures Balanced(ShutdownFinish(s))
  {
    hide Asked, Responded;
    assert PairSet(map[]) == {};
  }

  lemma StepKeepsBalance(s: State, size: nat, e: Event)
    requires Coupled(s) && Balanced(s)
    ensures Balanced(Step(s, size, e))
  {
    hide Asked, Responded, Pairs;
    match e
    case Sending(origin, dest) => if CanIssue(s, size) { SendBalance(s, size, origin, dest); }
    case Reply(id, payload) =>
      if id in s.requests {
        CancelledRequest(s.(queue := s.queue + [Response(id, s.requests[id], Answer(payload))]), id);
        ConcludeBalance(s, Step(s, size, e), id);
      }
    case Expire(id) =>
      if id in s.requests {
        assert Step(s, size, e).queue == s.queue + [Response(id, s.requests[id], TimedOut)];
        ConcludeBalance(s, Step(s, size, e), id);
      }
    case Cancel(id) =>
      if id in s.requests {
        CancelledRequest(Drop(s, id), id);
        ConcludeBalance(s, Step(s, size, e), id);
      }
    case Discard(id) =>
      if id in s.requests {
        CancelledRequest(Drop(s, id), id);
        ConcludeBalance(s, Step(s, size, e), id);
      }
    case Finish => FinishBalance(s);
    case Starting =>
  }

  /** Whatever replies, second replies, timeouts, cancellations and discards there are, and
      even if ids wrap around: every request issued has been answered to the one who asked,
      or is pending, or was dropped, and only one of these. */
  lemma {:induction false} EveryRequestHasOneOutcome(size: nat, es: seq<Event>)
    ensures var s := Run(size, es);
            Asked(s.queue) == Responded(s.queue) + Pairs(s.requests) + s.dropped
  {
    if es != [] {
      var init := es[..|es| - 1];
      EveryRequestHasOneOutcome(size, init);
      RunKeepsCoupling(size, init);
      StepKeepsBalance(Run(size, init), size, es[|es| - 1]);
    }
  }

  // ---------------------------------------------------------------- before the counter wraps

  /** The id handed out last, or 0. */
  function LastHanded(s: State): Id {
    if s.handed == [] then 0 else s.handed[|s.handed| - 1]
  }

  lemma {:induction false} RunFollowsLast(size: nat, es: seq<Event>)
    ensures Run(size, es).last == LastHanded(Run(size, es))
  {
    hide NextId, Taken;
    if es != [] {
      RunFollowsLast(size, es[..|es| - 1]);
      StepFollowsLast(Run(size, es[..|es| - 1]), size, es[|es| - 1]);
    }
  }

  lemma StepFollowsLast(s: State, size: nat, e: Event)
    requires s.last == LastHanded(s)
    ensures Step(s, size, e).last == LastHanded(Step(s, size, e))
  {
    if e.Sending? || e.Starting? {
      hide NextId, Taken;
    } else {
      NothingHanded(s, size, e);
    }
  }

  lemma NothingHanded(s: State, size: nat, e: Event)
    requires !e.Sending? && !e.Starting?
    ensures Step(s, size, e).last == s.last && Step(s, size, e).handed == s.handed
  {
    hide PairSet;
  }

  /** In every run, ids are handed out one at a time to what is sent or started, and each is the first
      one behind the previous one, counting around, that no pending request has. */
  lemma HandedInTurn(size: nat, es: seq<Event>, e: Event)
    ensures var s, s' := Run(size, es), Step(Run(size, es), size, e);
            s.last == LastHanded(s) &&
            if (e.Sending? || e.Starting?) && CanIssue(s, size) then
              exists k: nat :: IsNext(LastHanded(s), s.requests.Keys, size, k)
                && s'.handed == s.handed + [After(LastHanded(s), size, k)]
            else s'.handed == s.handed
  {
    hide Run, Increments;
    RunFollowsLast(size, es);
    var s := Run(size, es);
    if !e.Sending? && !e.Starting? {
      NothingHanded(s, size, e);
    }
    if (e.Sending? || e.Starting?) && CanIssue(s, size) {
      var k := Taken(s, size);
      assert IsNext(LastHanded(s), s.requests.Keys, size, k);
    }
  }

  /** Ids are handed out in order, 1, 2, 3 and so on. */
  ghost predicate Numbered(s: State) {
    && s.last == s.ticks == |s.handed|
    && (forall i :: 0 <= i < |s.handed| ==> s.handed[i] == i + 1)
    && (forall id :: id in s.timers ==> 1 <= id <= s.ticks)
  }

  lemma {:induction false} AtMost(ids: set<Id>, n: nat)
    requires forall id :: id in ids ==> 1 <= id <= n
    ensures |ids| <= n
  {
    if n == 0 {
      assert ids == {};
    } else {
      AtMost(ids - {n}, n - 1);
      assert n in ids ==> ids == (ids - {n}) + {n};
      assert n !in ids ==> ids == ids - {n};
    }
  }

  lemma NumberedCanIssue(s: State, size: nat)
    requires Numbered(s) && Coupled(s) && s.ticks < size
    ensures CanIssue(s, size)
    ensures NextId(s, size) == (if s.ticks + 1 < size then s.ticks + 1 else 0)
    ensures HandOut(s, size).ticks == s.ticks + 1
  {
    AtMost(s.requests.Keys, s.ticks);
    assert After(s.last, size, 1) !in s.requests;
  }

  ghost predicate AskedDistinct(s: State) {
    && (forall p :: p in Asked(s.queue) ==> p.0 in s.handed && Asked(s.queue)[p] == 1)
    && (forall p, q :: p in Asked(s.queue) && q in Asked(s.queue) && p.0 == q.0 ==> p == q)
  }

  lemma StepTicks(s: State, size: nat, e: Event)
    ensures s.ticks <= Step(s, size, e).ticks
  {}

  lemma StepNumbered(s: State, size: nat, e: Event)
    requires Numbered(s) && Coupled(s) && Step(s, size, e).ticks < size
    ensures Numbered(Step(s, size, e))
    ensures e.Sending? || e.Starting? ==> CanIssue(s, size)
  {
    StepTicks(s, size, e);
    NumberedCanIssue(s, size);
  }

  lemma QueueAsks(queue: seq<Message>, m: Message)
    requires !m.Ask?
    ensures Asked(queue + [m]) == Asked(queue)
  {
    Put(queue, m);
  }

  lemma SendAskedDistinct(s: State, size: nat, origin: Addr, dest: Addr)
    requires Numbered(s) && Coupled(s) && AskedDistinct(s) && s.ticks + 1 < size
    requires CanIssue(s, size)
    ensures AskedDistinct(Send(s, size, origin, dest))
  {
    NumberedCanIssue(s, size);
    Put(s.queue, Ask(s.ticks + 1, origin, dest));
    assert s.ticks + 1 !in s.handed;
    AskedMore(Asked(s.queue), Asked(Send(s, size, origin, dest).queue), s.handed, s.ticks + 1, origin);
  }

  lemma AskedMore(asked: multiset<(Id, Addr)>, asked': multiset<(Id, Addr)>, handed: seq<Id>, id: Id, origin: Addr)
    requires forall p :: p in asked ==> p.0 in handed && asked[p] == 1
    requires forall p, q :: p in asked && q in asked && p.0 == q.0 ==> p == q
    requires id !in handed && asked' == asked + multiset{(id, origin)}
    ensures forall p :: p in asked' ==> p.0 in handed + [id] && asked'[p] == 1
    ensures forall p, q :: p in asked' && q in asked' && p.0 == q.0 ==> p == q
  {
    assert forall p :: p in asked' <==> p in asked || p == (id, origin);
  }

  lemma StepAskedDistinct(s: State, size: nat, e: Event)
    requires Numbered(s) && Coupled(s) && AskedDistinct(s) && Step(s, size, e).ticks < size
    ensures AskedDistinct(Step(s, size, e))
  {
    var s' := Step(s, size, e);
    if e.Sending? {
      NumberedCanIssue(s, size);
      SendAskedDistinct(s, size, e.origin, e.dest);
    } else {
      assert Asked(s'.queue) == Asked(s.queue) by {
        if e.Reply? && e.id in s.requests { QueueAsks(s.queue, Response(e.id, s.requests[e.id], Answer(e.payload))); }
        if e.Expire? && e.id in s.requests { QueueAsks(s.queue, Response(e.id, s.requests[e.id], TimedOut)); }
      }
      assert forall id :: id in s.handed ==> id in s'.handed;
    }
  }

  /** In a run with fewer than 2^N increments an id can always be issued, and all ids handed
      out are different. */
  lemma {:induction false} IdsAreDistinctBeforeWrap(size: nat, es: seq<Event>)
    requires Run(size, es).ticks < size
    ensures Supplied(size, es)
    ensures Numbered(Run(size, es)) && AskedDistinct(Run(size, es))
    ensures forall i, j :: 0 <= i < j < |Run(size, es).handed| ==> Run(size, es).handed[i] != Run(size, es).handed[j]
  {
    if es != [] {
      var init, e := es[..|es| - 1], es[|es| - 1];
      StepTicks(Run(size, init), size, e);
      IdsAreDistinctBeforeWrap(size, init);
      RunKeepsCoupling(size, init);
      StepNumbered(Run(size, init), size, e);
      StepAskedDistinct(Run(size, init), size, e);
    }
  }

  /** `s` is the end of a run in which ids have not wrapped around. */
  ghost predicate Reachable(s: State, size: nat) {
    s.ticks < size && exists es :: s == Run(size, es)
  }

  lemma ReachableKeeps(s: State, size: nat)
    requires Reachable(s, size)
    ensures Coupled(s) && Balanced(s) && AskedDistinct(s)
  {
    var es :| s == Run(size, es);
    RunKeepsCoupling(size, es);
    EveryRequestHasOneOutcome(size, es);
    IdsAreDistinctBeforeWrap(size, es);
  }

  /** So each request, named by its id, has exactly one outcome: one response to the one who
      asked, or it is pending, or it was dropped. */
  lemma ExactlyOneOutcome(s: State, size: nat, id: Id, origin: Addr)
    requires Reachable(s, size) && (id, origin) in Asked(s.queue)
    ensures Responded(s.queue)[(id, origin)] + Pairs(s.requests)[(id, origin)] + s.dropped[(id, origin)] == 1
    ensures forall other :: other != origin ==> (id, other) !in Responded(s.queue)
  {
    hide Asked, Responded;
    ReachableKeeps(s, size);
    assert Asked(s.queue)[(id, origin)] == 1;
    forall other | other != origin ensures (id, other) !in Responded(s.queue) {
      assert (id, other) !in Asked(s.queue);
      assert Responded(s.queue)[(id, other)] <= Asked(s.queue)[(id, other)];
    }
  }

  /** Once a request has been answered or dropped, a second or late reply and a discard change
      nothing, and a timeout or cancellation under its id sends nothing. */
  lemma LateEventsAreIgnored(s: State, size: nat, id: Id, origin: Addr, payload: Payload)
    requires Reachable(s, size) && ((id, origin) in Responded(s.queue) || (id, origin) in s.dropped)
    ensures Step(s, size, Reply(id, payload)) == s && Step(s, size, Discard(id)) == s
    ensures Step(s, size, Expire(id)).queue == s.queue && Step(s, size, Cancel(id)).queue == s.queue
  {
    hide Step, Asked, Responded;
    OutcomeConcludes(s, size, id, origin);
    NothingPending(s, size, id, payload);
  }

  lemma OutcomeConcludes(s: State, size: nat, id: Id, origin: Addr)
    requires Reachable(s, size) && ((id, origin) in Responded(s.queue) || (id, origin) in s.dropped)
    ensures Coupled(s) && id !in s.requests
  {
    hide Asked, Responded;
    ReachableKeeps(s, size);
    assert Asked(s.queue)[(id, origin)] == 1;
    forall other ensures (id, other) !in Pairs(s.requests) {
      assert other != origin ==> (id, other) !in Asked(s.queue);
    }
    PendingInPairs(s.requests, id);
  }

  lemma NothingPending(s: State, size: nat, id: Id, payload: Payload)
    requires Coupled(s) && id !in s.requests
    ensures Step(s, size, Reply(id, payload)) == s && Step(s, size, Discard(id)) == s
    ensures Step(s, size, Expire(id)).queue == s.queue && Step(s, size, Cancel(id)).queue == s.queue
  {}

  lemma PendingInPairs(requests: map<Id, Addr>, id: Id)
    ensures id in requests ==> (id, requests[id]) in Pairs(requests)
  {
    if id in requests {
      assert (id, requests[id]) in PairSet(requests);
    }
  }

  // ---------------------------------------------------------------- what is sent, and why

  /** The event that a message stems from. */
  predicate Causes(e: Event, m: Message) {
    match m
    case Ask(_, origin, dest) => e == Sending(origin, dest)
    case Response(id, _, Answer(payload)) => e == Reply(id, payload)
    case Response(id, _, TimedOut) => e == Expire(id)
  }

  lemma StepCauses(s: State, size: nat, e: Event)
    requires Coupled(s)
    ensures var q, q' := s.queue, Step(s, size, e).queue;
            q' == q || (|q'| == |q| + 1 && q'[..|q|] == q && Causes(e, q'[|q|]))
  {
    if e.Reply? && e.id in s.requests {
      CancelledRequest(s.(queue := s.queue + [Response(e.id, s.requests[e.id], Answer(e.payload))]), e.id);
    }
  }

  /** In every run, an answer carries the payload of a reply under its id, a timeout stems from
      a timer that expired under its id, and a request goes where its sender has sent it. */
  lemma {:induction false} MessagesHaveCauses(size: nat, es: seq<Event>, m: Message)
    requires m in Run(size, es).queue
    ensures exists e :: e in es && Causes(e, m)
  {
    hide Step, Causes;
    if es != [] {
      var init, e := es[..|es| - 1], es[|es| - 1];
      var q, q' := Run(size, init).queue, Run(size, es).queue;
      RunKeepsCoupling(size, init);
      StepCauses(Run(size, init), size, e);
      if m in q {
        MessagesHaveCauses(size, init, m);
        var cause :| cause in init && Causes(cause, m);
        assert cause in es;
      } else {
        assert q' == q + [q'[|q|]];
        assert e in es;
      }
    }
  }

  /** In every run, while a request is pending, the next reply under its id is passed to the one
      who asked, or else the expiry of its timer is reported to it; each concludes the request,
      and no other. A cancellation or discard concludes it without a message. */
  lemma PendingIsConcluded(size: nat, es: seq<Event>, id: Id, payload: Payload)
    requires id in Run(size, es).requests
    ensures var s := Run(size, es);
            var replied, expired := Step(s, size, Reply(id, payload)), Step(s, size, Expire(id));
            && replied.queue == s.queue + [Response(id, s.requests[id], Answer(payload))]
            && expired.queue == s.queue + [Response(id, s.requests[id], TimedOut)]
            && Step(s, size, Cancel(id)).queue == s.queue && Step(s, size, Discard(id)).queue == s.queue
    ensures var s := Run(size, es);
            forall e :: e in {Reply(id, payload), Expire(id), Cancel(id), Discard(id)} ==>
              && Step(s, size, e).requests == s.requests - {id}
              && Step(s, size, e).timers == s.timers - {id}
  {
    hide Run;
    var s := Run(size, es);
    RunKeepsCoupling(size, es);
    CancelledRequest(s.(queue := s.queue + [Response(id, s.requests[id], Answer(payload))]), id);
    CancelledRequest(s, id);
    CancelledRequest(Drop(s, id), id);
  }

  /** In every run, sending puts one request to the destination, under an id that is not pending
      and then is pending for the sender, with a timer. */
  lemma SendingAsks(size: nat, es: seq<Event>, origin: Addr, dest: Addr)
    requires CanIssue(Run(size, es), size)
    ensures var s, s' := Run(size, es), Step(Run(size, es), size, Sending(origin, dest));
            exists id: Id :: id !in s.requests && id !in s.timers && id < size
                      && s'.queue == s.queue + [Ask(id, origin, dest)]
                      && s'.requests == s.requests[id := origin]
                      && s'.timers == s.timers[id := RequestTimer]
  {
    var id := NextId(Run(size, es), size);
    assert id !in Run(size, es).requests;
  }

  /** A plain timer needs a new id too, and sends nothing, neither when it starts nor when it
      expires or is cancelled. */
  lemma PlainTimersAreSilent(size: nat, es: seq<Event>, id: Id)
    requires CanIssue(Run(size, es), size)
    ensures var s, s' := Run(size, es), Step(Run(size, es), size, Starting);
            && s'.queue == s.queue && s'.requests == s.requests
            && exists next: Id :: next !in s.timers && next !in s.requests && s'.timers == s.timers[next := PlainTimer]
    ensures var s := Run(size, es);
            id in s.timers && s.timers[id] == PlainTimer ==>
              forall e :: e in {Expire(id), Cancel(id)} ==>
                Step(s, size, e).queue == s.queue && Step(s, size, e).requests == s.requests
                && Step(s, size, e).timers == s.timers - {id}
  {
    hide Run;
    RunKeepsCoupling(size, es);
    var next := NextId(Run(size, es), size);
    assert next !in Run(size, es).timers;
  }

  /** After the final step of shutdown nothing runs, no message was sent for what was pending,
      and every late event but a new request or timer changes nothing. */
  lemma FinishedIsQuiet(s: State, size: nat, e: Event)
    ensures var s' := Step(s, size, Finish);
            && s'.queue == s.queue && s'.requests == map[] && s'.timers == map[]
            && s'.dropped == s.dropped + Pairs(s.requests)
            && (!e.Sending? && !e.Starting? ==> Step(s', size, e) == s')
  {
    var s' := Step(s, size, Finish);
    assert PairSet(map[]) == {};
    assert s'.dropped + Pairs(s'.requests) == s'.dropped;
  }

  // ---------------------------------------------------------------- the object

  /** The part of `supervisor_t` that deals with requests. */
  class Supervisor {
    const size: nat                 // 2^N for N-bit ids
    var lastReqId: nat
    var requestMap: map<Id, Addr>
    var timersMap: map<Id, TimerKind>
    var queue: seq<Message>
    ghost var ticks: nat
    ghost var handed: seq<Id>
    ghost var dropped: multiset<(Id, Addr)>

    ghost function Abs(): State
      reads this
    {
      State(lastReqId, ticks, requestMap, timersMap, queue, handed, dropped)
    }

    constructor (size: nat)
      ensures Abs() == EMPTY && this.size == size
    {
      this.size := size;
      lastReqId, requestMap, timersMap, queue := 0, map[], map[], [];
      ticks, handed, dropped := 0, [], multiset{};
    }

    /** The do-while loop makes at most one increment more than there are ids in use. */
    method NextRequestId() returns (id: Id)
      requires lastReqId < size && |requestMap| < size
      modifies this`lastReqId, this`ticks, this`handed
      ensures id == NextId(old(Abs()), size) && Abs() == HandOut(old(Abs()), size)
      ensures ticks - old(ticks) <= |requestMap| + 1
    {
      ghost var last, used := lastReqId, requestMap.Keys;
      ghost var k := 1;
      lastReqId := if lastReqId + 1 < size then lastReqId + 1 else 0;
      while lastReqId in requestMap
        invariant 1 <= k <= |used| + 1 && lastReqId == After(last, size, k)
        invariant forall j :: 1 <= j < k ==> After(last, size, j) in used
        decreases |used| + 1 - k
        modifies this`lastReqId
      {
        MetInUse(last, used, size, k);
        lastReqId := if lastReqId + 1 < size then lastReqId + 1 else 0;
        k := k + 1;
      }
      NextIsUnique(last, used, size, k, Increments(last, used, size, 1));
      assert k == Taken(old(Abs()), size);
      id := lastReqId;
      ticks := ticks + k;
      handed := handed + [id];
    }

    method Request(origin: Addr, dest: Addr) returns (id: Id)
      requires lastReqId < size && |requestMap| < size
      modifies this
      ensures id == NextId(old(Abs()), size) && Abs() == Send(old(Abs()), size, origin, dest)
    {
      id := NextRequestId();
      requestMap := requestMap[id := origin];
      queue := queue + [Ask(id, origin, dest)];
      timersMap := timersMap[id := RequestTimer];
    }

    method StartTimer() returns (id: Id)
      requires lastReqId < size && |requestMap| < size
      modifies this
      ensures id == NextId(old(Abs()), size) && Abs() == StartPlain(old(Abs()), size)
    {
      id := NextRequestId();
      timersMap := timersMap[id := PlainTimer];
    }

    method RequestTrigger(id: Id, cancelled: bool)
      modifies this
      ensures Abs() == OnRequestTrigger(old(Abs()), id, cancelled)
    {
      if id in requestMap {
        if !cancelled {
          queue := queue + [Response(id, requestMap[id], TimedOut)];
        }
        requestMap := requestMap - {id};
      }
    }

    method TimerTrigger(id: Id, cancelled: bool)
      modifies this
      ensures Abs() == OnTimerTrigger(old(Abs()), id, cancelled)
    {
      if id in timersMap {
        if timersMap[id] == RequestTimer {
          RequestTrigger(id, cancelled);
        }
        timersMap := timersMap - {id};
      }
    }

    method Discard(id: Id)
      modifies this
      ensures Abs() == DiscardRequest(old(Abs()), id)
    {
      TimerTrigger(id, true);
      requestMap := requestMap - {id};
    }

    method ReplyArrived(id: Id, payload: Payload)
      modifies this
      ensures Abs() == OnReply(old(Abs()), id, payload)
    {
      if id in requestMap {
        queue := queue + [Response(id, requestMap[id], Answer(payload))];
        Discard(id);
      }
    }

    /** `actor_base_t::cancel_timer`; a request that is cancelled so is dropped. */
    method Cancel(id: Id)
      requires id in timersMap && Coupled(Abs())
      modifies this
      ensures Abs() == CancelTimer(Drop(old(Abs()), id), id) && Coupled(Abs())
    {
      ghost var s := Abs();
      if id in requestMap {
        dropped := dropped + multiset{(id, requestMap[id])};
      }
      TimerTrigger(id, true);
      StepKeepsCoupling(s, size, Event.Cancel(id));
    }

    /** Cancels timers until none is left; then no request is left either. */
    method FinishShutdown()
      requires Coupled(Abs())
      modifies this
      ensures Abs() == ShutdownFinish(old(Abs()))
    {
      ghost var was := Abs();
      while timersMap.Keys != {}
        invariant Remaining(was, Abs())
        decreases timersMap.Keys
      {
        ghost var some := Member(timersMap.Keys);
        var id :| id in timersMap.Keys;
        CancelRemaining(was, Abs(), id);
        Cancel(id);
      }
      NoneRemaining(was, Abs());
    }
  }

  /** What holds while the timers of `was` are being cancelled. */
  ghost predicate Remaining(was: State, s: State) {
    && Coupled(s) && s == was.(requests := s.requests, timers := s.timers, dropped := s.dropped)
    && Pairs(s.requests) + s.dropped == Pairs(was.requests) + was.dropped
  }

  lemma CancelRemaining(was: State, s: State, id: Id)
    requires Remaining(was, s) && id in s.timers
    ensures Remaining(was, CancelTimer(Drop(s, id), id))
    ensures CancelTimer(Drop(s, id), id).timers.Keys == s.timers.Keys - {id}
  {
    StepKeepsCoupling(s, 1, Cancel(id));
    if id in s.requests {
      PairsRemove(s.requests, id);
    }
  }

  lemma NoneRemaining(was: State, s: State)
    requires Remaining(was, s) && s.timers.Keys == {}
    ensures s == ShutdownFinish(was)
  {
    assert s.requests == map[] && s.timers == map[];
    assert PairSet(s.requests) == {};
    assert Pairs(s.requests) == multiset{};
    assert Pairs(s.requests) + s.dropped == s.dropped;
  }

  lemma NextIsUnique(last: nat, used: set<Id>, size: nat, k: nat, k': nat)
    requires last < size && IsNext(last, used, size, k) && IsNext(last, used, size, k')
    ensures k == k'
  {}
}
