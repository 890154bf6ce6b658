/** Message delivery between supervisors: one queue for every locality, an inbound queue for
    what other localities enqueue, and the fan-out to internal and external handlers. With
    subscriptions fixed, the handlers of each actor, for messages of all kinds together, are
    called in the order in which a sender sent the messages to an address. */
module Delivery {

  type Actor = int
  type Addr = int
  type Sup = int
  type Loc = int
  type Handler = int
  type Kind = int

  datatype Msg = Msg(sender: Actor, dest: Addr, kind: Kind, payload: int)

  datatype Call = Call(handler: Handler, msg: Msg)

  /** A queued message, or a call that the supervisor of an address wrapped for another one. */
  datatype Item = Plain(msg: Msg) | HandlerCall(call: Call)

  datatype Recipients = Recipients(internal: seq<Handler>, external: seq<Handler>)

  /** Who belongs where, and who is subscribed to what. */
  datatype Topology = Topology(
    supOfActor: Actor -> Sup,
    supOfAddr: Addr -> Sup,
    actorOf: Handler -> Actor,
    locality: Sup -> Loc,
    recipients: (Addr, Kind) -> Recipients)

  /** `received` has the calls of the handlers of each actor, in order. */
  datatype World = World(
    queue: map<Loc, seq<Item>>,
    inbound: map<Loc, seq<Item>>,
    sent: map<Actor, seq<Msg>>,
    received: map<Actor, seq<Call>>)

  const QUIET := World(map[], map[], map[], map[])

  function At<T>(m: map<int, seq<T>>, k: int): seq<T> {
    if k in m then m[k] else []
  }

  function Append<T>(m: map<int, seq<T>>, k: int, x: T): map<int, seq<T>> {
    m[k := At(m, k) + [x]]
  }

  function HomeOf(t: Topology, i: Item): Loc {
    t.locality(if i.Plain? then t.supOfAddr(i.msg.dest) else t.supOfActor(t.actorOf(i.call.handler)))
  }

  /** `actor_base_t::send`: the message enters the queue of the sender's locality. */
  function Send(t: Topology, w: World, m: Msg): World {
    w.(queue := Append(w.queue, t.locality(t.supOfActor(m.sender)), Plain(m)),
       sent := Append(w.sent, m.sender, m))
  }

  /** Wraps the message for every external handler and enqueues it where the handler lives. */
  function FanOut(t: Topology, w: World, m: Msg, handlers: seq<Handler>): (w': World)
    ensures w'.queue == w.queue
    decreases handlers
  {
    if handlers == [] then w
    else FanOut(t, EnqueueCall(t, w, Call(handlers[0], m)), m, handlers[1..])
  }

  function EnqueueCall(t: Topology, w: World, c: Call): World {
    w.(inbound := Append(w.inbound, HomeOf(t, HandlerCall(c)), HandlerCall(c)))
  }

  function MakeCall(t: Topology, w: World, c: Call): World {
    w.(received := Append(w.received, t.actorOf(c.handler), c))
  }

  function CallAll(t: Topology, w: World, m: Msg, handlers: seq<Handler>): (w': World)
    ensures w'.queue == w.queue
    decreases handlers
  {
    if handlers == [] then w
    else CallAll(t, MakeCall(t, w, Call(handlers[0], m)), m, handlers[1..])
  }

  /** `local_delivery_t::delivery`. */
  function Deliver(t: Topology, w: World, m: Msg): World {
    var r := t.recipients(m.dest, m.kind);
    CallAll(t, FanOut(t, w, m, r.external), m, r.internal)
  }

  /** One round of `process`: the message is for this locality, or it is passed on. */
  function Dispatch(t: Topology, w: World, at: Loc, i: Item): World {
    if HomeOf(t, i) != at then w.(inbound := Append(w.inbound, HomeOf(t, i), i))
    else if i.Plain? then Deliver(t, w, i.msg)
    else CallAll(t, w, i.call.msg, [i.call.handler])
  }

  function ProcessOne(t: Topology, w: World, at: Loc): World {
    if At(w.queue, at) == [] then w
    else Dispatch(t, w.(queue := w.queue[at := At(w.queue, at)[1..]]), at, At(w.queue, at)[0])
  }

  /** The whole of `process`: rounds until the queue of the locality is empty. */
  function Drain(t: Topology, w: World, at: Loc): (w': World)
    ensures At(w'.queue, at) == []
    decreases |At(w.queue, at)|
  {
    if At(w.queue, at) == [] then w else Drain(t, ProcessOne(t, w, at), at)
  }

  /** Takes over what other localities have enqueued. */
  function Check(w: World, at: Loc): World {
    w.(queue := w.queue[at := At(w.queue, at) + At(w.inbound, at)], inbound := w.inbound[at := []])
  }

  datatype Event = Sends(msg: Msg) | Processes(at: Loc) | Checks(at: Loc)

  function Step(t: Topology, w: World, e: Event): World {
    match e
    case Sends(m) => Send(t, w, m)
    case Processes(at) => ProcessOne(t, w, at)
    case Checks(at) => Check(w, at)
  }

  function Run(t: Topology, es: seq<Event>): World {
    if es == [] then QUIET else Step(t, Run(t, es[..|es| - 1]), es[|es| - 1])
  }

  // ---------------------------------------------------------------- the objects

  /** The queues of all localities, and the calls of handlers. */
  class Network {
    const t: Topology
    var queue: map<Loc, seq<Item>>
    var inbound: map<Loc, seq<Item>>
    var sent: map<Actor, seq<Msg>>
    var received: map<Actor, seq<Call>>

    ghost function Abs(): World
      reads this
    {
      World(queue, inbound, sent, received)
    }

    constructor (t: Topology)
      ensures this.t == t && Abs() == QUIET
    {
      this.t := t;
      queue, inbound, sent, received := map[], map[], map[], map[];
    }

    method Put(m: Msg)
      modifies this
      ensures Abs() == Send(t, old(Abs()), m)
    {
      queue := Append(queue, t.locality(t.supOfActor(m.sender)), Plain(m));
      sent := Append(sent, m.sender, m);
    }

    method Enqueue(i: Item)
      modifies this`inbound
      ensures inbound == Append(old(inbound), HomeOf(t, i), i)
    {
      inbound := Append(inbound, HomeOf(t, i), i);
    }

    method Invoke(h: Handler, m: Msg)
      modifies this`received
      ensures received == Append(old(received), t.actorOf(h), Call(h, m))
    {
      received := Append(received, t.actorOf(h), Call(h, m));
    }

    method WrapForExternal(m: Msg, external: seq<Handler>)
      modifies this`inbound
      ensures Abs() == FanOut(t, old(Abs()), m, external)
    {
      for n := 0 to |external|
        invariant FanOut(t, Abs(), m, external[n..]) == FanOut(t, old(Abs()), m, external)
        invariant queue == old(queue) && sent == old(sent) && received == old(received)
      {
        Enqueue(HandlerCall(Call(external[n], m)));
      }
    }

    method CallInternal(m: Msg, internal: seq<Handler>)
      modifies this`received
      ensures Abs() == CallAll(t, old(Abs()), m, internal)
    {
      for n := 0 to |internal|
        invariant CallAll(t, Abs(), m, internal[n..]) == CallAll(t, old(Abs()), m, internal)
        invariant queue == old(queue) && sent == old(sent) && inbound == old(inbound)
      {
        Invoke(internal[n], m);
      }
    }

    method Delivery(m: Msg, r: Recipients)
      requires r == t.recipients(m.dest, m.kind)
      modifies this`inbound, this`received
      ensures Abs() == Deliver(t, old(Abs()), m)
    {
      WrapForExternal(m, r.external);
      CallInternal(m, r.internal);
    }

    method Process(at: Loc)
      modifies this
      ensures Abs() == Drain(t, old(Abs()), at)
    {
      while At(queue, at) != []
        invariant Drain(t, Abs(), at) == Drain(t, old(Abs()), at)
        decreases |At(queue, at)|
      {
        var i := At(queue, at)[0];
        queue := queue[at := At(queue, at)[1..]];
        if HomeOf(t, i) != at {
          Enqueue(i);
        } else if i.Plain? {
          Delivery(i.msg, t.recipients(i.msg.dest, i.msg.kind));
        } else {
          CallInternal(i.call.msg, [i.call.handler]);
        }
      }
    }

    method TakeOver(at: Loc)
      modifies this
      ensures Abs() == Check(old(Abs()), at)
    {
      queue := queue[at := At(queue, at) + At(inbound, at)];
      inbound := inbound[at := []];
    }
  }

  // ---------------------------------------------------------------- streams

  /** The messages from one sender to one address. */
  datatype Stream = Stream(sender: Actor, dest: Addr)

  predicate In(m: Msg, k: Stream) {
    m.sender == k.sender && m.dest == k.dest
  }

  function Of(ms: seq<Msg>, k: Stream): seq<Msg> {
    if ms == [] then []
    else if In(ms[0], k) then [ms[0]] + Of(ms[1..], k)
    else Of(ms[1..], k)
  }

  /** The calls with messages of a stream. */
  function CallsOf(cs: seq<Call>, k: Stream): seq<Call> {
    if cs == [] then []
    else if In(cs[0].msg, k) then [cs[0]] + CallsOf(cs[1..], k)
    else CallsOf(cs[1..], k)
  }

  /** The messages of a stream that are queued as such. */
  function Plains(q: seq<Item>, k: Stream): seq<Msg> {
    if q == [] then []
    else if q[0].Plain? && In(q[0].msg, k) then [q[0].msg] + Plains(q[1..], k)
    else Plains(q[1..], k)
  }

  predicate CallOf(t: Topology, i: Item, k: Stream, a: Actor) {
    i.HandlerCall? && t.actorOf(i.call.handler) == a && In(i.call.msg, k)
  }

  /** The queued calls of the handlers of actor `a` with messages of a stream. */
  function Calls(t: Topology, q: seq<Item>, k: Stream, a: Actor): seq<Call> {
    if q == [] then []
    else if CallOf(t, q[0], k, a) then [q[0].call] + Calls(t, q[1..], k, a)
    else Calls(t, q[1..], k, a)
  }

  lemma TailConcat<T>(a: seq<T>, b: seq<T>)
    requires a != []
    ensures a + b != [] && (a + b)[0] == a[0] && (a + b)[1..] == a[1..] + b
  {}

  lemma Associates<T>(a: seq<T>, b: seq<T>, c: seq<T>)
    ensures a + (b + c) == (a + b) + c
  {}

  lemma {:induction false} OfAppend(a: seq<Msg>, b: seq<Msg>, k: Stream)
    ensures Of(a + b, k) == Of(a, k) + Of(b, k)
  {
    if a == [] {
      assert a + b == b;
    } else {
      TailConcat(a, b);
      OfAppend(a[1..], b, k);
      Associates([a[0]], Of(a[1..], k), Of(b, k));
    }
  }

  lemma {:induction false} CallsOfAppend(a: seq<Call>, b: seq<Call>, k: Stream)
    ensures CallsOf(a + b, k) == CallsOf(a, k) + CallsOf(b, k)
  {
    if a == [] {
      assert a + b == b;
    } else {
      TailConcat(a, b);
      CallsOfAppend(a[1..], b, k);
      Associates([a[0]], CallsOf(a[1..], k), CallsOf(b, k));
    }
  }

  lemma {:induction false} PlainsAppend(a: seq<Item>, b: seq<Item>, k: Stream)
    ensures Plains(a + b, k) == Plains(a, k) + Plains(b, k)
  {
    if a == [] {
      assert a + b == b;
    } else {
      TailConcat(a, b);
      PlainsAppend(a[1..], b, k);
      if a[0].Plain? { Associates([a[0].msg], Plains(a[1..], k), Plains(b, k)); }
    }
  }

  lemma {:induction false} CallsAppend(t: Topology, p: seq<Item>, q: seq<Item>, k: Stream, a: Actor)
    ensures Calls(t, p + q, k, a) == Calls(t, p, k, a) + Calls(t, q, k, a)
  {
    if p == [] {
      assert p + q == q;
    } else {
      TailConcat(p, q);
      CallsAppend(t, p[1..], q, k, a);
      if p[0].HandlerCall? { Associates([p[0].call], Calls(t, p[1..], k, a), Calls(t, q, k, a)); }
    }
  }

  lemma OneOf(m: Msg, k: Stream)
    ensures Of([m], k) == if In(m, k) then [m] else []
  {
    assert Of([m][1..], k) == [];
  }

  lemma OneCall(c: Call, k: Stream)
    ensures CallsOf([c], k) == if In(c.msg, k) then [c] else []
  {
    assert CallsOf([c][1..], k) == [];
  }

  lemma OneItem(t: Topology, i: Item, k: Stream, a: Actor)
    ensures Plains([i], k) == if i.Plain? && In(i.msg, k) then [i.msg] else []
    ensures Calls(t, [i], k, a) == if CallOf(t, i, k, a) then [i.call] else []
  {
    assert Plains([i][1..], k) == [] && Calls(t, [i][1..], k, a) == [];
  }

  /** One item more at the end of a queue. */
  lemma AddedItem(t: Topology, q: seq<Item>, i: Item, k: Stream, a: Actor)
    ensures Plains(q + [i], k) == if i.Plain? && In(i.msg, k) then Plains(q, k) + [i.msg] else Plains(q, k)
    ensures Calls(t, q + [i], k, a) == if CallOf(t, i, k, a) then Calls(t, q, k, a) + [i.call] else Calls(t, q, k, a)
  {
    hide Plains, Calls;
    PlainsAppend(q, [i], k);
    CallsAppend(t, q, [i], k, a);
    OneItem(t, i, k, a);
  }

  // ---------------------------------------------------------------- what reaches an actor

  /** The calls of those handlers that belong to the actor. */
  function Mine(t: Topology, m: Msg, hs: seq<Handler>, a: Actor): seq<Call> {
    if hs == [] then []
    else (if t.actorOf(hs[0]) == a then [Call(hs[0], m)] else []) + Mine(t, m, hs[1..], a)
  }

  /** The calls of the handlers of the actor that one message causes. */
  function Reach(t: Topology, m: Msg, a: Actor): seq<Call> {
    var r := t.recipients(m.dest, m.kind);
    Mine(t, m, r.external, a) + Mine(t, m, r.internal, a)
  }

  function Reached(t: Topology, ms: seq<Msg>, a: Actor): seq<Call> {
    if ms == [] then [] else Reach(t, ms[0], a) + Reached(t, ms[1..], a)
  }

  lemma {:induction false} ReachedAppend(t: Topology, p: seq<Msg>, q: seq<Msg>, a: Actor)
    ensures Reached(t, p + q, a) == Reached(t, p, a) + Reached(t, q, a)
  {
    hide Reach;
    if p == [] {
      assert p + q == q;
    } else {
      TailConcat(p, q);
      ReachedAppend(t, p[1..], q, a);
      Associates(Reach(t, p[0], a), Reached(t, p[1..], a), Reached(t, q, a));
    }
  }

  lemma ReachedOne(t: Topology, m: Msg, ms: seq<Msg>, a: Actor)
    ensures Reached(t, [m], a) == Reach(t, m, a)
    ensures Reached(t, [m] + ms, a) == Reach(t, m, a) + Reached(t, ms, a)
  {
    hide Reach;
    assert Reached(t, [m][1..], a) == [];
    assert ([m] + ms)[1..] == ms;
  }

  // ---------------------------------------------------------------- invariant

  /** Internal handlers belong to the supervisor of the address, external ones do not. */
  ghost predicate WellFormed(t: Topology) {
    && (forall d, kind, h :: h in t.recipients(d, kind).internal ==> t.supOfActor(t.actorOf(h)) == t.supOfAddr(d))
    && (forall d, kind, h :: h in t.recipients(d, kind).external ==> t.supOfActor(t.actorOf(h)) != t.supOfAddr(d))
  }

  function LocOf(t: Topology, a: Actor): Loc { t.locality(t.supOfActor(a)) }

  function LocOfDest(t: Topology, k: Stream): Loc { t.locality(t.supOfAddr(k.dest)) }

  /** The actor belongs to the supervisor of the address. */
  predicate Internal(t: Topology, k: Stream, a: Actor) {
    t.supOfActor(a) == t.supOfAddr(k.dest)
  }

  /** Messages of the stream on their way to the address, oldest first. */
  function OnTheWay(t: Topology, w: World, k: Stream): seq<Msg> {
    var from, to := LocOf(t, k.sender), LocOfDest(t, k);
    Plains(At(w.queue, to), k) + Plains(At(w.inbound, to), k) +
    if from == to then [] else Plains(At(w.queue, from), k)
  }

  /** Calls of the actor's handlers on their way, oldest first. */
  function CallsOnTheWay(t: Topology, w: World, k: Stream, a: Actor): seq<Call> {
    Calls(t, At(w.queue, LocOf(t, a)), k, a) + Calls(t, At(w.inbound, LocOf(t, a)), k, a)
  }

  /** What queues may hold at locality `x`: messages only where they were sent or are
      addressed to, in the inbound queue only after they were passed on, and calls only where
      an external actor lives. */
  predicate RoutedAt(t: Topology, k: Stream, a: Actor, x: Loc, queue: seq<Item>, inbound: seq<Item>) {
    var from, to := LocOf(t, k.sender), LocOfDest(t, k);
    && (x != from && x != to ==> Plains(queue, k) == [])
    && (x != to || from == to ==> Plains(inbound, k) == [])
    && (x != LocOf(t, a) || Internal(t, k, a) ==> Calls(t, queue, k, a) == [] && Calls(t, inbound, k, a) == [])
  }

  predicate RoutedIn(t: Topology, w: World, k: Stream, a: Actor, x: Loc) {
    RoutedAt(t, k, a, x, At(w.queue, x), At(w.inbound, x))
  }

  ghost predicate Routed(t: Topology, w: World, k: Stream, a: Actor) {
    forall x :: RoutedIn(t, w, k, a, x)
  }

  function SentIn(w: World, k: Stream): seq<Msg> { Of(At(w.sent, k.sender), k) }

  function HeardIn(w: World, k: Stream, a: Actor): seq<Call> { CallsOf(At(w.received, a), k) }

  /** The calls that what was sent causes are those made, then the calls on their way, then
      those of the messages still to be fanned out, in that order. */
  predicate InOrder(t: Topology, a: Actor, sent: seq<Msg>, heard: seq<Call>, calls: seq<Call>, way: seq<Msg>) {
    Reached(t, sent, a) == heard + calls + Reached(t, way, a)
  }

  predicate Ordered(t: Topology, w: World, k: Stream, a: Actor) {
    InOrder(t, a, SentIn(w, k), HeardIn(w, k, a), CallsOnTheWay(t, w, k, a), OnTheWay(t, w, k))
  }

  ghost predicate Inv(t: Topology, w: World, k: Stream, a: Actor) {
    Routed(t, w, k, a) && Ordered(t, w, k, a)
  }

  lemma OrderAfterSend(t: Topology, a: Actor, sent: seq<Msg>, heard: seq<Call>, calls: seq<Call>, way: seq<Msg>,
      m: Msg)
    requires InOrder(t, a, sent, heard, calls, way)
    ensures InOrder(t, a, sent + [m], heard, calls, way + [m])
  {
    hide Reached;
    ReachedAppend(t, sent, [m], a);
    ReachedAppend(t, way, [m], a);
    Associates(heard + calls, Reached(t, way, a), Reached(t, [m], a));
  }

  lemma OrderAfterDelivery(t: Topology, a: Actor, sent: seq<Msg>, heard: seq<Call>, calls: seq<Call>, way: seq<Msg>,
      m: Msg, heard': seq<Call>, calls': seq<Call>)
    requires InOrder(t, a, sent, heard, calls, [m] + way)
    requires heard' + calls' == heard + calls + Reach(t, m, a)
    ensures InOrder(t, a, sent, heard', calls', way)
  {
    hide Reached, Reach;
    ReachedOne(t, m, way, a);
    Associates(heard + calls, Reach(t, m, a), Reached(t, way, a));
  }

  // ---------------------------------------------------------------- steps keep the order

  lemma MineStep(t: Topology, m: Msg, hs: seq<Handler>, a: Actor)
    ensures hs == [] ==> Mine(t, m, hs, a) == []
    ensures hs != [] ==>
              Mine(t, m, hs, a) == (if t.actorOf(hs[0]) == a then [Call(hs[0], m)] else []) + Mine(t, m, hs[1..], a)
  {}

  lemma EnqueueEffect(t: Topology, w: World, c: Call, k: Stream, a: Actor, x: Loc)
    ensures var w1 := EnqueueCall(t, w, c);
            && Plains(At(w1.inbound, x), k) == Plains(At(w.inbound, x), k)
            && Calls(t, At(w1.inbound, x), k, a) == Calls(t, At(w.inbound, x), k, a) +
                 if In(c.msg, k) && x == LocOf(t, a) && t.actorOf(c.handler) == a then [c] else []
  {
    hide Plains, Calls, In;
    AddedItem(t, At(w.inbound, x), HandlerCall(c), k, a);
    assert Calls(t, At(w.inbound, x), k, a) + [] == Calls(t, At(w.inbound, x), k, a);
  }

  lemma MakeEffect(t: Topology, w: World, c: Call, k: Stream, a: Actor)
    ensures HeardIn(MakeCall(t, w, c), k, a) ==
            HeardIn(w, k, a) + if In(c.msg, k) && t.actorOf(c.handler) == a then [c] else []
  {
    hide CallsOf, In;
    CallsOfAppend(At(w.received, a), [c], k);
    OneCall(c, k);
    assert HeardIn(w, k, a) + [] == HeardIn(w, k, a);
  }

  lemma {:induction false} FanOutEffect(t: Topology, w: World, m: Msg, hs: seq<Handler>, k: Stream, a: Actor, x: Loc)
    ensures var w' := FanOut(t, w, m, hs);
            && w'.queue == w.queue && w'.sent == w.sent && w'.received == w.received
            && Plains(At(w'.inbound, x), k) == Plains(At(w.inbound, x), k)
            && Calls(t, At(w'.inbound, x), k, a) == Calls(t, At(w.inbound, x), k, a) +
                 if In(m, k) && x == LocOf(t, a) then Mine(t, m, hs, a) else []
    decreases hs
  {
    hide Plains, Calls, In, Mine;
    if hs == [] {
      MineStep(t, m, hs, a);
    } else {
      var w1 := EnqueueCall(t, w, Call(hs[0], m));
      EnqueueEffect(t, w, Call(hs[0], m), k, a, x);
      FanOutEffect(t, w1, m, hs[1..], k, a, x);
      MineStep(t, m, hs, a);
      var one := if t.actorOf(hs[0]) == a then [Call(hs[0], m)] else [];
      Associates(Calls(t, At(w.inbound, x), k, a), one, Mine(t, m, hs[1..], a));
    }
  }

  lemma {:induction false} CallAllEffect(t: Topology, w: World, m: Msg, hs: seq<Handler>, k: Stream, a: Actor)
    ensures var w' := CallAll(t, w, m, hs);
            && w'.queue == w.queue && w'.sent == w.sent && w'.inbound == w.inbound
            && HeardIn(w', k, a) == HeardIn(w, k, a) + if In(m, k) then Mine(t, m, hs, a) else []
    decreases hs
  {
    hide CallsOf, In, Mine, HeardIn;
    if hs == [] {
      MineStep(t, m, hs, a);
    } else {
      MakeEffect(t, w, Call(hs[0], m), k, a);
      CallAllEffect(t, MakeCall(t, w, Call(hs[0], m)), m, hs[1..], k, a);
      MineStep(t, m, hs, a);
      var one := if t.actorOf(hs[0]) == a then [Call(hs[0], m)] else [];
      Associates(HeardIn(w, k, a), one, Mine(t, m, hs[1..], a));
    }
  }

  lemma DeliverEffect(t: Topology, w: World, m: Msg, k: Stream, a: Actor, x: Loc)
    ensures var w' := Deliver(t, w, m);
            var r := t.recipients(m.dest, m.kind);
            && w'.queue == w.queue && w'.sent == w.sent
            && Plains(At(w'.inbound, x), k) == Plains(At(w.inbound, x), k)
            && Calls(t, At(w'.inbound, x), k, a) == Calls(t, At(w.inbound, x), k, a) +
                 (if In(m, k) && x == LocOf(t, a) then Mine(t, m, r.external, a) else [])
            && HeardIn(w', k, a) == HeardIn(w, k, a) + if In(m, k) then Mine(t, m, r.internal, a) else []
  {
    hide Plains, Calls, CallsOf, In, Mine, FanOut, CallAll;
    var r := t.recipients(m.dest, m.kind);
    FanOutEffect(t, w, m, r.external, k, a, x);
    CallAllEffect(t, FanOut(t, w, m, r.external), m, r.internal, k, a);
  }

  // Sending.

  lemma SendQueue(t: Topology, w: World, m: Msg, k: Stream, a: Actor, x: Loc)
    ensures var w' := Send(t, w, m);
            && Plains(At(w'.queue, x), k) ==
               (if In(m, k) && x == LocOf(t, k.sender) then Plains(At(w.queue, x), k) + [m]
                else Plains(At(w.queue, x), k))
            && Calls(t, At(w'.queue, x), k, a) == Calls(t, At(w.queue, x), k, a)
            && w'.inbound == w.inbound && w'.received == w.received
  {
    hide Plains, Calls;
    AddedItem(t, At(w.queue, x), Plain(m), k, a);
  }

  lemma SendRouted(t: Topology, w: World, m: Msg, k: Stream, a: Actor, x: Loc)
    requires RoutedIn(t, w, k, a, x)
    ensures RoutedIn(t, Send(t, w, m), k, a, x)
  {
    hide Plains, Calls, Send;
    SendQueue(t, w, m, k, a, x);
  }

  lemma SendWay(t: Topology, w: World, m: Msg, k: Stream, a: Actor)
    requires RoutedIn(t, w, k, a, LocOfDest(t, k))
    ensures OnTheWay(t, Send(t, w, m), k) == if In(m, k) then OnTheWay(t, w, k) + [m] else OnTheWay(t, w, k)
  {
    hide Plains, Calls, Send, In;
    SendQueue(t, w, m, k, a, LocOf(t, k.sender));
    SendQueue(t, w, m, k, a, LocOfDest(t, k));
  }

  lemma SendSent(t: Topology, w: World, m: Msg, k: Stream)
    ensures SentIn(Send(t, w, m), k) == if In(m, k) then SentIn(w, k) + [m] else SentIn(w, k)
  {
    hide Of;
    OfAppend(At(w.sent, m.sender), [m], k);
    OneOf(m, k);
  }

  lemma SendKeeps(t: Topology, w: World, m: Msg, k: Stream, a: Actor)
    requires Inv(t, w, k, a)
    ensures Inv(t, Send(t, w, m), k, a)
  {
    hide RoutedIn, SentIn, OnTheWay, Calls, CallsOf, Plains, InOrder, Send;
    forall x ensures RoutedIn(t, Send(t, w, m), k, a, x) {
      SendRouted(t, w, m, k, a, x);
    }
    SendQueue(t, w, m, k, a, LocOf(t, a));
    SendWay(t, w, m, k, a);
    SendSent(t, w, m, k);
    if In(m, k) {
      OrderAfterSend(t, a, SentIn(w, k), HeardIn(w, k, a), CallsOnTheWay(t, w, k, a), OnTheWay(t, w, k), m);
    }
  }

  // Taking over what was enqueued.

  lemma CheckQueue(t: Topology, w: World, at: Loc, k: Stream, a: Actor, x: Loc)
    ensures var w' := Check(w, at);
            && Plains(At(w'.queue, x), k) ==
               (if x == at then Plains(At(w.queue, x), k) + Plains(At(w.inbound, x), k) else Plains(At(w.queue, x), k))
            && Plains(At(w'.inbound, x), k) == (if x == at then [] else Plains(At(w.inbound, x), k))
            && Calls(t, At(w'.queue, x), k, a) ==
               (if x == at then Calls(t, At(w.queue, x), k, a) + Calls(t, At(w.inbound, x), k, a)
                else Calls(t, At(w.queue, x), k, a))
            && Calls(t, At(w'.inbound, x), k, a) == (if x == at then [] else Calls(t, At(w.inbound, x), k, a))
            && w'.sent == w.sent && w'.received == w.received
  {
    PlainsAppend(At(w.queue, at), At(w.inbound, at), k);
    CallsAppend(t, At(w.queue, at), At(w.inbound, at), k, a);
  }

  lemma CheckRouted(t: Topology, w: World, at: Loc, k: Stream, a: Actor, x: Loc)
    requires RoutedIn(t, w, k, a, x)
    ensures RoutedIn(t, Check(w, at), k, a, x)
  {
    hide Plains, Calls, Check;
    CheckQueue(t, w, at, k, a, x);
  }

  lemma CheckWay(t: Topology, w: World, at: Loc, k: Stream, a: Actor)
    requires RoutedIn(t, w, k, a, at)
    ensures OnTheWay(t, Check(w, at), k) == OnTheWay(t, w, k)
  {
    hide Plains, Calls, Check;
    var from, to := LocOf(t, k.sender), LocOfDest(t, k);
    CheckQueue(t, w, at, k, a, from);
    CheckQueue(t, w, at, k, a, to);
    var rest := if from == to then [] else Plains(At(w.queue, from), k);
    if at == to {
      assert Plains(At(w.queue, to), k) + Plains(At(w.inbound, to), k) + [] + rest ==
             Plains(At(w.queue, to), k) + Plains(At(w.inbound, to), k) + rest;
    } else if at == from {
      assert rest + [] == rest;
    }
  }

  lemma CheckCalls(t: Topology, w: World, at: Loc, k: Stream, a: Actor)
    ensures CallsOnTheWay(t, Check(w, at), k, a) == CallsOnTheWay(t, w, k, a)
  {
    hide Plains, Calls, Check;
    CheckQueue(t, w, at, k, a, LocOf(t, a));
  }

  lemma CheckKeeps(t: Topology, w: World, at: Loc, k: Stream, a: Actor)
    requires Inv(t, w, k, a)
    ensures Inv(t, Check(w, at), k, a)
  {
    hide RoutedIn, OnTheWay, CallsOnTheWay, InOrder, CallsOf, Of;
    forall x ensures RoutedIn(t, Check(w, at), k, a, x) {
      CheckRouted(t, w, at, k, a, x);
    }
    CheckWay(t, w, at, k, a);
    CheckCalls(t, w, at, k, a);
  }

  // Taking the head off a queue.

  /** The world after the head of the queue of `at` has been taken off. */
  function Popped(w: World, at: Loc): World
    requires At(w.queue, at) != []
  {
    w.(queue := w.queue[at := At(w.queue, at)[1..]])
  }

  lemma PopQueue(t: Topology, w: World, at: Loc, k: Stream, a: Actor, x: Loc)
    requires At(w.queue, at) != []
    ensures var i, rest := At(w.queue, at)[0], At(Popped(w, at).queue, x);
            && Plains(At(w.queue, x), k) ==
               (if x == at && i.Plain? && In(i.msg, k) then [i.msg] + Plains(rest, k) else Plains(rest, k))
            && Calls(t, At(w.queue, x), k, a) ==
               (if x == at && CallOf(t, i, k, a) then [i.call] + Calls(t, rest, k, a) else Calls(t, rest, k, a))
  {}

  // Passing a message on to the locality of its address.

  predicate Foreign(t: Topology, w: World, at: Loc) {
    At(w.queue, at) != [] && HomeOf(t, At(w.queue, at)[0]) != at
  }

  lemma ForwardInbound(t: Topology, w: World, at: Loc, k: Stream, a: Actor, x: Loc)
    requires Foreign(t, w, at)
    ensures var i, w' := At(w.queue, at)[0], ProcessOne(t, w, at);
            && w'.queue == Popped(w, at).queue && w'.sent == w.sent && w'.received == w.received
            && Plains(At(w'.inbound, x), k) ==
               (if x == HomeOf(t, i) && i.Plain? && In(i.msg, k) then Plains(At(w.inbound, x), k) + [i.msg]
                else Plains(At(w.inbound, x), k))
            && Calls(t, At(w'.inbound, x), k, a) ==
               (if x == HomeOf(t, i) && CallOf(t, i, k, a) then Calls(t, At(w.inbound, x), k, a) + [i.call]
                else Calls(t, At(w.inbound, x), k, a))
  {
    hide Plains, Calls;
    AddedItem(t, At(w.inbound, x), At(w.queue, at)[0], k, a);
  }

  lemma ForwardRouted(t: Topology, w: World, at: Loc, k: Stream, a: Actor, x: Loc)
    requires Foreign(t, w, at) && RoutedIn(t, w, k, a, x) && RoutedIn(t, w, k, a, at)
    ensures RoutedIn(t, ProcessOne(t, w, at), k, a, x)
  {
    hide Plains, Calls, ProcessOne;
    ForwardInbound(t, w, at, k, a, x);
    PopQueue(t, w, at, k, a, x);
    PopQueue(t, w, at, k, a, at);
  }

  lemma ForwardWay(t: Topology, w: World, at: Loc, k: Stream, a: Actor)
    requires Foreign(t, w, at) && RoutedIn(t, w, k, a, at)
    ensures OnTheWay(t, ProcessOne(t, w, at), k) == OnTheWay(t, w, k)
  {
    hide Plains, Calls, ProcessOne;
    ForwardInbound(t, w, at, k, a, LocOfDest(t, k));
    PopQueue(t, w, at, k, a, LocOf(t, k.sender));
    PopQueue(t, w, at, k, a, LocOfDest(t, k));
    PopQueue(t, w, at, k, a, at);
  }

  lemma ForwardCalls(t: Topology, w: World, at: Loc, k: Stream, a: Actor)
    requires Foreign(t, w, at) && RoutedIn(t, w, k, a, at)
    ensures CallsOnTheWay(t, ProcessOne(t, w, at), k, a) == CallsOnTheWay(t, w, k, a)
  {
    hide Plains, Calls, ProcessOne;
    ForwardInbound(t, w, at, k, a, LocOf(t, a));
    PopQueue(t, w, at, k, a, LocOf(t, a));
    PopQueue(t, w, at, k, a, at);
  }

  lemma ForwardKeeps(t: Topology, w: World, at: Loc, k: Stream, a: Actor)
    requires Foreign(t, w, at) && Inv(t, w, k, a)
    ensures Inv(t, ProcessOne(t, w, at), k, a)
  {
    hide RoutedIn, OnTheWay, CallsOnTheWay, InOrder, CallsOf, Of, ProcessOne, Calls, Plains;
    forall x ensures RoutedIn(t, ProcessOne(t, w, at), k, a, x) {
      ForwardRouted(t, w, at, k, a, x);
    }
    ForwardInbound(t, w, at, k, a, at);
    ForwardWay(t, w, at, k, a);
    ForwardCalls(t, w, at, k, a);
  }

  // Calling a handler on behalf of another supervisor.

  predicate Calling(t: Topology, w: World, at: Loc) {
    At(w.queue, at) != [] && HomeOf(t, At(w.queue, at)[0]) == at && At(w.queue, at)[0].HandlerCall?
  }

  lemma CallHeard(t: Topology, w: World, at: Loc, k: Stream, a: Actor)
    requires Calling(t, w, at)
    ensures var i, w' := At(w.queue, at)[0], ProcessOne(t, w, at);
            && w'.queue == Popped(w, at).queue && w'.inbound == w.inbound && w'.sent == w.sent
            && HeardIn(w', k, a) == if CallOf(t, i, k, a) then HeardIn(w, k, a) + [i.call] else HeardIn(w, k, a)
  {
    hide CallsOf;
    var c := At(w.queue, at)[0].call;
    CallAllEffect(t, Popped(w, at), c.msg, [c.handler], k, a);
    MineOne(t, c.msg, c.handler, a);
  }

  lemma MineOne(t: Topology, m: Msg, h: Handler, a: Actor)
    ensures Mine(t, m, [h], a) == if t.actorOf(h) == a then [Call(h, m)] else []
  {
    assert Mine(t, m, [h][1..], a) == [];
  }

  lemma CallRouted(t: Topology, w: World, at: Loc, k: Stream, a: Actor, x: Loc)
    requires Calling(t, w, at) && RoutedIn(t, w, k, a, x)
    ensures RoutedIn(t, ProcessOne(t, w, at), k, a, x)
  {
    hide Plains, Calls, ProcessOne, HeardIn;
    CallHeard(t, w, at, k, a);
    PopQueue(t, w, at, k, a, x);
  }

  lemma CallWay(t: Topology, w: World, at: Loc, k: Stream, a: Actor)
    requires Calling(t, w, at)
    ensures OnTheWay(t, ProcessOne(t, w, at), k) == OnTheWay(t, w, k)
  {
    hide Plains, Calls, ProcessOne, HeardIn;
    CallHeard(t, w, at, k, a);
    PopQueue(t, w, at, k, a, LocOf(t, k.sender));
    PopQueue(t, w, at, k, a, LocOfDest(t, k));
  }

  lemma MoveOver(heard: seq<Call>, c: Call, calls: seq<Call>, arriving: seq<Call>)
    ensures (heard + [c]) + (calls + arriving) == heard + (([c] + calls) + arriving)
  {}

  lemma CallCalls(t: Topology, w: World, at: Loc, k: Stream, a: Actor)
    requires Calling(t, w, at)
    ensures var w' := ProcessOne(t, w, at);
            HeardIn(w', k, a) + CallsOnTheWay(t, w', k, a) == HeardIn(w, k, a) + CallsOnTheWay(t, w, k, a)
  {
    hide Plains, Calls, ProcessOne, HeardIn;
    var x, i := LocOf(t, a), At(w.queue, at)[0];
    CallHeard(t, w, at, k, a);
    PopQueue(t, w, at, k, a, x);
    MoveOver(HeardIn(w, k, a), i.call, Calls(t, At(Popped(w, at).queue, x), k, a), Calls(t, At(w.inbound, x), k, a));
  }

  lemma CallKeeps(t: Topology, w: World, at: Loc, k: Stream, a: Actor)
    requires Calling(t, w, at) && Inv(t, w, k, a)
    ensures Inv(t, ProcessOne(t, w, at), k, a)
  {
    hide RoutedIn, OnTheWay, CallsOnTheWay, HeardIn, Of, ProcessOne, Reached;
    forall x ensures RoutedIn(t, ProcessOne(t, w, at), k, a, x) {
      CallRouted(t, w, at, k, a, x);
    }
    CallHeard(t, w, at, k, a);
    CallWay(t, w, at, k, a);
    CallCalls(t, w, at, k, a);
  }

  // Delivering a message at its address.

  predicate Arrived(t: Topology, w: World, at: Loc) {
    At(w.queue, at) != [] && HomeOf(t, At(w.queue, at)[0]) == at && At(w.queue, at)[0].Plain?
  }

  /** All handlers of an actor are on the same side of an address. */
  lemma {:induction false} NoneMine(t: Topology, m: Msg, hs: seq<Handler>, a: Actor)
    requires forall h :: h in hs ==> t.actorOf(h) != a
    ensures Mine(t, m, hs, a) == []
  {
    if hs != [] {
      assert hs[0] in hs;
      NoneMine(t, m, hs[1..], a);
    }
  }

  lemma OneSide(t: Topology, m: Msg, a: Actor)
    requires WellFormed(t)
    ensures var r := t.recipients(m.dest, m.kind);
            if t.supOfActor(a) == t.supOfAddr(m.dest) then Mine(t, m, r.external, a) == []
            else Mine(t, m, r.internal, a) == []
  {
    hide Mine;
    var r := t.recipients(m.dest, m.kind);
    if t.supOfActor(a) == t.supOfAddr(m.dest) {
      NoneMine(t, m, r.external, a);
    } else {
      NoneMine(t, m, r.internal, a);
    }
  }

  lemma Delivered(t: Topology, w: World, at: Loc, k: Stream, a: Actor, x: Loc)
    requires WellFormed(t) && Arrived(t, w, at)
    ensures var m, w' := At(w.queue, at)[0].msg, ProcessOne(t, w, at);
            && w'.queue == Popped(w, at).queue && w'.sent == w.sent
            && Plains(At(w'.inbound, x), k) == Plains(At(w.inbound, x), k)
            && Calls(t, At(w'.inbound, x), k, a) == Calls(t, At(w.inbound, x), k, a) +
                 (if In(m, k) && x == LocOf(t, a) && !Internal(t, k, a) then Reach(t, m, a) else [])
            && HeardIn(w', k, a) == HeardIn(w, k, a) + if In(m, k) && Internal(t, k, a) then Reach(t, m, a) else []
  {
    hide Plains, Calls, CallsOf, Mine, WellFormed;
    var m := At(w.queue, at)[0].msg;
    DeliverEffect(t, Popped(w, at), m, k, a, x);
    OneSide(t, m, a);
    var r := t.recipients(m.dest, m.kind);
    assert Mine(t, m, r.external, a) + [] == Mine(t, m, r.external, a);
    assert [] + Mine(t, m, r.internal, a) == Mine(t, m, r.internal, a);
  }

  lemma DeliverRouted(t: Topology, w: World, at: Loc, k: Stream, a: Actor, x: Loc)
    requires WellFormed(t) && Arrived(t, w, at) && RoutedIn(t, w, k, a, x)
    ensures RoutedIn(t, ProcessOne(t, w, at), k, a, x)
  {
    hide Plains, Calls, ProcessOne, HeardIn, Reach, WellFormed;
    Delivered(t, w, at, k, a, x);
    PopQueue(t, w, at, k, a, x);
  }

  lemma DeliverWay(t: Topology, w: World, at: Loc, k: Stream, a: Actor)
    requires WellFormed(t) && Arrived(t, w, at)
    ensures var m := At(w.queue, at)[0].msg;
            var rest := OnTheWay(t, ProcessOne(t, w, at), k);
            OnTheWay(t, w, k) == if In(m, k) then [m] + rest else rest
  {
    hide Plains, Calls, ProcessOne, HeardIn, Reach, WellFormed;
    var m, w' := At(w.queue, at)[0].msg, ProcessOne(t, w, at);
    var from, to := LocOf(t, k.sender), LocOfDest(t, k);
    Delivered(t, w, at, k, a, to);
    PopQueue(t, w, at, k, a, from);
    PopQueue(t, w, at, k, a, to);
    var sending := if from == to then [] else Plains(At(w'.queue, from), k);
    Associates([m], Plains(At(w'.queue, to), k), Plains(At(w.inbound, to), k));
    Associates([m], Plains(At(w'.queue, to), k) + Plains(At(w.inbound, to), k), sending);
  }

  lemma DeliverCalls(t: Topology, w: World, at: Loc, k: Stream, a: Actor)
    requires WellFormed(t) && Arrived(t, w, at) && RoutedIn(t, w, k, a, LocOf(t, a))
    ensures var m, w' := At(w.queue, at)[0].msg, ProcessOne(t, w, at);
            HeardIn(w', k, a) + CallsOnTheWay(t, w', k, a) ==
            HeardIn(w, k, a) + CallsOnTheWay(t, w, k, a) + if In(m, k) then Reach(t, m, a) else []
  {
    hide Plains, Calls, ProcessOne, HeardIn, Reach, WellFormed;
    var x, m := LocOf(t, a), At(w.queue, at)[0].msg;
    Delivered(t, w, at, k, a, x);
    PopQueue(t, w, at, k, a, x);
    var queued, arriving := Calls(t, At(w.queue, x), k, a), Calls(t, At(w.inbound, x), k, a);
    if In(m, k) && !Internal(t, k, a) {
      Associates(queued, arriving, Reach(t, m, a));
      Associates(HeardIn(w, k, a), queued + arriving, Reach(t, m, a));
    }
  }

  lemma DeliverKeeps(t: Topology, w: World, at: Loc, k: Stream, a: Actor)
    requires WellFormed(t) && Arrived(t, w, at) && Inv(t, w, k, a)
    ensures Inv(t, ProcessOne(t, w, at), k, a)
  {
    hide RoutedIn, OnTheWay, CallsOnTheWay, HeardIn, Of, ProcessOne, Reached, Reach, WellFormed, Calls, Plains;
    var w', m := ProcessOne(t, w, at), At(w.queue, at)[0].msg;
    forall x ensures RoutedIn(t, w', k, a, x) {
      DeliverRouted(t, w, at, k, a, x);
    }
    Delivered(t, w, at, k, a, at);
    DeliverWay(t, w, at, k, a);
    DeliverCalls(t, w, at, k, a);
    if In(m, k) {
      OrderAfterDelivery(t, a, SentIn(w, k), HeardIn(w, k, a), CallsOnTheWay(t, w, k, a), OnTheWay(t, w', k), m,
        HeardIn(w', k, a), CallsOnTheWay(t, w', k, a));
    }
  }

  lemma ProcessKeeps(t: Topology, w: World, at: Loc, k: Stream, a: Actor)
    requires WellFormed(t) && Inv(t, w, k, a)
    ensures Inv(t, ProcessOne(t, w, at), k, a)
  {
    hide Inv, WellFormed, Dispatch;
    if At(w.queue, at) != [] {
      if Foreign(t, w, at) {
        ForwardKeeps(t, w, at, k, a);
      } else if Calling(t, w, at) {
        CallKeeps(t, w, at, k, a);
      } else {
        DeliverKeeps(t, w, at, k, a);
      }
    }
  }

  lemma QuietInv(t: Topology, k: Stream, a: Actor)
    ensures Inv(t, QUIET, k, a)
  {
    forall x ensures RoutedIn(t, QUIET, k, a, x) {}
  }

  lemma {:induction false} RunKeepsOrder(t: Topology, es: seq<Event>, k: Stream, a: Actor)
    requires WellFormed(t)
    ensures Inv(t, Run(t, es), k, a)
  {
    hide Inv, WellFormed, Send, Check, ProcessOne;
    if es == [] {
      QuietInv(t, k, a);
    } else {
      var w := Run(t, es[..|es| - 1]);
      RunKeepsOrder(t, es[..|es| - 1], k, a);
      match es[|es| - 1]
      case Sends(m) => SendKeeps(t, w, m, k, a);
      case Checks(at) => CheckKeeps(t, w, at, k, a);
      case Processes(at) => ProcessKeeps(t, w, at, k, a);
    }
  }

  // ---------------------------------------------------------------- what an actor hears

  /** In every run, the calls of an actor's handlers with messages from a sender to an address
      are a prefix of those that the messages sent, taken in order of sending, cause. */
  lemma HeardInOrder(t: Topology, es: seq<Event>, k: Stream, a: Actor)
    requires WellFormed(t)
    ensures var w := Run(t, es); HeardIn(w, k, a) <= Reached(t, SentIn(w, k), a)
  {
    hide Run, WellFormed, HeardIn, Reached, CallsOnTheWay, OnTheWay, SentIn;
    RunKeepsOrder(t, es, k, a);
  }

  function Msgs(cs: seq<Call>): (ms: seq<Msg>)
    ensures |ms| == |cs| && forall i :: 0 <= i < |ms| ==> ms[i] == cs[i].msg
  {
    seq(|cs|, i requires 0 <= i < |cs| => cs[i].msg)
  }

  /** How often the actor is subscribed to what the message carries. */
  function Subscriptions(t: Topology, m: Msg, a: Actor): nat {
    |Reach(t, m, a)|
  }

  lemma {:induction false} MineMessage(t: Topology, m: Msg, hs: seq<Handler>, a: Actor)
    ensures forall c :: c in Mine(t, m, hs, a) ==> c.msg == m && c.handler in hs && t.actorOf(c.handler) == a
  {
    if hs != [] {
      MineMessage(t, m, hs[1..], a);
    }
  }

  lemma ReachMessage(t: Topology, m: Msg, a: Actor)
    ensures forall c :: c in Reach(t, m, a) ==> c.msg == m
  {
    hide Mine;
    MineMessage(t, m, t.recipients(m.dest, m.kind).external, a);
    MineMessage(t, m, t.recipients(m.dest, m.kind).internal, a);
  }

  lemma {:induction false} ReachedOnce(t: Topology, ms: seq<Msg>, a: Actor)
    requires forall m :: m in ms ==> Subscriptions(t, m, a) == 1
    ensures Msgs(Reached(t, ms, a)) == ms
  {
    hide Reach;
    if ms != [] {
      assert ms[0] in ms;
      ReachMessage(t, ms[0], a);
      ReachedOnce(t, ms[1..], a);
      assert Reach(t, ms[0], a)[0] in Reach(t, ms[0], a);
    }
  }

  lemma {:induction false} ReachedNever(t: Topology, ms: seq<Msg>, a: Actor)
    requires forall m :: m in ms ==> Subscriptions(t, m, a) == 0
    ensures Reached(t, ms, a) == []
  {
    hide Reach;
    if ms != [] {
      assert ms[0] in ms;
      ReachedNever(t, ms[1..], a);
    }
  }

  /** An actor that is subscribed once to each kind of message sent hears a prefix of what was
      sent, all kinds together; one that is subscribed to none hears nothing. */
  lemma PerSenderOrder(t: Topology, es: seq<Event>, k: Stream, a: Actor)
    requires WellFormed(t)
    ensures var w := Run(t, es);
            && ((forall m :: m in SentIn(w, k) ==> Subscriptions(t, m, a) == 1) ==>
                  Msgs(HeardIn(w, k, a)) <= SentIn(w, k))
            && ((forall m :: m in SentIn(w, k) ==> Subscriptions(t, m, a) == 0) ==> HeardIn(w, k, a) == [])
  {
    hide Run, WellFormed, HeardIn, Reached, Reach, SentIn;
    var sent, heard := SentIn(Run(t, es), k), HeardIn(Run(t, es), k, a);
    HeardInOrder(t, es, k, a);
    if forall m :: m in sent ==> Subscriptions(t, m, a) == 1 {
      ReachedOnce(t, sent, a);
      assert Msgs(heard) == sent[..|heard|];
    }
    if forall m :: m in sent ==> Subscriptions(t, m, a) == 0 {
      ReachedNever(t, sent, a);
    }
  }

  /** Nothing is left in any queue. */
  ghost predicate Drained(w: World) {
    forall x :: At(w.queue, x) == [] && At(w.inbound, x) == []
  }

  lemma MsgsAppend(a: seq<Call>, b: seq<Call>)
    ensures Msgs(a + b) == Msgs(a) + Msgs(b)
  {}

  lemma {:induction false} OnlyCopies(cs: seq<Call>, m: Msg, x: Msg)
    requires forall c :: c in cs ==> c.msg == m
    ensures multiset(Msgs(cs))[x] == if x == m then |cs| else 0
  {
    if cs == [] {
    } else {
      assert cs == [cs[0]] + cs[1..];
      MsgsAppend([cs[0]], cs[1..]);
      assert Msgs([cs[0]]) == [m];
      OnlyCopies(cs[1..], m, x);
    }
  }

  /** A message is heard as often as it was sent times as often as the actor is subscribed. */
  lemma {:induction false} HeardTimes(t: Topology, ms: seq<Msg>, a: Actor, x: Msg)
    ensures multiset(Msgs(Reached(t, ms, a)))[x] == multiset(ms)[x] * Subscriptions(t, x, a)
  {
    hide Reach, Subscriptions, Msgs;
    if ms == [] {
      assert Msgs(Reached(t, ms, a)) == [];
    } else {
      assert ms == [ms[0]] + ms[1..];
      MsgsAppend(Reach(t, ms[0], a), Reached(t, ms[1..], a));
      HeardOne(t, ms[0], a, x);
      HeardTimes(t, ms[1..], a, x);
      OneMore(multiset(ms[1..])[x], Subscriptions(t, x, a));
    }
  }

  lemma HeardOne(t: Topology, m: Msg, a: Actor, x: Msg)
    ensures multiset(Msgs(Reach(t, m, a)))[x] == if x == m then Subscriptions(t, x, a) else 0
  {
    hide Reach;
    ReachMessage(t, m, a);
    OnlyCopies(Reach(t, m, a), m, x);
  }

  lemma OneMore(n: nat, times: nat)
    ensures (n + 1) * times == times + n * times
  {}

  lemma ReachedAsSentIff(t: Topology, ms: seq<Msg>, a: Actor)
    ensures Msgs(Reached(t, ms, a)) == ms <==> forall m :: m in ms ==> Subscriptions(t, m, a) == 1
  {
    hide Reached, Subscriptions;
    if Msgs(Reached(t, ms, a)) == ms {
      forall m | m in ms ensures Subscriptions(t, m, a) == 1 {
        HeardTimes(t, ms, a, m);
        OnceOnly(multiset(ms)[m], Subscriptions(t, m, a));
      }
    }
    if forall m :: m in ms ==> Subscriptions(t, m, a) == 1 { ReachedOnce(t, ms, a); }
  }

  lemma OnceOnly(n: nat, times: nat)
    requires n > 0 && n == n * times
    ensures times == 1
  {}

  /** Nothing is lost: once all queues are empty, the handlers of the actor have been called
      with everything that was sent, and the actor has heard exactly what was sent if and only
      if it is subscribed once to each message sent. */
  lemma NothingIsLost(t: Topology, es: seq<Event>, k: Stream, a: Actor)
    requires WellFormed(t) && Drained(Run(t, es))
    ensures var w := Run(t, es);
            var sent, heard := SentIn(w, k), HeardIn(w, k, a);
            && heard == Reached(t, sent, a)
            && (Msgs(heard) == sent <==> forall m :: m in sent ==> Subscriptions(t, m, a) == 1)
  {
    hide Run, WellFormed, HeardIn, SentIn, Subscriptions;
    var w := Run(t, es);
    RunKeepsOrder(t, es, k, a);
    DrainedWay(t, w, k, a);
    ReachedAsSentIff(t, SentIn(w, k), a);
  }

  lemma DrainedWay(t: Topology, w: World, k: Stream, a: Actor)
    requires Drained(w)
    ensures OnTheWay(t, w, k) == [] && CallsOnTheWay(t, w, k, a) == []
  {}

  // ---------------------------------------------------------------- draining a queue

  lemma RunOneMore(t: Topology, es: seq<Event>, e: Event)
    ensures Run(t, es + [e]) == Step(t, Run(t, es), e)
  {
    hide Step;
    assert (es + [e])[..|es|] == es;
  }

  lemma RoundShortens(t: Topology, w: World, at: Loc)
    requires At(w.queue, at) != []
    ensures |At(ProcessOne(t, w, at).queue, at)| == |At(w.queue, at)| - 1
  {}

  function Rounds(at: Loc, n: nat): (es: seq<Event>)
    ensures |es| == n
  {
    seq(n, _ => Processes(at))
  }

  /** Draining a queue is a run of single rounds, so all of the above holds after it. */
  lemma {:induction false} DrainIsRun(t: Topology, es: seq<Event>, w: World, at: Loc, n: nat)
    requires w == Run(t, es) && n == |At(w.queue, at)|
    ensures Drain(t, w, at) == Run(t, es + Rounds(at, n))
    decreases n
  {
    hide Run, ProcessOne;
    if n == 0 {
      assert es + Rounds(at, 0) == es;
    } else {
      RunOneMore(t, es, Processes(at));
      RoundShortens(t, w, at);
      DrainIsRun(t, es + [Processes(at)], ProcessOne(t, w, at), at, n - 1);
      assert es + Rounds(at, n) == es + [Processes(at)] + Rounds(at, n - 1);
    }
  }

  // ---------------------------------------------------------------- who touches what

  lemma {:induction false} CallAllElsewhere(t: Topology, w: World, m: Msg, hs: seq<Handler>, a: Actor)
    requires forall h :: h in hs ==> t.actorOf(h) != a
    ensures var w' := CallAll(t, w, m, hs);
            && At(w'.received, a) == At(w.received, a) && w'.sent == w.sent && w'.inbound == w.inbound
    decreases hs
  {
    if hs != [] {
      CallAllElsewhere(t, MakeCall(t, w, Call(hs[0], m)), m, hs[1..], a);
    }
  }

  ghost predicate IsPrefix<T>(p: seq<T>, q: seq<T>) {
    |p| <= |q| && q[..|p|] == p
  }

  lemma {:induction false} FanOutAppends(t: Topology, w: World, m: Msg, hs: seq<Handler>, x: Loc)
    ensures var w' := FanOut(t, w, m, hs);
            && w'.received == w.received && w'.sent == w.sent && IsPrefix(At(w.inbound, x), At(w'.inbound, x))
    decreases hs
  {
    if hs != [] {
      FanOutAppends(t, EnqueueCall(t, w, Call(hs[0], m)), m, hs[1..], x);
    }
  }

  lemma {:induction false} CallAllQuiet(t: Topology, w: World, m: Msg, hs: seq<Handler>)
    ensures var w' := CallAll(t, w, m, hs); w'.inbound == w.inbound && w'.sent == w.sent
    decreases hs
  {
    if hs != [] {
      CallAllQuiet(t, MakeCall(t, w, Call(hs[0], m)), m, hs[1..]);
    }
  }

  /** A locality that processes its queue calls handlers of its own actors only, takes from no other
      queue, and only ever appends to what others will take over. */
  lemma ProcessesAtHome(t: Topology, w: World, at: Loc, a: Actor, x: Loc)
    requires WellFormed(t)
    ensures var w' := Step(t, w, Processes(at));
            && (At(w'.received, a) != At(w.received, a) ==> LocOf(t, a) == at)
            && (x != at ==> At(w'.queue, x) == At(w.queue, x))
            && IsPrefix(At(w.inbound, x), At(w'.inbound, x)) && w'.sent == w.sent
  {
    hide CallAll, FanOut;
    if At(w.queue, at) != [] {
      var i := At(w.queue, at)[0];
      var w1 := w.(queue := w.queue[at := At(w.queue, at)[1..]]);
      if HomeOf(t, i) == at && i.Plain? {
        var r := t.recipients(i.msg.dest, i.msg.kind);
        FanOutAppends(t, w1, i.msg, r.external, x);
        CallAllQuiet(t, FanOut(t, w1, i.msg, r.external), i.msg, r.internal);
        if LocOf(t, a) != at { CallAllElsewhere(t, FanOut(t, w1, i.msg, r.external), i.msg, r.internal, a); }
      } else if HomeOf(t, i) == at {
        CallAllQuiet(t, w1, i.call.msg, [i.call.handler]);
        if LocOf(t, a) != at { CallAllElsewhere(t, w1, i.call.msg, [i.call.handler], a); }
      }
    }
  }

  /** In every run, the handlers of an actor are called by the locality of its supervisor alone. */
  lemma CalledAtHome(t: Topology, es: seq<Event>, e: Event, a: Actor)
    requires WellFormed(t)
    ensures At(Run(t, es + [e]).received, a) != At(Run(t, es).received, a) ==> e == Processes(LocOf(t, a))
  {
    hide Run, ProcessOne;
    RunOneMore(t, es, e);
    if e.Processes? {
      ProcessesAtHome(t, Run(t, es), e.at, a, e.at);
    }
  }
}
