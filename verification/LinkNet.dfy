/** The link protocol as a transition system: actors, one FIFO channel for every ordered
    pair of actors, and the queue in which an actor's supervisor leaves the responses to
    the actor's own requests. */
module LinkNet {
  import opened LinkActor

  /** A response that reached (or a timeout that was produced by) the supervisor of the actor
      which had asked, on its way to that actor. */
  datatype Response =
    | LinkResponse(server: Addr, rid: nat, ok: bool)
    | UnlinkResponse(client: Addr, ok: bool)

  datatype Net = Net(actor: Addr -> Actor, chan: (Addr, Addr) -> seq<Msg>, local: Addr -> seq<Response>)

  datatype Event =
    | AskLink(client: Addr, server: Addr, operationalOnly: bool)
    | Deliver(from: Addr, to: Addr, keep: bool, votes: Votes)
    | DeliverResponse(at: Addr, votes: Votes)
    | LinkTimeout(at: Addr, rid: nat)
    | UnlinkTimeout(at: Addr, client: Addr)
    | ForgetHeld(at: Addr, server: Addr, votes: Votes)
    | Boot(at: Addr)
    | AskInit(at: Addr, votes: Votes)
    | PollInit(at: Addr, votes: Votes)
    | TriggerStart(at: Addr)
    | AskShutdown(at: Addr, withRequest: bool, votes: Votes)
    | PollShutdown(at: Addr, votes: Votes)
    | GiveUp(at: Addr)
    | Lose(from: Addr, to: Addr)
    | LoseResponse(at: Addr)

  ghost function Initial(): Net {
    Net(_ => NEW_ACTOR, (_, _) => [], _ => [])
  }

  /** Actor `x` becomes `a`, and what it posted enters the channels. */
  ghost function Store(n: Net, x: Addr, a: Actor): Net {
    Net(y => if y == x then a.(out := map[]) else n.actor(y),
        (p, q) => if p == x then n.chan(p, q) + Box(a.out, q) else n.chan(p, q),
        n.local)
  }

  ghost function Pop(n: Net, from: Addr, to: Addr): Net
    requires n.chan(from, to) != []
  {
    n.(chan := (p, q) => if p == from && q == to then n.chan(p, q)[1..] else n.chan(p, q))
  }

  ghost function PopResponse(n: Net, at: Addr): Net
    requires n.local(at) != []
  {
    n.(local := y => if y == at then n.local(y)[1..] else n.local(y))
  }

  ghost function PushResponse(n: Net, at: Addr, r: Response): Net {
    n.(local := y => if y == at then n.local(y) + [r] else n.local(y))
  }

  /** The supervisor of `at` takes request `rid` out of its map and passes the outcome on. */
  ghost function ConcludeLink(n: Net, at: Addr, server: Addr, rid: nat, ok: bool): Net {
    PushResponse(Store(n, at, n.actor(at).(linkRequests := n.actor(at).linkRequests - {rid})),
                 at, LinkResponse(server, rid, ok))
  }

  ghost function ConcludeUnlink(n: Net, at: Addr, client: Addr, ok: bool): Net {
    PushResponse(Store(n, at, n.actor(at).(unlinkRequests := n.actor(at).unlinkRequests - {client})),
                 at, UnlinkResponse(client, ok))
  }

  ghost function Receive(n: Net, from: Addr, to: Addr, m: Msg, keep: bool, v: Votes): Net {
    var a := n.actor(to);
    match m
    case LinkRequest(rid, operationalOnly) => Store(n, to, OnLinkRequest(a, from, rid, operationalOnly))
    case UnlinkNotify => Store(n, to, OnUnlinkNotify(a, from, v))
    case UnlinkRequest => Store(n, to, OnUnlinkRequest(a, from, keep, v))
    case LinkReply(rid, ok) => if rid in a.linkRequests then ConcludeLink(n, to, from, rid, ok) else n
    case UnlinkReply => if from in a.unlinkRequests then ConcludeUnlink(n, to, from, true) else n
  }

  ghost function ReceiveResponse(n: Net, at: Addr, r: Response, v: Votes): Net {
    var a := n.actor(at);
    match r
    case LinkResponse(server, _, ok) => if a.deaf then n else Store(n, at, OnLinkResponse(a, server, ok, v))
    case UnlinkResponse(client, ok) => Store(n, at, OnUnlinkResponse(a, client, ok, v))
  }

  /** Every event is total: one that is not enabled changes nothing. */
  ghost function Step(n: Net, e: Event): Net {
    match e
    case AskLink(c, s, operationalOnly) =>
      if s in n.actor(c).servers then n  // link_client.cpp:47 asserts this away
      else Store(n, c, Link(n.actor(c), s, operationalOnly))
    case Deliver(p, q, keep, v) =>
      if n.chan(p, q) == [] then n else Receive(Pop(n, p, q), p, q, n.chan(p, q)[0], keep, v)
    case DeliverResponse(x, v) =>
      if n.local(x) == [] then n else ReceiveResponse(PopResponse(n, x), x, n.local(x)[0], v)
    case LinkTimeout(x, rid) =>
      var a := n.actor(x);
      if rid in a.linkRequests then ConcludeLink(n, x, a.linkRequests[rid], rid, false) else n
    case UnlinkTimeout(x, c) =>
      if c in n.actor(x).unlinkRequests then ConcludeUnlink(n, x, c, false) else n
    case ForgetHeld(x, s, v) =>
      if s in n.actor(x).held then Store(n, x, ForgetLink(n.actor(x), s, v)) else n
    case Boot(x) => Store(n, x, StartInit(n.actor(x)))
    case AskInit(x, v) => Store(n, x, InitContinue(n.actor(x).(initRequest := true), v))
    case PollInit(x, v) => Store(n, x, InitContinue(n.actor(x), v))
    case TriggerStart(x) => Store(n, x, Start(n.actor(x)))
    case AskShutdown(x, asked, v) => Store(n, x, BeginShutdown(n.actor(x), asked, v))
    case PollShutdown(x, v) => Store(n, x, ShutdownContinue(n.actor(x), v))
    case GiveUp(x) => Store(n, x, GiveUpHearing(n.actor(x)))
    case Lose(p, q) => if n.chan(p, q) == [] || !Quitting(n.actor(q)) then n else Pop(n, p, q)
    case LoseResponse(x) =>
      if n.local(x) == [] || n.local(x)[0].LinkResponse? || !Quitting(n.actor(x)) then n else PopResponse(n, x)
  }

  ghost function Run(n: Net, es: seq<Event>): Net
    decreases es
  {
    if es == [] then n else Run(Step(n, es[0]), es[1..])
  }

  ghost predicate NoNewLinks(es: seq<Event>) {
    forall e :: e in es ==> !e.AskLink?
  }

  /** What a caller of `link` can check: it holds no record of the server, no earlier link
      request to that server is unanswered, and no success of one waits for its callback. */
  ghost predicate Fresh(n: Net, c: Addr, s: Addr) {
    && s !in n.actor(c).servers
    && (forall id :: id in n.actor(c).linkRequests ==> n.actor(c).linkRequests[id] != s)
    && (forall r :: r in n.local(c) && r.LinkResponse? && r.ok ==> r.server != s)
  }

  /** Every call of `link` in the run is fresh. */
  ghost predicate Careful(n: Net, es: seq<Event>)
    decreases es
  {
    es != [] ==>
      && (es[0].AskLink? ==> Fresh(n, es[0].client, es[0].server))
      && Careful(Step(n, es[0]), es[1..])
  }

  /** Events that concern one actor and that at most poll. */
  ghost predicate PollsOnly(e: Event) {
    e.Boot? || e.AskInit? || e.PollInit? || e.TriggerStart? || e.AskShutdown? || e.PollShutdown? || e.GiveUp?
  }

  /** What such an event makes of the actor. */
  ghost function AfterPoll(a: Actor, e: Event): Actor
    requires PollsOnly(e)
  {
    match e
    case Boot(_) => StartInit(a)
    case AskInit(_, v) => InitContinue(a.(initRequest := true), v)
    case PollInit(_, v) => InitContinue(a, v)
    case TriggerStart(_) => Start(a)
    case AskShutdown(_, asked, v) => BeginShutdown(a, asked, v)
    case PollShutdown(_, v) => ShutdownContinue(a, v)
    case GiveUp(_) => GiveUpHearing(a)
  }
}
