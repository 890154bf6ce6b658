/** What single events of the link protocol do, seen from outside: what the actor that an event
    concerns records afterwards, and what it posts to whom. */
module LinkEffects {
  import opened LinkActor
  import opened LinkNet

  /** The actor that the event concerns. */
  ghost function At(e: Event): Addr {
    match e
    case AskLink(c, _, _) => c
    case Deliver(_, q, _, _) => q
    case Lose(_, q) => q
    case _ => e.at
  }

  /** The event takes the first message of the channel. */
  ghost predicate Takes(n: Net, e: Event, p: Addr, q: Addr) {
    && n.chan(p, q) != []
    && (e.Deliver? || (e.Lose? && Quitting(n.actor(q))))
    && e.from == p && e.to == q
  }

  ghost function Remaining(n: Net, e: Event, p: Addr, q: Addr): seq<Msg> {
    if Takes(n, e, p, q) then n.chan(p, q)[1..] else n.chan(p, q)
  }

  /** The actor of the event becomes `a`, and what `a` has posted is all that was posted. */
  ghost predicate Becomes(n: Net, e: Event, a: Actor) {
    && Step(n, e).actor(At(e)) == a.(out := map[])
    && forall b :: Step(n, e).chan(At(e), b) == Remaining(n, e, At(e), b) + Box(a.out, b)
  }

  /** An event touches one actor, its own responses and what it posts. */
  lemma OthersStay(n: Net, e: Event)
    ensures forall y :: y != At(e) ==> Step(n, e).actor(y) == n.actor(y) && Step(n, e).local(y) == n.local(y)
    ensures forall p, q :: p != At(e) ==> Step(n, e).chan(p, q) == Remaining(n, e, p, q)
  {
    hide InitContinue, ForgetLink, Receive, ReceiveResponse, ConcludeLink, ConcludeUnlink, Start, BeginShutdown;
    hide ShutdownContinue, GiveUpHearing, Link, StartInit, Quitting;
    match e
    case Deliver(p, q, keep, v) =>
      if n.chan(p, q) != [] { ReceiveTouches(Pop(n, p, q), p, q, n.chan(p, q)[0], keep, v); }
    case DeliverResponse(x, v) =>
      if n.local(x) != [] { ResponseTouches(PopResponse(n, x), x, n.local(x)[0], v); }
    case LinkTimeout(x, rid) =>
      if rid in n.actor(x).linkRequests { ConcludeTouches(n, x, n.actor(x).linkRequests[rid], rid, false); }
    case UnlinkTimeout(x, c) => ConcludeTouches(n, x, c, 0, false);
    case _ =>
  }

  ghost predicate Touches(n: Net, n': Net, x: Addr) {
    && (forall y :: y != x ==> n'.actor(y) == n.actor(y) && n'.local(y) == n.local(y))
    && (forall p, q :: p != x ==> n'.chan(p, q) == n.chan(p, q))
  }

  lemma ConcludeTouches(n: Net, x: Addr, y: Addr, rid: nat, ok: bool)
    ensures Touches(n, ConcludeLink(n, x, y, rid, ok), x)
    ensures Touches(n, ConcludeUnlink(n, x, y, ok), x)
  {}

  lemma ReceiveTouches(n: Net, p: Addr, q: Addr, m: Msg, keep: bool, v: Votes)
    ensures Touches(n, Receive(n, p, q, m, keep, v), q)
  {
    hide OnUnlinkRequest, OnLinkRequest, OnUnlinkNotify, ConcludeLink, ConcludeUnlink;
    match m
    case LinkReply(rid, ok) => ConcludeTouches(n, q, p, rid, ok);
    case UnlinkReply => ConcludeTouches(n, q, p, 0, true);
    case _ =>
  }

  lemma ResponseTouches(n: Net, x: Addr, r: Response, v: Votes)
    ensures Touches(n, ReceiveResponse(n, x, r, v), x)
  {
    hide OnLinkResponse, OnUnlinkResponse;
  }

  // ---------------------------------------------------------------- polls

  /** What a shutdown poll says to `b`: one word to a server that is left, one to a client asked. */
  ghost function Farewell(a: Actor, b: Addr): seq<Msg> {
    (if a.clientShutdown && a.clients == map[] && b in a.servers
     then [if b in a.unlinkQueue then UnlinkReply else UnlinkNotify] else [])
    + (if a.serverShutdown && b in a.clients && a.clients[b].state == Active then [UnlinkRequest] else [])
  }

  /** Other plugins, or servers that cannot be left while there are clients, end the poll. */
  ghost predicate HeldUp(a: Actor, v: Votes) {
    !v.shutdownBefore || (a.clientShutdown && a.servers != map[] && a.clients != map[])
  }

  /** Link requests under way to servers that are left without having asked for it. */
  ghost function Discarded(a: Actor): set<nat> {
    if a.clientShutdown && a.clients == map[]
    then set s | s in a.servers && s !in a.unlinkQueue && a.servers[s].state == Linking :: a.servers[s].rid
    else {}
  }

  ghost function PolledClient(a: Actor, c: Addr): ClientRec
    requires c in a.clients
  {
    if a.serverShutdown && a.clients[c].state == Active then a.clients[c].(state := Unlinking, asked := true)
    else a.clients[c]
  }

  /** `a'` is what a shutdown poll makes of `a`. */
  ghost predicate Polled(a: Actor, a': Actor, v: Votes) {
    var done := v.shutdownAfter && (a.serverShutdown ==> a.clients == map[]);
    if HeldUp(a, v) then a' == a
    else
      && (forall b :: Box(a'.out, b) == Box(a.out, b) + Farewell(a, b))
      && a'.clients.Keys == a.clients.Keys
      && (forall c :: c in a.clients ==> a'.clients[c] == PolledClient(a, c))
      && a' == a.(life := if done then ShutDown else ShuttingDown,
                  shutdownRequest := a.shutdownRequest && !done,
                  notes := a.notes + if done && a.shutdownRequest then [ShutdownDone] else [],
                  servers := if a.clientShutdown then map[] else a.servers,
                  linkRequests := a.linkRequests - Discarded(a),
                  unlinkRequests := a.unlinkRequests + if a.serverShutdown then ActiveClients(a) else {},
                  clientShutdown := false,
                  serverShutdown := a.serverShutdown && a.clients != map[],
                  clients := a'.clients, out := a'.out)
  }

  lemma Discards(a: Actor, left: map<Addr, ServerRec>)
    requires a.clientShutdown && a.clients == map[]
    requires forall s :: s in left <==> s in a.servers && s !in a.unlinkQueue
    requires forall s :: s in left ==> left[s] == a.servers[s]
    ensures LinkingIds(left, left.Keys) == Discarded(a)
  {}

  lemma ClientHalf(a: Actor)
    requires a.clientShutdown && (a.servers == map[] || a.clients == map[])
    ensures var a' := ClientHandleShutdown(a);
            && (forall b :: Box(a'.out, b) == Box(a.out, b) + Farewell(a.(serverShutdown := false), b))
            && a' == a.(servers := map[], linkRequests := a.linkRequests - Discarded(a), out := a'.out)
  {
    hide AnswerUnlinks, Leave;
    if a.servers == map[] {
      assert a.linkRequests - Discarded(a) == a.linkRequests;
    } else {
      Unlinks(a);
      Leaves(a, AnswerUnlinks(a));
    }
  }

  lemma Unlinks(a: Actor)
    ensures var a' := AnswerUnlinks(a);
            && a' == a.(servers := a'.servers, out := a'.out)
            && (forall s :: s in a'.servers <==> s in a.servers && s !in a.unlinkQueue)
            && (forall s :: s in a'.servers ==> a'.servers[s] == a.servers[s])
            && (forall b :: Box(a'.out, b) ==
                  Box(a.out, b) + if b in a.servers && b in a.unlinkQueue then [UnlinkReply] else [])
  {
    hide PostAll;
  }

  lemma Leaves(a: Actor, a1: Actor)
    requires a.clientShutdown && a.clients == map[] && a1 == a.(servers := a1.servers, out := a1.out)
    requires forall s :: s in a1.servers <==> s in a.servers && s !in a.unlinkQueue
    requires forall s :: s in a1.servers ==> a1.servers[s] == a.servers[s]
    requires forall b :: Box(a1.out, b) ==
               Box(a.out, b) + if b in a.servers && b in a.unlinkQueue then [UnlinkReply] else []
    ensures var a' := Leave(a1);
            && (forall b :: Box(a'.out, b) == Box(a.out, b) + Farewell(a.(serverShutdown := false), b))
            && a' == a.(servers := map[], linkRequests := a.linkRequests - Discarded(a), out := a'.out)
  {
    hide PostAll, LinkingIds, Discarded;
    Discards(a, a1.servers);
  }

  lemma ServerHalf(a: Actor, v: Votes)
    requires a.life == ShuttingDown && !a.clientShutdown && v.shutdownBefore
    ensures Polled(a, PollFromServer(a, v), v)
  {
    hide ShutdownFinish, ServerHandleShutdown, Discarded, ActiveClients, Box;
    NothingDiscarded(a);
    if a.serverShutdown {
      Asks(a);
      if a.clients == map[] { Finishes(ServerHandleShutdown(a), v); }
    } else {
      assert a.unlinkRequests + {} == a.unlinkRequests;
      Finishes(a, v);
    }
  }

  lemma Asks(a: Actor)
    requires !a.clientShutdown && a.serverShutdown
    ensures var a' := ServerHandleShutdown(a);
            && (forall b :: Box(a'.out, b) == Box(a.out, b) + Farewell(a, b))
            && a'.clients.Keys == a.clients.Keys && (a'.clients == map[] <==> a.clients == map[])
            && (forall c :: c in a.clients ==> a'.clients[c] == PolledClient(a, c))
            && a' == a.(clients := a'.clients, unlinkRequests := a.unlinkRequests + ActiveClients(a), out := a'.out)
  {
    var a' := ServerHandleShutdown(a);
    assert a'.clients.Keys == a.clients.Keys;
  }

  lemma Finishes(a: Actor, v: Votes)
    requires a.life == ShuttingDown
    ensures var a1 := a.(serverShutdown := false);
            (if v.shutdownAfter then ShutdownFinish(a1) else a1) ==
            a1.(life := if v.shutdownAfter then ShutDown else ShuttingDown,
                shutdownRequest := a.shutdownRequest && !v.shutdownAfter,
                notes := a.notes + if v.shutdownAfter && a.shutdownRequest then [ShutdownDone] else [])
  {
    assert a.notes + [] == a.notes;
  }

  lemma PollIsPolled(a: Actor, v: Votes)
    requires a.life == ShuttingDown
    ensures Polled(a, ShutdownContinue(a, v), v)
  {
    hide PollFromServer, ClientHandleShutdown, Polled, Farewell;
    if !v.shutdownBefore {
      PollHeldUp(a, v);
    } else if a.clientShutdown {
      if a.servers != map[] && a.clients != map[] {
        PollHeldUp(a, v);
        ClientWaits(a);
      } else {
        ClientHalf(a);
        var a2 := ClientHandleShutdown(a).(clientShutdown := false);
        ServerHalf(a2, v);
        BothHalves(a, a2, PollFromServer(a2, v), v);
      }
    } else {
      ServerHalf(a.(clientShutdown := false), v);
    }
  }

  lemma PollHeldUp(a: Actor, v: Votes)
    requires HeldUp(a, v)
    ensures Polled(a, a, v)
  {}

  lemma BothHalves(a: Actor, a2: Actor, a': Actor, v: Votes)
    requires a.clientShutdown && !HeldUp(a, v) && Polled(a2, a', v)
    requires forall b :: Box(a2.out, b) == Box(a.out, b) + Farewell(a.(serverShutdown := false), b)
    requires a2 == a.(servers := map[], linkRequests := a.linkRequests - Discarded(a), clientShutdown := false,
                      out := a2.out)
    ensures Polled(a, a', v)
  {
    hide Discarded, Farewell, Box;
    NothingDiscarded(a2);
    forall b ensures Box(a'.out, b) == Box(a.out, b) + Farewell(a, b) {
      FarewellHalves(a, a2, b);
      assert Box(a.out, b) + Farewell(a.(serverShutdown := false), b) + Farewell(a2, b)
          == Box(a.out, b) + (Farewell(a.(serverShutdown := false), b) + Farewell(a2, b));
    }
    assert ActiveClients(a2) == ActiveClients(a);
    forall c | c in a.clients ensures a'.clients[c] == PolledClient(a, c) {
      assert a'.clients[c] == PolledClient(a2, c);
    }
  }

  lemma NothingDiscarded(a: Actor)
    requires !a.clientShutdown
    ensures a.linkRequests - Discarded(a) == a.linkRequests
  {}

  lemma FarewellHalves(a: Actor, a2: Actor, b: Addr)
    requires a2.servers == map[] && a2.clients == a.clients && a2.serverShutdown == a.serverShutdown
    ensures Farewell(a, b) == Farewell(a.(serverShutdown := false), b) + Farewell(a2, b)
  {}

  lemma ClientWaits(a: Actor)
    requires a.servers != map[] && a.clients != map[]
    ensures ClientHandleShutdown(a) == a
  {}

  // ---------------------------------------------------------------- single events

  /** The event leaves the actor as a shutdown poll of `m` does, if `m` is shutting down. */
  ghost predicate Polls(n: Net, e: Event, m: Actor, v: Votes) {
    if m.life == ShuttingDown then exists a' :: Polled(m, a', v) && Becomes(n, e, a') else Becomes(n, e, m)
  }

  lemma StoreBecomes(n: Net, e: Event, m: Net, a: Actor)
    requires Step(n, e) == Store(m, At(e), a)
    requires forall b :: m.chan(At(e), b) == Remaining(n, e, At(e), b)
    ensures Becomes(n, e, a)
  {
    hide Step;
  }

  lemma SameBoxes(n: Net, e: Event, a: Actor, a': Actor)
    requires Becomes(n, e, a) && a' == a.(out := a'.out) && forall b :: Box(a'.out, b) == Box(a.out, b)
    ensures Becomes(n, e, a')
  {
    hide Step, Box;
  }

  lemma ContinuePolls(n: Net, e: Event, m: Actor, v: Votes)
    requires Becomes(n, e, ShutdownContinue(m, v))
    ensures Polls(n, e, m, v)
  {
    hide Polled, Becomes;
    if m.life == ShuttingDown {
      PollIsPolled(m, v);
    }
  }

  /** A link request is refused, kept until the start, or accepted; exactly one answer is posted
      unless it is kept. */
  lemma LinkRequestIsAnswered(n: Net, c: Addr, s: Addr, rid: nat, oo: bool, keep: bool, v: Votes)
    requires n.chan(c, s) != [] && n.chan(c, s)[0] == LinkRequest(rid, oo) && n.actor(s).out == map[]
    ensures var a, e := n.actor(s), Deliver(c, s, keep, v);
            if Quitting(a) || c in a.clients then Becomes(n, e, a.(out := map[c := [LinkReply(rid, false)]]))
            else if oo && Rank(a.life) < Rank(Operational) then
              Becomes(n, e, a.(clients := a.clients[c := ClientRec(Pending, Some(rid), false)], serverStart := true))
            else
              Becomes(n, e, a.(clients := a.clients[c := ClientRec(Active, None, false)],
                               out := map[c := [LinkReply(rid, true)]]))
  {
    hide Becomes, Store, Pop, Step, OnLinkRequest;
    var a, e := n.actor(s), Deliver(c, s, keep, v);
    LinkRequestSteps(n, c, s, rid, oo, keep, v);
    PopBecomes(n, e, OnLinkRequest(a, c, rid, oo));
    AnswersRequest(a, c, rid, oo);
  }

  lemma LinkRequestSteps(n: Net, c: Addr, s: Addr, rid: nat, oo: bool, keep: bool, v: Votes)
    requires n.chan(c, s) != [] && n.chan(c, s)[0] == LinkRequest(rid, oo)
    ensures Step(n, Deliver(c, s, keep, v)) == Store(Pop(n, c, s), s, OnLinkRequest(n.actor(s), c, rid, oo))
  {
    hide Store, OnLinkRequest;
  }

  lemma AnswersRequest(a: Actor, c: Addr, rid: nat, oo: bool)
    requires a.out == map[]
    ensures OnLinkRequest(a, c, rid, oo) ==
            if Quitting(a) || c in a.clients then a.(out := map[c := [LinkReply(rid, false)]])
            else if oo && Rank(a.life) < Rank(Operational) then
              a.(clients := a.clients[c := ClientRec(Pending, Some(rid), false)], serverStart := true)
            else
              a.(clients := a.clients[c := ClientRec(Active, None, false)], out := map[c := [LinkReply(rid, true)]])
  {
    PostedOne(c, LinkReply(rid, false));
    PostedOne(c, LinkReply(rid, true));
  }

  lemma PostedOne(c: Addr, m: Msg)
    ensures PostAll(map[], {c}, m) == map[c := [m]]
  {
    assert PostAll(map[], {c}, m).Keys == {c};
    assert Box(PostAll(map[], {c}, m), c) == [m];
  }

  lemma PopBecomes(n: Net, e: Event, a: Actor)
    requires e.Deliver? && n.chan(e.from, e.to) != []
    requires Step(n, e) == Store(Pop(n, e.from, e.to), e.to, a)
    ensures Becomes(n, e, a)
  {
    hide Step, Store;
    StoreBecomes(n, e, Pop(n, e.from, e.to), a);
  }

  /** A call of `link` records the server under a new id and posts one request with that id. */
  lemma LinkPosts(n: Net, c: Addr, s: Addr, oo: bool)
    requires s !in n.actor(c).servers && n.actor(c).out == map[]
    ensures var a := n.actor(c);
            Becomes(n, AskLink(c, s, oo),
                    a.(clientInit := true, nextId := a.nextId + 1,
                       linkRequests := a.linkRequests[a.nextId := s],
                       servers := a.servers[s := ServerRec(Linking, a.nextId)],
                       out := map[s := [LinkRequest(a.nextId, oo)]]))
  {
    hide Becomes, Store, PostAll;
    PostedOne(s, LinkRequest(n.actor(c).nextId, oo));
    StoreBecomes(n, AskLink(c, s, oo), n, Link(n.actor(c), s, oo));
  }

  /** The record of a client that has left is dropped, with the timer of the request to it, and an
      actor that is shutting down for its supervisor polls again. */
  lemma NotifyDrops(n: Net, c: Addr, s: Addr, keep: bool, v: Votes)
    requires n.chan(c, s) != [] && n.chan(c, s)[0] == UnlinkNotify
    ensures var a, e := n.actor(s), Deliver(c, s, keep, v);
            if c !in a.clients then Becomes(n, e, a)
            else
              var m := a.(clients := a.clients - {c},
                          unlinkRequests := a.unlinkRequests - if a.clients[c].asked then {c} else {});
              if m.shutdownRequest then Polls(n, e, m, v) else Becomes(n, e, m)
  {
    hide Becomes, Polls, Store, Pop, Step, ShutdownContinue;
    var a, e := n.actor(s), Deliver(c, s, keep, v);
    NotifySteps(n, c, s, keep, v);
    PopBecomes(n, e, OnUnlinkNotify(a, c, v));
    if c in a.clients {
      var m := a.(clients := a.clients - {c},
                  unlinkRequests := a.unlinkRequests - if a.clients[c].asked then {c} else {});
      assert RemoveClient(a, c) == m;
      AfterRemoval(n, e, m, v);
    }
  }

  lemma NotifySteps(n: Net, c: Addr, s: Addr, keep: bool, v: Votes)
    requires n.chan(c, s) != [] && n.chan(c, s)[0] == UnlinkNotify
    ensures Step(n, Deliver(c, s, keep, v)) == Store(Pop(n, c, s), s, OnUnlinkNotify(n.actor(s), c, v))
  {
    hide Store, OnUnlinkNotify;
  }

  lemma AfterRemoval(n: Net, e: Event, m: Actor, v: Votes)
    requires Becomes(n, e, if m.life == ShuttingDown && m.shutdownRequest then ShutdownContinue(m, v) else m)
    ensures if m.shutdownRequest then Polls(n, e, m, v) else Becomes(n, e, m)
  {
    hide Becomes, ShutdownContinue, Polled;
    if m.life == ShuttingDown && m.shutdownRequest {
      ContinuePolls(n, e, m, v);
    }
  }

  /** The response to an unlink request drops the record and polls again, an error is reported to
      the supervisor that waits for the shutdown. */
  lemma UnlinkResponseDrops(n: Net, s: Addr, c: Addr, ok: bool, v: Votes)
    requires n.local(s) != [] && n.local(s)[0] == UnlinkResponse(c, ok)
    ensures var a, e := n.actor(s), DeliverResponse(s, v);
            if !ok then Becomes(n, e, a.(notes := a.notes + if a.shutdownRequest then [ShutdownFailed] else []))
            else if c !in a.clients then Becomes(n, e, a)
            else
              var m := a.(clients := a.clients - {c});
              if m.shutdownRequest then Polls(n, e, m, v) else Becomes(n, e, m)
  {
    hide Becomes, Polls, Store, PopResponse, Step, ShutdownContinue;
    var a, e := n.actor(s), DeliverResponse(s, v);
    UnlinkResponseSteps(n, s, c, ok, v);
    ResponseBecomes(n, e, OnUnlinkResponse(a, c, ok, v));
    assert a.notes + [] == a.notes;
    if ok && c in a.clients {
      AfterRemoval(n, e, a.(clients := a.clients - {c}), v);
    }
  }

  lemma ResponseBecomes(n: Net, e: Event, a: Actor)
    requires e.DeliverResponse? && n.local(e.at) != []
    requires Step(n, e) == Store(PopResponse(n, e.at), e.at, a)
    ensures Becomes(n, e, a)
  {
    hide Step, Store;
    StoreBecomes(n, e, PopResponse(n, e.at), a);
  }

  lemma UnlinkResponseSteps(n: Net, s: Addr, c: Addr, ok: bool, v: Votes)
    requires n.local(s) != [] && n.local(s)[0] == UnlinkResponse(c, ok)
    ensures Step(n, DeliverResponse(s, v)) == Store(PopResponse(n, s), s, OnUnlinkResponse(n.actor(s), c, ok, v))
  {
    hide Store, OnUnlinkResponse;
  }

  /** Every recorded server of the queue is dropped and has its unlink request answered. */
  ghost function Unlinked(a: Actor, queue: seq<Addr>): Actor {
    var left := set x | x in a.servers && x in queue;
    a.(unlinkQueue := queue, servers := a.servers - left, out := map x | x in left :: [UnlinkReply])
  }

  /** What asking to be forgotten by a client does: with clients of its own the actor only queues the
      request, otherwise it answers and drops every recorded server of the queue and shuts down. */
  ghost predicate Forgets(n: Net, e: Event, a: Actor, s: Addr, v: Votes) {
    var queue := a.unlinkQueue + [s];
    if s !in a.servers then Becomes(n, e, a)
    else if a.clients != map[] then Becomes(n, e, a.(unlinkQueue := queue))
    else
      var m := Unlinked(a, queue);
      if a.life == ShuttingDown then Polls(n, e, m, v)
      else Becomes(n, e, m.(notes := m.notes + if Quitting(a) then [] else [ShutdownTrigger]))
  }

  lemma ForgetForgets(n: Net, e: Event, a: Actor, s: Addr, v: Votes)
    requires a.out == map[] && Becomes(n, e, ForgetLink(a, s, v))
    ensures Forgets(n, e, a, s, v)
  {
    hide Becomes, Polls, Unlinked;
    if s in a.servers && a.clients == map[] {
      var queue := a.unlinkQueue + [s];
      ForgetAnswers(a, s, v);
      if a.life == ShuttingDown {
        ContinuePolls(n, e, Unlinked(a, queue), v);
      }
    }
  }

  lemma ForgetAnswers(a: Actor, s: Addr, v: Votes)
    requires a.out == map[] && s in a.servers && a.clients == map[]
    ensures var m := Unlinked(a, a.unlinkQueue + [s]);
            ForgetLink(a, s, v) ==
            if a.life == ShuttingDown then ShutdownContinue(m, v)
            else m.(notes := m.notes + if Quitting(a) then [] else [ShutdownTrigger])
  {
    hide Unlinked, AnswerUnlinks, ShutdownContinue;
    AnswersQueue(a, a.unlinkQueue + [s]);
    var m := Unlinked(a, a.unlinkQueue + [s]);
    assert m.notes + [] == m.notes;
  }

  lemma AnswersQueue(a: Actor, queue: seq<Addr>)
    requires a.out == map[]
    ensures AnswerUnlinks(a.(unlinkQueue := queue)) == Unlinked(a, queue)
    ensures Unlinked(a, queue).life == a.life && Unlinked(a, queue).unlinkQueue == queue
  {
    var left := set x | x in a.servers && x in queue;
    assert Released(a.(unlinkQueue := queue)) == left;
    PostedAll(left, UnlinkReply);
  }

  lemma PostedAll(to: set<Addr>, m: Msg)
    ensures PostAll(map[], to, m) == map x | x in to :: [m]
  {
    var r := PostAll(map[], to, m);
    assert r.Keys == to;
    forall x | x in to ensures r[x] == [m] {
      assert Box(r, x) == [m];
    }
  }

  /** An unlink request is kept back by the user's reaction, or acted on. */
  lemma UnlinkRequestForgets(n: Net, s: Addr, c: Addr, keep: bool, v: Votes)
    requires n.chan(s, c) != [] && n.chan(s, c)[0] == UnlinkRequest && n.actor(c).out == map[]
    ensures var a, e := n.actor(c), Deliver(s, c, keep, v);
            if keep then Becomes(n, e, a.(held := a.held + {s})) else Forgets(n, e, a, s, v)
  {
    hide Becomes, Store, Pop, Step, ForgetLink, Forgets;
    var a, e := n.actor(c), Deliver(s, c, keep, v);
    UnlinkRequestSteps(n, s, c, keep, v);
    PopBecomes(n, e, OnUnlinkRequest(a, s, keep, v));
    if !keep {
      ForgetForgets(n, e, a, s, v);
    }
  }

  lemma UnlinkRequestSteps(n: Net, s: Addr, c: Addr, keep: bool, v: Votes)
    requires n.chan(s, c) != [] && n.chan(s, c)[0] == UnlinkRequest
    ensures Step(n, Deliver(s, c, keep, v)) == Store(Pop(n, s, c), c, OnUnlinkRequest(n.actor(c), s, keep, v))
  {
    hide Store, OnUnlinkRequest;
  }

  /** A request kept back can be acted on later. */
  lemma HeldForgets(n: Net, c: Addr, s: Addr, v: Votes)
    requires s in n.actor(c).held && n.actor(c).out == map[]
    ensures Forgets(n, ForgetHeld(c, s, v), n.actor(c), s, v)
  {
    hide Becomes, Store, ForgetLink, Forgets;
    StoreBecomes(n, ForgetHeld(c, s, v), n, ForgetLink(n.actor(c), s, v));
    ForgetForgets(n, ForgetHeld(c, s, v), n.actor(c), s, v);
  }

  /** An initialization poll agrees when no server is LINKING, or the client half has agreed before. */
  ghost function InitPolled(a: Actor, v: Votes): Actor {
    if a.life != Initializing || !a.initRequest || !v.initBefore then a
    else if a.clientInit && exists s :: s in a.servers && a.servers[s].state == Linking then a
    else if !v.initAfter then a.(clientInit := false)
    else a.(clientInit := false, life := Initialized, initRequest := false, notes := a.notes + [InitDone])
  }

  ghost predicate Inits(n: Net, e: Event, a: Actor, v: Votes) {
    Becomes(n, e, InitPolled(a, v))
  }

  lemma ContinueInits(n: Net, e: Event, a: Actor, v: Votes)
    requires Becomes(n, e, InitContinue(a, v))
    ensures Inits(n, e, a, v)
  {
    hide Becomes;
  }

  /** A success marks the record and polls; a failure drops it and fails a pending initialization;
      an actor that has given up hearing responses does neither. */
  lemma LinkResponseRecords(n: Net, c: Addr, s: Addr, rid: nat, ok: bool, v: Votes)
    requires n.local(c) != [] && n.local(c)[0] == LinkResponse(s, rid, ok) && n.actor(c).out == map[]
    ensures var a, e := n.actor(c), DeliverResponse(c, v);
            if a.deaf || s !in a.servers then Becomes(n, e, a)
            else if ok then Inits(n, e, a.(servers := a.servers[s := ServerRec(Linked, a.servers[s].rid)]), v)
            else Becomes(n, e, a.(servers := a.servers - {s}, initRequest := false,
                                  notes := a.notes + if a.initRequest then [InitFailed] else []))
  {
    hide Becomes, Inits, Store, PopResponse, Step, InitContinue;
    var a, e := n.actor(c), DeliverResponse(c, v);
    LinkResponseSteps(n, c, s, rid, ok, v);
    if a.deaf {
      DeafBecomes(n, e);
    } else {
      ResponseBecomes(n, e, OnLinkResponse(a, s, ok, v));
      assert a.notes + [] == a.notes;
      if s in a.servers && ok {
        ContinueInits(n, e, a.(servers := a.servers[s := ServerRec(Linked, a.servers[s].rid)]), v);
      }
    }
  }

  lemma LinkResponseSteps(n: Net, c: Addr, s: Addr, rid: nat, ok: bool, v: Votes)
    requires n.local(c) != [] && n.local(c)[0] == LinkResponse(s, rid, ok)
    ensures Step(n, DeliverResponse(c, v)) ==
            if n.actor(c).deaf then PopResponse(n, c)
            else Store(PopResponse(n, c), c, OnLinkResponse(n.actor(c), s, ok, v))
  {
    hide Store, OnLinkResponse;
  }

  lemma DeafBecomes(n: Net, e: Event)
    requires e.DeliverResponse? && n.local(e.at) != [] && Step(n, e) == PopResponse(n, e.at)
    requires n.actor(e.at).out == map[]
    ensures Becomes(n, e, n.actor(e.at))
  {
    hide Step;
  }

  lemma InitPolls(n: Net, x: Addr, v: Votes)
    ensures Inits(n, PollInit(x, v), n.actor(x), v)
    ensures Inits(n, AskInit(x, v), n.actor(x).(initRequest := true), v)
  {
    hide Becomes, Inits, Store, InitContinue;
    StoreBecomes(n, PollInit(x, v), n, InitContinue(n.actor(x), v));
    StoreBecomes(n, AskInit(x, v), n, InitContinue(n.actor(x).(initRequest := true), v));
    ContinueInits(n, PollInit(x, v), n.actor(x), v);
    ContinueInits(n, AskInit(x, v), n.actor(x).(initRequest := true), v);
  }

  /** The start of an initialized actor answers every link request that was kept, once. */
  lemma StartAnswers(n: Net, s: Addr)
    requires n.actor(s).out == map[] && n.actor(s).life == Initialized
    ensures var a, e := n.actor(s), TriggerStart(s);
            && Step(n, e).actor(s) == a.(life := Operational, serverStart := false)
            && forall b :: Step(n, e).chan(s, b) == n.chan(s, b) +
                 if a.serverStart && b in a.clients && a.clients[b].state == Pending && a.clients[b].request.Some?
                 then [LinkReply(a.clients[b].request.value, true)] else []
  {
    hide Store;
    var a, e := n.actor(s), TriggerStart(s);
    StoreBecomes(n, e, n, Start(a));
  }

  /** A request to shut down, or a poll while shutting down, polls; nothing else is done. */
  lemma ShutdownPolls(n: Net, x: Addr, asked: bool, v: Votes)
    ensures var a := n.actor(x);
            && Polls(n, PollShutdown(x, v), a, v)
            && if Quitting(a) then Becomes(n, AskShutdown(x, asked, v), a)
               else Polls(n, AskShutdown(x, asked, v),
                          a.(life := ShuttingDown, shutdownRequest := a.shutdownRequest || asked), v)
  {
    hide Becomes, Polls, Store, ShutdownContinue;
    var a := n.actor(x);
    StoreBecomes(n, PollShutdown(x, v), n, ShutdownContinue(a, v));
    ContinuePolls(n, PollShutdown(x, v), a, v);
    StoreBecomes(n, AskShutdown(x, asked, v), n, BeginShutdown(a, asked, v));
    if !Quitting(a) {
      var m := a.(life := ShuttingDown, shutdownRequest := a.shutdownRequest || asked);
      ContinuePolls(n, AskShutdown(x, asked, v), m, v);
    }
  }

  /** The response that the supervisor makes of a reply or a timeout: one for a request that is
      still pending, none otherwise. */
  ghost function Outcome(n: Net, e: Event): seq<Response> {
    match e
    case Deliver(p, q, _, _) =>
      if n.chan(p, q) == [] then []
      else if n.chan(p, q)[0].LinkReply? && n.chan(p, q)[0].rid in n.actor(q).linkRequests then
        [LinkResponse(p, n.chan(p, q)[0].rid, n.chan(p, q)[0].ok)]
      else if n.chan(p, q)[0].UnlinkReply? && p in n.actor(q).unlinkRequests then [UnlinkResponse(p, true)]
      else []
    case LinkTimeout(x, rid) =>
      if rid in n.actor(x).linkRequests then [LinkResponse(n.actor(x).linkRequests[rid], rid, false)] else []
    case UnlinkTimeout(x, c) => if c in n.actor(x).unlinkRequests then [UnlinkResponse(c, false)] else []
    case _ => []
  }

  /** The event takes the first response that waits for the actor. */
  ghost predicate TakesResponse(n: Net, e: Event) {
    && n.local(At(e)) != []
    && (e.DeliverResponse? || (e.LoseResponse? && n.local(At(e))[0].UnlinkResponse? && Quitting(n.actor(At(e)))))
  }

  /** Every reply to a pending request and every timeout is passed on once, as it is, and ends the
      request. */
  lemma OutcomesArrive(n: Net, e: Event)
    ensures var was := n.local(At(e));
            Step(n, e).local(At(e)) == (if TakesResponse(n, e) then was[1..] else was) + Outcome(n, e)
    ensures n.actor(At(e)).out == map[] && Outcome(n, e) != [] ==>
              var a, r := n.actor(At(e)), Outcome(n, e)[0];
              Becomes(n, e, if r.LinkResponse? then a.(linkRequests := a.linkRequests - {r.rid})
                            else a.(unlinkRequests := a.unlinkRequests - {r.client}))
  {
    hide InitContinue, ForgetLink, Receive, ReceiveResponse, ConcludeLink, ConcludeUnlink, Start, BeginShutdown;
    hide ShutdownContinue, GiveUpHearing, Link, StartInit, Quitting, Becomes;
    match e
    case Deliver(p, q, keep, v) =>
      if n.chan(p, q) != [] { ReplyArrives(n, p, q, keep, v); }
    case DeliverResponse(x, v) =>
      if n.local(x) != [] { ResponseTakes(PopResponse(n, x), x, n.local(x)[0], v); }
    case LinkTimeout(x, rid) =>
      if rid in n.actor(x).linkRequests { LinkConcludes(n, e, n, x, n.actor(x).linkRequests[rid], rid, false); }
    case UnlinkTimeout(x, c) =>
      if c in n.actor(x).unlinkRequests { UnlinkConcludes(n, e, n, x, c, false); }
    case _ =>
  }

  lemma LinkConcludes(n: Net, e: Event, m: Net, x: Addr, server: Addr, rid: nat, ok: bool)
    requires x == At(e) && m.actor(x) == n.actor(x)
    requires forall b :: m.chan(x, b) == Remaining(n, e, x, b)
    ensures ConcludeLink(m, x, server, rid, ok).local(x) == m.local(x) + [LinkResponse(server, rid, ok)]
    ensures Step(n, e) == ConcludeLink(m, x, server, rid, ok) && n.actor(x).out == map[] ==>
              Becomes(n, e, n.actor(x).(linkRequests := n.actor(x).linkRequests - {rid}))
  {
    hide Step, Remaining;
  }

  lemma UnlinkConcludes(n: Net, e: Event, m: Net, x: Addr, client: Addr, ok: bool)
    requires x == At(e) && m.actor(x) == n.actor(x)
    requires forall b :: m.chan(x, b) == Remaining(n, e, x, b)
    ensures ConcludeUnlink(m, x, client, ok).local(x) == m.local(x) + [UnlinkResponse(client, ok)]
    ensures Step(n, e) == ConcludeUnlink(m, x, client, ok) && n.actor(x).out == map[] ==>
              Becomes(n, e, n.actor(x).(unlinkRequests := n.actor(x).unlinkRequests - {client}))
  {
    hide Step, Remaining;
  }

  lemma ReplyArrives(n: Net, p: Addr, q: Addr, keep: bool, v: Votes)
    requires n.chan(p, q) != []
    ensures var e := Deliver(p, q, keep, v);
            && Step(n, e).local(q) == n.local(q) + Outcome(n, e)
            && (n.actor(q).out == map[] && Outcome(n, e) != [] ==>
                  var a, r := n.actor(q), Outcome(n, e)[0];
                  Becomes(n, e, if r.LinkResponse? then a.(linkRequests := a.linkRequests - {r.rid})
                                else a.(unlinkRequests := a.unlinkRequests - {r.client})))
  {
    hide ConcludeLink, ConcludeUnlink, OnUnlinkRequest, OnLinkRequest, OnUnlinkNotify, Becomes;
    var e, m := Deliver(p, q, keep, v), Pop(n, p, q);
    match n.chan(p, q)[0]
    case LinkReply(rid, ok) => LinkConcludes(n, e, m, q, p, rid, ok);
    case UnlinkReply => UnlinkConcludes(n, e, m, q, p, true);
    case _ =>
  }

  lemma ResponseTakes(n: Net, x: Addr, r: Response, v: Votes)
    ensures ReceiveResponse(n, x, r, v).local(x) == n.local(x)
  {
    hide OnLinkResponse, OnUnlinkResponse;
  }

  /** The events that only switch something on. */
  lemma SwitchesOn(n: Net, x: Addr)
    ensures var a := n.actor(x);
            && Becomes(n, Boot(x), a.(life := if a.life == New then Initializing else a.life))
            && Becomes(n, GiveUp(x), a.(deaf := a.deaf || Quitting(a)))
  {
    hide Becomes, Store;
    StoreBecomes(n, Boot(x), n, StartInit(n.actor(x)));
    StoreBecomes(n, GiveUp(x), n, GiveUpHearing(n.actor(x)));
  }

  /** Events that are not enabled, and lost messages, leave every actor as it is. */
  ghost predicate Idles(n: Net, e: Event) {
    match e
    case AskLink(c, s, _) => s in n.actor(c).servers
    case Deliver(p, q, _, _) =>
      n.chan(p, q) == [] || (n.chan(p, q)[0].LinkReply? && n.chan(p, q)[0].rid !in n.actor(q).linkRequests)
      || (n.chan(p, q)[0].UnlinkReply? && p !in n.actor(q).unlinkRequests)
    case DeliverResponse(x, _) => n.local(x) == []
    case LinkTimeout(x, rid) => rid !in n.actor(x).linkRequests
    case UnlinkTimeout(x, c) => c !in n.actor(x).unlinkRequests
    case ForgetHeld(x, s, _) => s !in n.actor(x).held
    case Lose(_, _) => true
    case LoseResponse(_) => true
    case TriggerStart(x) => n.actor(x).life != Initialized
    case _ => false
  }

  lemma IdleStays(n: Net, e: Event)
    requires Idles(n, e) && n.actor(At(e)).out == map[]
    ensures Becomes(n, e, n.actor(At(e)))
  {
    hide Quitting, Receive, ReceiveResponse, ForgetLink, ConcludeLink, ConcludeUnlink, Store, Link, Becomes;
    if e.TriggerStart? {
      StoreBecomes(n, e, n, n.actor(e.at));
    } else if e.Deliver? && n.chan(e.from, e.to) != [] {
      UnknownReply(n, e);
    } else if e.Lose? || e.LoseResponse? {
      LostIsIdle(n, e);
    } else {
      NothingHappens(n, e);
    }
  }

  lemma LostIsIdle(n: Net, e: Event)
    requires (e.Lose? || e.LoseResponse?) && n.actor(At(e)).out == map[]
    ensures Becomes(n, e, n.actor(At(e)))
  {
    hide Quitting;
  }

  lemma NothingHappens(n: Net, e: Event)
    requires Step(n, e) == n && n.actor(At(e)).out == map[] && forall b :: !Takes(n, e, At(e), b)
    ensures Becomes(n, e, n.actor(At(e)))
  {
    hide Step, Takes;
  }

  lemma UnknownReply(n: Net, e: Event)
    requires e.Deliver? && n.chan(e.from, e.to) != [] && n.actor(e.to).out == map[] && Idles(n, e)
    ensures Becomes(n, e, n.actor(e.to))
  {
    hide ConcludeLink, ConcludeUnlink, Store;
    assert Step(n, e) == Pop(n, e.from, e.to);
  }
}
