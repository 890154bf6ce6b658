/** What every step of the link protocol keeps: a server that a client may come to count on has
    that client in its map, and nothing under way will remove it. */
module LinkInvariant {
  import opened LinkActor
  import opened LinkNet

  /** Once the server half has voted for shutdown there is no client. */
  ghost predicate VoteInv(a: Actor) {
    && (!a.serverShutdown ==> Rank(a.life) >= Rank(ShuttingDown) && a.clients == map[])
    && (a.life == ShutDown ==> !a.serverShutdown)
  }

  ghost predicate IdInv(a: Actor) {
    && (forall id :: id in a.linkRequests ==> id < a.nextId)
    && (forall s :: s in a.servers ==> a.servers[s].rid < a.nextId)
    && (forall id :: id in a.linkRequests && a.linkRequests[id] in a.servers ==>
          a.servers[a.linkRequests[id]].rid == id)
  }

  ghost predicate ActorInv(a: Actor) {
    a.out == map[] && VoteInv(a) && IdInv(a)
  }

  /** All that concerns client `c` and server `s`: the two actors, the channels between them
      and the responses waiting for each. */
  datatype View = View(client: Actor, server: Actor, up: seq<Msg>, down: seq<Msg>,
                       clientBox: seq<Response>, serverBox: seq<Response>)

  ghost function Between(n: Net, c: Addr, s: Addr): View {
    View(n.actor(c), n.actor(s), n.chan(c, s), n.chan(s, c), n.local(c), n.local(s))
  }

  /** An id in transit between `c` and `s` is one that `c` gave to a request to `s`. */
  ghost predicate IdOf(client: Actor, s: Addr, rid: nat) {
    rid < client.nextId && (rid in client.linkRequests ==> client.linkRequests[rid] == s)
  }

  ghost predicate PairIds(v: View, c: Addr, s: Addr) {
    && (forall m :: m in v.up && m.LinkRequest? ==> IdOf(v.client, s, m.rid))
    && (forall m :: m in v.down && m.LinkReply? ==> IdOf(v.client, s, m.rid))
    && (c in v.server.clients && v.server.clients[c].request.Some? ==>
          IdOf(v.client, s, v.server.clients[c].request.value))
  }

  /** Before a server shuts down nothing of the unlink handshake exists. */
  ghost predicate PairCalm(v: View, c: Addr, s: Addr) {
    !Quitting(v.server) ==>
      && UnlinkRequest !in v.down
      && UnlinkReply !in v.up
      && s !in v.client.unlinkQueue
      && s !in v.client.held
      && c !in v.server.unlinkRequests
      && (forall r :: r in v.serverBox && r.UnlinkResponse? ==> r.client != c)
  }

  /** The server has the client's record, and nothing under way will remove it. */
  ghost predicate Secure(v: View, c: Addr) {
    && c in v.server.clients
    && UnlinkNotify !in v.up
    && UnlinkReply !in v.up
    && UnlinkResponse(c, true) !in v.serverBox
  }

  ghost predicate NoNotifyAfter(up: seq<Msg>, rid: nat) {
    forall j, k :: 0 <= k < j < |up| && up[k].LinkRequest? && up[k].rid == rid ==> up[j] != UnlinkNotify
  }

  /** The success of a link to `s` waits for the client. */
  ghost predicate SuccessWaits(v: View, s: Addr) {
    exists r :: r in v.clientBox && r.LinkResponse? && r.server == s && r.ok
  }

  /** The heart of the protocol: whatever can make a record of `s` at `c` OPERATIONAL is secure. */
  ghost predicate PairSafe(v: View, c: Addr, s: Addr) {
    s in v.client.servers ==>
      var rid := v.client.servers[s].rid;
      && (v.client.servers[s].state == Linked ==> Secure(v, c))
      && (SuccessWaits(v, s) ==> Secure(v, c))
      && (rid in v.client.linkRequests && LinkReply(rid, true) in v.down ==> Secure(v, c))
      && (rid in v.client.linkRequests && c in v.server.clients && v.server.clients[c].request == Some(rid) ==>
            Secure(v, c))
      && NoNotifyAfter(v.up, rid)
  }

  ghost predicate Pair(v: View, c: Addr, s: Addr) {
    PairIds(v, c, s) && PairCalm(v, c, s) && PairSafe(v, c, s)
  }

  ghost predicate Inv(n: Net) {
    && (forall x :: ActorInv(n.actor(x)))
    && (forall c, s :: Pair(Between(n, c, s), c, s))
  }

  // ---------------------------------------------------------------- one actor's part of a step

  /** What every poll, and every handler once it has done its own bookkeeping, keeps. */
  ghost predicate Follows(a: Actor, a': Actor) {
    && a'.nextId == a.nextId && a'.unlinkQueue == a.unlinkQueue && a'.held == a.held
    && Rank(a.life) <= Rank(a'.life) && (a.deaf ==> a'.deaf)
    && (VoteInv(a) ==> VoteInv(a'))
    && (forall id :: id in a'.linkRequests ==> id in a.linkRequests && a'.linkRequests[id] == a.linkRequests[id])
    && (forall s :: s in a'.servers ==> s in a.servers && a'.servers[s] == a.servers[s])
    && (forall s :: s in a.servers && s !in a'.servers ==> a'.clients == map[])
    && a'.clients.Keys == a.clients.Keys
    && (forall c :: c in a.clients ==> SameClient(a.clients[c], a'.clients[c]))
    && (forall c :: c in a'.unlinkRequests ==> c in a.unlinkRequests || Rank(a'.life) >= Rank(ShuttingDown))
    && (forall b, m :: m in Box(a'.out, b) ==> m in Box(a.out, b) || MayPost(a, a', b, m))
  }

  ghost predicate SameClient(r: ClientRec, r': ClientRec) {
    r' == r || (r.state == Active && r' == r.(state := Unlinking, asked := true))
  }

  ghost predicate MayPost(a: Actor, a': Actor, b: Addr, m: Msg) {
    match m
    case LinkRequest(_, _) => false
    case UnlinkNotify => b in a.servers && b !in a'.servers
    case UnlinkReply => b in a.servers && b !in a'.servers && b in a.unlinkQueue
    case UnlinkRequest => b in a.clients && a.clients[b].state == Active && Rank(a'.life) >= Rank(ShuttingDown)
    case LinkReply(rid, ok) => b in a.clients && a.clients[b].request == Some(rid)
  }

  /** Only flags, the lifecycle state and what is told to the supervisor change. */
  ghost predicate Aside(a: Actor, a': Actor) {
    && a' == a.(life := a'.life, initRequest := a'.initRequest, shutdownRequest := a'.shutdownRequest,
                clientInit := a'.clientInit, clientShutdown := a'.clientShutdown,
                serverShutdown := a'.serverShutdown, serverStart := a'.serverStart,
                notes := a'.notes, deaf := a'.deaf)
    && Rank(a.life) <= Rank(a'.life) && (a.deaf ==> a'.deaf)
    && (VoteInv(a) ==> VoteInv(a'))
  }

  lemma AsideFollows(a: Actor, a': Actor)
    requires Aside(a, a')
    ensures Follows(a, a')
  {
    hide VoteInv, Box, MayPost;
  }

  lemma FollowsTrans(a: Actor, b: Actor, c: Actor)
    requires Follows(a, b) && Follows(b, c)
    ensures Follows(a, c)
  {
    forall x, m | m in Box(c.out, x) && m !in Box(a.out, x)
      ensures MayPost(a, c, x, m)
    {
      if m in Box(b.out, x) {
        assert MayPost(a, b, x, m);
      } else {
        assert MayPost(b, c, x, m);
      }
    }
  }

  lemma AnswerUnlinksFollows(a: Actor)
    requires a.clients == map[]
    ensures Follows(a, AnswerUnlinks(a)) && AnswerUnlinks(a).clients == map[]
  {
    hide PostAll;
  }

  lemma LeaveFollows(a: Actor)
    requires a.clients == map[]
    ensures Follows(a, Leave(a))
  {
    hide PostAll, LinkingIds;
  }

  lemma ClientHandleShutdownFollows(a: Actor)
    ensures Follows(a, ClientHandleShutdown(a))
  {
    hide Follows, AnswerUnlinks, Leave;
    if a.servers != map[] && a.clients == map[] {
      AnswerUnlinksFollows(a);
      LeaveFollows(AnswerUnlinks(a));
      FollowsTrans(a, AnswerUnlinks(a), Leave(AnswerUnlinks(a)));
    } else {
      FollowsItself(a);
    }
  }

  lemma FollowsItself(a: Actor)
    ensures Follows(a, a)
  {}

  lemma ServerHandleShutdownFollows(a: Actor)
    requires a.life == ShuttingDown
    ensures Follows(a, ServerHandleShutdown(a))
  {
    hide PostAll;
  }

  lemma ServerAgreesFollows(a: Actor)
    requires a.life == ShuttingDown && (a.serverShutdown ==> a.clients == map[])
    ensures Follows(a, a.(serverShutdown := false))
  {
    hide Follows;
    AsideFollows(a, a.(serverShutdown := false));
  }

  lemma ShutdownFinishFollows(a: Actor)
    requires a.life == ShuttingDown && !a.serverShutdown
    ensures Follows(a, ShutdownFinish(a))
  {
    hide Follows;
    AsideFollows(a, ShutdownFinish(a));
  }

  /** link_server is asked if it reacts. */
  ghost function ServerAsked(a: Actor): Actor {
    if a.serverShutdown then ServerHandleShutdown(a) else a
  }

  lemma ServerAskedFollows(a: Actor)
    requires a.life == ShuttingDown
    ensures Follows(a, ServerAsked(a)) && ServerAsked(a).life == ShuttingDown
    ensures ServerAsked(a).serverShutdown == a.serverShutdown
  {
    hide Follows;
    ServerHandleShutdownFollows(a);
    FollowsItself(a);
  }

  lemma PollFromServerFollows(a: Actor, v: Votes)
    requires a.life == ShuttingDown
    ensures Follows(a, PollFromServer(a, v))
  {
    hide Follows, ServerHandleShutdown, ShutdownFinish;
    var a1 := ServerAsked(a);
    ServerAskedFollows(a);
    if !(a.serverShutdown && a1.clients != map[]) {
      var a2 := a1.(serverShutdown := false);
      ServerAgreesFollows(a1);
      FollowsTrans(a, a1, a2);
      if v.shutdownAfter {
        ShutdownFinishFollows(a2);
        FollowsTrans(a, a2, ShutdownFinish(a2));
      }
    }
  }

  /** link_client is asked if it reacts. */
  ghost function ClientAsked(a: Actor): Actor {
    if a.clientShutdown then ClientHandleShutdown(a) else a
  }

  lemma LifeStays(a: Actor)
    ensures ClientHandleShutdown(a).life == a.life
  {
    hide PostAll, Released, LinkingIds;
  }

  lemma ClientAskedFollows(a: Actor)
    ensures Follows(a, ClientAsked(a)) && ClientAsked(a).life == a.life
  {
    hide Follows, ClientHandleShutdown;
    LifeStays(a);
    FollowsItself(a);
    if a.clientShutdown { ClientHandleShutdownFollows(a); }
  }

  lemma ShutdownContinueFollows(a: Actor, v: Votes)
    ensures Follows(a, ShutdownContinue(a, v))
  {
    hide Follows, ClientHandleShutdown, PollFromServer;
    FollowsItself(a);
    if a.life == ShuttingDown && v.shutdownBefore {
      var a1 := ClientAsked(a);
      ClientAskedFollows(a);
      if !(a.clientShutdown && a1.servers != map[]) {
        var a2 := a1.(clientShutdown := false);
        AsideFollows(a1, a2);
        FollowsTrans(a, a1, a2);
        PollFromServerFollows(a2, v);
        FollowsTrans(a, a2, PollFromServer(a2, v));
      }
    }
  }

  // ---------------------------------------------------------------- steps keep the invariant

  /** What `Follows` says of one server of the actor, and of what was posted to it. */
  ghost predicate ClientPart(a: Actor, a': Actor, s: Addr, posted: seq<Msg>) {
    && (s in a'.unlinkQueue ==> s in a.unlinkQueue)
    && (s in a'.held ==> s in a.held)
    && (UnlinkReply in posted ==> s in a.unlinkQueue)
    && ClientLinks(a, a', s, posted)
  }

  ghost predicate ClientLinks(a: Actor, a': Actor, s: Addr, posted: seq<Msg>) {
    && a'.nextId == a.nextId
    && (forall id :: id in a'.linkRequests ==> id in a.linkRequests && a'.linkRequests[id] == a.linkRequests[id])
    && (s in a'.servers ==> s in a.servers && a'.servers[s] == a.servers[s])
    && (forall m :: m in posted ==> !m.LinkRequest?)
    && (UnlinkNotify in posted ==> s !in a'.servers)
    && (UnlinkReply in posted ==> s !in a'.servers)
  }

  /** What `Follows` says of one client of the actor, and of what was posted to it. */
  ghost predicate ServerPart(a: Actor, a': Actor, c: Addr, posted: seq<Msg>) {
    && Rank(a.life) <= Rank(a'.life)
    && (c in a'.clients <==> c in a.clients)
    && (c in a.clients ==> a'.clients[c].request == a.clients[c].request)
    && (c in a'.unlinkRequests ==> c in a.unlinkRequests || Quitting(a'))
    && (UnlinkRequest in posted ==> Quitting(a'))
    && (forall m :: m in posted && m.LinkReply? ==> c in a.clients && a.clients[c].request == Some(m.rid))
  }

  lemma FollowsParts(a: Actor, a': Actor, x: Addr)
    requires a.out == map[] && Follows(a, a')
    ensures ClientPart(a, a', x, Box(a'.out, x))
    ensures ServerPart(a, a', x, Box(a'.out, x))
  {
    forall m | m in Box(a'.out, x) ensures MayPost(a, a', x, m) {}
  }

  lemma PartsKeepIds(v: View, v': View, c: Addr, s: Addr, pc: seq<Msg>, ps: seq<Msg>)
    requires PairIds(v, c, s)
    requires ClientLinks(v.client, v'.client, s, pc) && ServerPart(v.server, v'.server, c, ps)
    requires v'.up == v.up + pc && v'.down == v.down + ps
    ensures PairIds(v', c, s)
  {}

  lemma PartsKeepCalm(v: View, v': View, c: Addr, s: Addr, pc: seq<Msg>, ps: seq<Msg>)
    requires PairCalm(v, c, s)
    requires ClientPart(v.client, v'.client, s, pc) && ServerPart(v.server, v'.server, c, ps)
    requires v'.up == v.up + pc && v'.down == v.down + ps && v'.serverBox == v.serverBox
    ensures PairCalm(v', c, s)
  {}

  lemma PartsKeepSafe(v: View, v': View, c: Addr, s: Addr, pc: seq<Msg>, ps: seq<Msg>)
    requires PairSafe(v, c, s)
    requires ClientLinks(v.client, v'.client, s, pc) && ServerPart(v.server, v'.server, c, ps)
    requires v'.up == v.up + pc && v'.down == v.down + ps
    requires v'.clientBox == v.clientBox && v'.serverBox == v.serverBox
    ensures PairSafe(v', c, s)
  {
    if s in v'.client.servers {
      assert Secure(v, c) ==> Secure(v', c);
      var rid := v.client.servers[s].rid;
      assert forall i :: |v.up| <= i < |v'.up| ==> v'.up[i] in pc;
      forall j, k | 0 <= k < j < |v'.up| && v'.up[k].LinkRequest? && v'.up[k].rid == rid
        ensures v'.up[j] != UnlinkNotify
      {
      }
    }
  }

  /** How a pair sees that actor `x` was replaced. */
  ghost predicate Seen(v: View, v': View, c: Addr, s: Addr, x: Addr, a: Actor, a': Actor) {
    && (if c == x then v.client == a && v'.client == a'.(out := map[]) && v'.up == v.up + Box(a'.out, s)
        else v'.client == v.client && v'.up == v.up)
    && (if s == x then v.server == a && v'.server == a'.(out := map[]) && v'.down == v.down + Box(a'.out, c)
        else v'.server == v.server && v'.down == v.down)
    && v'.clientBox == v.clientBox && v'.serverBox == v.serverBox
  }

  /** A pair is kept if what `x` did to it, as a client and as a server, is as in a poll. */
  lemma PartsKeepPair(v: View, v': View, c: Addr, s: Addr, x: Addr, a: Actor, a': Actor)
    requires Pair(v, c, s) && Seen(v, v', c, s, x, a, a') && a.out == map[]
    requires c == x ==> ClientPart(a, a', s, Box(a'.out, s))
    requires s == x ==> ServerPart(a, a', c, Box(a'.out, c))
    ensures Pair(v', c, s)
  {
    var pc := if c == x then Box(a'.out, s) else [];
    var ps := if s == x then Box(a'.out, c) else [];
    assert ClientPart(v.client, v'.client, s, pc);
    assert ServerPart(v.server, v'.server, c, ps);
    PartsKeepIds(v, v', c, s, pc, ps);
    PartsKeepCalm(v, v', c, s, pc, ps);
    PartsKeepSafe(v, v', c, s, pc, ps);
  }

  lemma SeenKeepsPair(v: View, v': View, c: Addr, s: Addr, x: Addr, a: Actor, a': Actor)
    requires Pair(v, c, s) && Seen(v, v', c, s, x, a, a')
    requires a.out == map[] && Follows(a, a')
    ensures Pair(v', c, s)
  {
    FollowsParts(a, a', s);
    FollowsParts(a, a', c);
    PartsKeepPair(v, v', c, s, x, a, a');
  }

  lemma StoreSeen(n: Net, x: Addr, a': Actor, c: Addr, s: Addr)
    ensures Seen(Between(n, c, s), Between(Store(n, x, a'), c, s), c, s, x, n.actor(x), a')
  {}

  lemma FollowsActorInv(a: Actor, a': Actor)
    requires ActorInv(a) && Follows(a, a')
    ensures ActorInv(a'.(out := map[]))
  {}

  /** What the invariant says of two actors. */
  lemma InvAt(n: Net, c: Addr, s: Addr)
    requires Inv(n)
    ensures ActorInv(n.actor(c)) && ActorInv(n.actor(s)) && n.actor(c).out == map[] && n.actor(s).out == map[]
    ensures Pair(Between(n, c, s), c, s)
  {}

  lemma StoreFollows(n: Net, x: Addr, a': Actor)
    requires Inv(n) && Follows(n.actor(x), a')
    ensures Inv(Store(n, x, a'))
  {
    var n' := Store(n, x, a');
    assert ActorInv(n.actor(x));
    forall y ensures ActorInv(n'.actor(y)) {
      if y == x {
        FollowsActorInv(n.actor(x), a');
      } else {
        assert ActorInv(n.actor(y));
      }
    }
    forall c, s ensures Pair(Between(n', c, s), c, s) {
      assert Pair(Between(n, c, s), c, s);
      StoreSeen(n, x, a', c, s);
      SeenKeepsPair(Between(n, c, s), Between(n', c, s), c, s, x, n.actor(x), a');
    }
  }

  // Taking a message out of a queue

  lemma PopUpKeepsPair(v: View, c: Addr, s: Addr)
    requires Pair(v, c, s) && v.up != []
    ensures Pair(v.(up := v.up[1..]), c, s)
  {
    var v' := v.(up := v.up[1..]);
    assert forall m :: m in v'.up ==> m in v.up;
    assert Secure(v, c) ==> Secure(v', c);
    forall rid, j, k | 0 <= k < j < |v'.up| && v'.up[k].LinkRequest? && v'.up[k].rid == rid && NoNotifyAfter(v.up, rid)
      ensures v'.up[j] != UnlinkNotify
    {
      assert v'.up[j] == v.up[j + 1] && v'.up[k] == v.up[k + 1];
    }
  }

  lemma PopDownKeepsPair(v: View, c: Addr, s: Addr)
    requires Pair(v, c, s) && v.down != []
    ensures Pair(v.(down := v.down[1..]), c, s)
  {
    assert forall m :: m in v.down[1..] ==> m in v.down;
  }

  lemma PopKeeps(n: Net, p: Addr, q: Addr)
    requires Inv(n) && n.chan(p, q) != []
    ensures Inv(Pop(n, p, q))
  {
    var n' := Pop(n, p, q);
    assert forall x :: n'.actor(x) == n.actor(x);
    forall x ensures ActorInv(n'.actor(x)) {
      assert ActorInv(n.actor(x));
    }
    forall c, s ensures Pair(Between(n', c, s), c, s) {
      var v := Between(n, c, s);
      var v1 := if p == c && q == s then v.(up := v.up[1..]) else v;
      var v2 := if p == s && q == c then v1.(down := v1.down[1..]) else v1;
      assert Pair(v, c, s);
      if p == c && q == s {
        PopUpKeepsPair(v, c, s);
      }
      if p == s && q == c {
        PopDownKeepsPair(v1, c, s);
      }
      assert Between(n', c, s) == v2;
    }
  }

  lemma PopResponseKeeps(n: Net, x: Addr)
    requires Inv(n) && n.local(x) != []
    ensures Inv(PopResponse(n, x))
  {
    var n' := PopResponse(n, x);
    forall y ensures ActorInv(n'.actor(y)) {
      assert ActorInv(n.actor(y));
    }
    forall c, s ensures Pair(Between(n', c, s), c, s) {
      var v, v' := Between(n, c, s), Between(n', c, s);
      assert Pair(v, c, s);
      assert forall r :: r in v'.clientBox ==> r in v.clientBox;
      assert forall r :: r in v'.serverBox ==> r in v.serverBox;
      assert SuccessWaits(v', s) ==> SuccessWaits(v, s);
      assert Secure(v, c) ==> Secure(v', c);
    }
  }

  // The bookkeeping a handler does before it polls

  /** All that answering a link request may do. */
  ghost predicate Answers(a: Actor, a': Actor, p: Addr, rid: nat) {
    && a' == a.(clients := a'.clients, serverStart := a'.serverStart, out := a'.out)
    && (p in a.clients ==> a'.clients == a.clients)
    && (forall x :: x != p ==> (x in a'.clients <==> x in a.clients))
    && (forall x :: x != p && x in a.clients ==> a'.clients[x] == a.clients[x])
    && (p in a'.clients && p !in a.clients ==> !Quitting(a) && a'.clients[p].request in {None, Some(rid)})
    && (forall x :: x != p ==> Box(a'.out, x) == [])
    && (forall m :: m in Box(a'.out, p) ==>
          m.LinkReply? && m.rid == rid && (m.ok ==> !Quitting(a) && p !in a.clients && p in a'.clients))
  }

  lemma RefuseAnswers(a: Actor, p: Addr, rid: nat)
    requires a.out == map[]
    ensures Answers(a, Refuse(a, p, rid), p, rid)
  {}

  lemma PostponeAnswers(a: Actor, p: Addr, rid: nat)
    requires a.out == map[] && p !in a.clients && !Quitting(a)
    ensures Answers(a, Postpone(a, p, rid), p, rid)
  {}

  lemma AcceptAnswers(a: Actor, p: Addr, rid: nat)
    requires a.out == map[] && p !in a.clients && !Quitting(a)
    ensures Answers(a, Accept(a, p, rid), p, rid)
  {}

  lemma OnLinkRequestAnswers(a: Actor, p: Addr, rid: nat, oo: bool)
    requires a.out == map[]
    ensures Answers(a, OnLinkRequest(a, p, rid, oo), p, rid)
  {
    RefuseAnswers(a, p, rid);
    if p !in a.clients && !Quitting(a) {
      PostponeAnswers(a, p, rid);
      AcceptAnswers(a, p, rid);
    }
  }

  /** The pair of the client that asked and the server that was asked. */
  lemma AnswerKeepsOwnPair(v: View, v': View, c: Addr, s: Addr, a: Actor, a': Actor, rid: nat)
    requires Pair(v, c, s) && Seen(v, v', c, s, s, a, a') && Answers(a, a', c, rid)
    requires Asking(v, c, s, rid)
    ensures Pair(v', c, s)
  {
    var pc, ps := if c == s then Box(a'.out, s) else [], Box(a'.out, c);
    assert v'.up == v.up + pc && v'.down == v.down + ps;
    assert PairIds(v', c, s);
    assert PairCalm(v', c, s);
    assert Secure(v, c) ==> Secure(v', c);
    if s in v'.client.servers {
      NoNotifyAppended(v.up, pc, v.client.servers[s].rid);
    }
  }

  lemma NoNotifyAppended(up: seq<Msg>, more: seq<Msg>, rid: nat)
    requires NoNotifyAfter(up, rid)
    requires UnlinkNotify !in more
    ensures NoNotifyAfter(up + more, rid)
  {
    assert forall i :: |up| <= i < |up + more| ==> (up + more)[i] in more;
  }

  lemma AnswerKeepsPair(v: View, v': View, c: Addr, s: Addr, p: Addr, q: Addr, a: Actor, a': Actor, rid: nat)
    requires Pair(v, c, s) && a.out == map[] && Seen(v, v', c, s, q, a, a') && Answers(a, a', p, rid)
    requires c == p && s == q ==> Asking(v, c, s, rid)
    ensures Pair(v', c, s)
  {
    hide Pair;
    if c == p && s == q {
      AnswerKeepsOwnPair(v, v', c, s, a, a', rid);
    } else {
      PartsKeepPair(v, v', c, s, q, a, a');
    }
  }

  /** An id that `c` asked `s` with: no notification follows if it is that of the record. */
  ghost predicate Asking(v: View, c: Addr, s: Addr, rid: nat) {
    && IdOf(v.client, s, rid)
    && (s in v.client.servers && v.client.servers[s].rid == rid ==> UnlinkNotify !in v.up)
  }

  lemma AnswerActorInv(a: Actor, a': Actor, p: Addr, rid: nat)
    requires ActorInv(a) && Answers(a, a', p, rid)
    ensures ActorInv(a'.(out := map[]))
  {
    if !a.serverShutdown {
      assert forall x :: x !in a'.clients;
      assert a'.clients == map[];
    }
  }

  lemma AnswerKeeps(n: Net, p: Addr, q: Addr, rid: nat, a': Actor)
    requires Inv(n) && n.actor(q).out == map[] && Answers(n.actor(q), a', p, rid)
    requires Asking(Between(n, p, q), p, q, rid)
    ensures Inv(Store(n, q, a'))
  {
    hide ActorInv, Pair, Seen, Answers, Asking;
    var n' := Store(n, q, a');
    AnswerActorInv(n.actor(q), a', p, rid);
    forall c, s ensures Pair(Between(n', c, s), c, s) {
      assert Pair(Between(n, c, s), c, s);
      StoreSeen(n, q, a', c, s);
      AnswerKeepsPair(Between(n, c, s), Between(n', c, s), c, s, p, q, n.actor(q), a', rid);
    }
  }

  lemma RequestArrives(n: Net, p: Addr, q: Addr, rid: nat, oo: bool)
    requires Pair(Between(n, p, q), p, q) && n.chan(p, q) != [] && n.chan(p, q)[0] == LinkRequest(rid, oo)
    ensures Asking(Between(Pop(n, p, q), p, q), p, q, rid)
  {
    hide PairCalm, Secure;
    assert n.chan(p, q)[0] in n.chan(p, q);
  }

  lemma LinkRequestKeeps(n: Net, p: Addr, q: Addr, rid: nat, oo: bool)
    requires Inv(n) && n.chan(p, q) != [] && n.chan(p, q)[0] == LinkRequest(rid, oo)
    ensures Inv(Store(Pop(n, p, q), q, OnLinkRequest(n.actor(q), p, rid, oo)))
  {
    hide Inv, ActorInv, OnLinkRequest, Answers, Asking;
    PopKeeps(n, p, q);
    InvAt(n, p, q);
    RequestArrives(n, p, q, rid, oo);
    OnLinkRequestAnswers(n.actor(q), p, rid, oo);
    AnswerKeeps(Pop(n, p, q), p, q, rid, OnLinkRequest(n.actor(q), p, rid, oo));
  }

  /** Nothing that could make or keep a record OPERATIONAL relies on the server's record. */
  ghost predicate Idle(v: View, c: Addr, s: Addr) {
    s in v.client.servers ==>
      var rid := v.client.servers[s].rid;
      && v.client.servers[s].state != Linked
      && !SuccessWaits(v, s)
      && !(rid in v.client.linkRequests && LinkReply(rid, true) in v.down)
      && !(rid in v.client.linkRequests && c in v.server.clients && v.server.clients[c].request == Some(rid))
  }

  /** Server `q` forgets client `p`. */
  ghost predicate Forgets(a: Actor, a': Actor, p: Addr) {
    && a' == a.(clients := a.clients - {p}, unlinkRequests := a'.unlinkRequests)
    && a'.unlinkRequests <= a.unlinkRequests
  }

  lemma ForgetKeepsIds(v: View, v': View, c: Addr, s: Addr, a: Actor, a': Actor)
    requires PairIds(v, c, s) && a.out == map[] && Seen(v, v', c, s, s, a, a') && Forgets(a, a', c)
    ensures PairIds(v', c, s)
  {
    assert v'.up == v.up && v'.down == v.down;
  }

  lemma ForgetKeepsCalm(v: View, v': View, c: Addr, s: Addr, a: Actor, a': Actor)
    requires PairCalm(v, c, s) && a.out == map[] && Seen(v, v', c, s, s, a, a') && Forgets(a, a', c)
    ensures PairCalm(v', c, s)
  {
    assert v'.up == v.up && v'.down == v.down;
  }

  lemma ForgetKeepsSafe(v: View, v': View, c: Addr, s: Addr, a: Actor, a': Actor)
    requires PairSafe(v, c, s) && a.out == map[] && Seen(v, v', c, s, s, a, a') && Forgets(a, a', c) && Idle(v, c, s)
    ensures PairSafe(v', c, s)
  {
    hide Secure, NoNotifyAfter;
    assert v'.up == v.up && v'.down == v.down;
  }

  lemma ForgetKeepsOwnPair(v: View, v': View, c: Addr, s: Addr, a: Actor, a': Actor)
    requires Pair(v, c, s) && a.out == map[] && Seen(v, v', c, s, s, a, a') && Forgets(a, a', c) && Idle(v, c, s)
    ensures Pair(v', c, s)
  {
    hide PairIds, PairCalm, PairSafe;
    ForgetKeepsIds(v, v', c, s, a, a');
    ForgetKeepsCalm(v, v', c, s, a, a');
    ForgetKeepsSafe(v, v', c, s, a, a');
  }

  lemma ForgetKeepsPair(v: View, v': View, c: Addr, s: Addr, p: Addr, q: Addr, a: Actor, a': Actor)
    requires Pair(v, c, s) && a.out == map[] && Seen(v, v', c, s, q, a, a') && Forgets(a, a', p)
    requires c == p && s == q ==> Idle(v, c, s)
    ensures Pair(v', c, s)
  {
    hide Pair;
    if c == p && s == q {
      ForgetKeepsOwnPair(v, v', c, s, a, a');
    } else {
      PartsKeepPair(v, v', c, s, q, a, a');
    }
  }

  lemma ForgetActorInv(a: Actor, a': Actor, p: Addr)
    requires ActorInv(a) && Forgets(a, a', p)
    ensures ActorInv(a'.(out := map[]))
  {}

  lemma ForgetKeeps(n: Net, p: Addr, q: Addr, a': Actor)
    requires Inv(n) && p in n.actor(q).clients && Forgets(n.actor(q), a', p) && Idle(Between(n, p, q), p, q)
    ensures Inv(Store(n, q, a'))
  {
    hide ActorInv, Pair, Seen, Idle, Forgets;
    var n' := Store(n, q, a');
    InvAt(n, p, q);
    ForgetActorInv(n.actor(q), a', p);
    forall c, s ensures Pair(Between(n', c, s), c, s) {
      assert Pair(Between(n, c, s), c, s);
      StoreSeen(n, q, a', c, s);
      ForgetKeepsPair(Between(n, c, s), Between(n', c, s), c, s, p, q, n.actor(q), a');
    }
  }

  ghost predicate Same(n: Net, n': Net) {
    && (forall x :: n.actor(x) == n'.actor(x))
    && (forall c, s :: Between(n, c, s) == Between(n', c, s))
  }

  lemma SameInv(n: Net, n': Net)
    requires Inv(n) && Same(n, n')
    ensures Inv(n')
  {
    forall x ensures ActorInv(n'.actor(x)) {
      assert ActorInv(n.actor(x));
    }
    forall c, s ensures Pair(Between(n', c, s), c, s) {
      assert Pair(Between(n, c, s), c, s);
    }
  }

  lemma StoreTwice(n: Net, x: Addr, mid: Actor, a': Actor)
    requires mid.out == map[]
    ensures Same(Store(Store(n, x, mid), x, a'), Store(n, x, a'))
  {
    var n1, n2 := Store(Store(n, x, mid), x, a'), Store(n, x, a');
    forall c, s ensures Between(n1, c, s) == Between(n2, c, s) {
      assert n.chan(c, s) + [] == n.chan(c, s) && n.chan(s, c) + [] == n.chan(s, c);
    }
  }

  /** A handler's bookkeeping `mid`, and what follows it, stored at once. */
  lemma StoreVia(n: Net, x: Addr, mid: Actor, a': Actor)
    requires Inv(Store(n, x, mid)) && mid.out == map[] && Follows(mid, a')
    ensures Inv(Store(n, x, a'))
  {
    var n1 := Store(n, x, mid);
    assert n1.actor(x) == mid;
    StoreFollows(n1, x, a');
    StoreTwice(n, x, mid, a');
    SameInv(Store(n1, x, a'), Store(n, x, a'));
  }

  lemma NotifiedIsIdle(n: Net, p: Addr, q: Addr)
    requires Pair(Between(n, p, q), p, q) && n.chan(p, q) != [] && n.chan(p, q)[0] == UnlinkNotify
    ensures Idle(Between(Pop(n, p, q), p, q), p, q)
  {
    hide PairIds, PairCalm;
    assert n.chan(p, q)[0] in n.chan(p, q);
    assert !Secure(Between(n, p, q), p);
    assert forall m :: m in Pop(n, p, q).chan(q, p) ==> m in n.chan(q, p);
  }

  lemma NotifiedFollows(a: Actor, p: Addr, v: Votes)
    requires p in a.clients
    ensures Follows(RemoveClient(a, p), OnUnlinkNotify(a, p, v))
  {
    hide Follows, ShutdownContinue;
    FollowsItself(RemoveClient(a, p));
    ShutdownContinueFollows(RemoveClient(a, p), v);
  }

  lemma UnknownClientNotifies(a: Actor, p: Addr, v: Votes)
    requires p !in a.clients
    ensures OnUnlinkNotify(a, p, v) == a
  {}

  lemma UnlinkNotifyKeeps(n: Net, p: Addr, q: Addr, v: Votes)
    requires Inv(n) && n.chan(p, q) != [] && n.chan(p, q)[0] == UnlinkNotify
    ensures Inv(Store(Pop(n, p, q), q, OnUnlinkNotify(n.actor(q), p, v)))
  {
    hide Inv, ActorInv, Pair, Idle, Follows, OnUnlinkNotify, Store;
    var n1, a := Pop(n, p, q), n.actor(q);
    PopKeeps(n, p, q);
    InvAt(n, p, q);
    if p in a.clients {
      var mid := RemoveClient(a, p);
      NotifiedIsIdle(n, p, q);
      ForgetKeeps(n1, p, q, mid);
      NotifiedFollows(a, p, v);
      StoreVia(n1, q, mid, OnUnlinkNotify(a, p, v));
    } else {
      FollowsItself(a);
      StoreFollows(n1, q, a);
      UnknownClientNotifies(a, p, v);
    }
  }

  /** The server of the pair is shutting down, so nothing is said of calm. */
  lemma UnlinkRequestOwnPair(v: View, v': View, c: Addr, s: Addr, q: Addr, a: Actor, a': Actor)
    requires Pair(v, c, s) && a.out == map[] && Seen(v, v', c, s, q, a, a')
    requires a' == a.(unlinkQueue := a'.unlinkQueue, held := a'.held)
    requires c == q && Quitting(v.server)
    ensures Pair(v', c, s)
  {
    hide PairCalm, PairIds, PairSafe;
    var ps := if s == q then Box(a'.out, c) else [];
    PartsKeepIds(v, v', c, s, Box(a'.out, s), ps);
    PartsKeepSafe(v, v', c, s, Box(a'.out, s), ps);
    CalmWhenQuitting(v', c, s);
  }

  lemma CalmWhenQuitting(v: View, c: Addr, s: Addr)
    requires Quitting(v.server)
    ensures PairCalm(v, c, s)
  {}

  /** An unlink request from `p` is kept by the user or queued. */
  ghost predicate Queues(a: Actor, a': Actor, p: Addr) {
    && a' == a.(unlinkQueue := a'.unlinkQueue, held := a'.held)
    && (forall x :: x != p ==> (x in a'.unlinkQueue ==> x in a.unlinkQueue) && (x in a'.held ==> x in a.held))
  }

  lemma UnlinkRequestPair(v: View, v': View, c: Addr, s: Addr, p: Addr, q: Addr, a: Actor, a': Actor)
    requires Pair(v, c, s) && a.out == map[] && Seen(v, v', c, s, q, a, a')
    requires Queues(a, a', p)
    requires c == q && s == p ==> Quitting(v.server)
    ensures Pair(v', c, s)
  {
    hide Pair, PairCalm, PairIds, PairSafe;
    if c == q && s == p {
      UnlinkRequestOwnPair(v, v', c, s, q, a, a');
    } else {
      PartsKeepPair(v, v', c, s, q, a, a');
    }
  }

  lemma QueueActorInv(a: Actor, a': Actor, p: Addr)
    requires ActorInv(a) && Queues(a, a', p)
    ensures ActorInv(a'.(out := map[]))
  {}

  lemma QueueKeeps(n: Net, p: Addr, q: Addr, a': Actor)
    requires Inv(n) && Quitting(n.actor(p))
    requires Queues(n.actor(q), a', p)
    ensures Inv(Store(n, q, a'))
  {
    hide ActorInv, Pair, Seen, Quitting, Queues;
    var n' := Store(n, q, a');
    InvAt(n, p, q);
    QueueActorInv(n.actor(q), a', p);
    forall c, s ensures Pair(Between(n', c, s), c, s) {
      assert Pair(Between(n, c, s), c, s);
      StoreSeen(n, q, a', c, s);
      UnlinkRequestPair(Between(n, c, s), Between(n', c, s), c, s, p, q, n.actor(q), a');
    }
  }

  lemma TryForgetFollows(a: Actor, v: Votes)
    ensures Follows(a, TryForgetLinksAndShutdown(a, v))
  {
    if a.clients == map[] {
      var a1 := AnswerUnlinks(a);
      AnswerUnlinksFollows(a);
      ShutdownContinueFollows(a1, v);
      FollowsTrans(a, a1, TryForgetLinksAndShutdown(a, v));
    }
  }

  lemma ForgetLinkKeeps(n: Net, p: Addr, q: Addr, v: Votes)
    requires Inv(n) && Quitting(n.actor(p))
    ensures Inv(Store(n, q, ForgetLink(n.actor(q), p, v)))
  {
    var a := n.actor(q);
    assert ActorInv(a);
    if p in a.servers {
      var mid := a.(unlinkQueue := a.unlinkQueue + [p]);
      QueueKeeps(n, p, q, mid);
      TryForgetFollows(mid, v);
      StoreVia(n, q, mid, ForgetLink(a, p, v));
    } else {
      StoreFollows(n, q, a);
    }
  }

  lemma UnlinkRequestKeeps(n: Net, p: Addr, q: Addr, keep: bool, v: Votes)
    requires Inv(n) && n.chan(p, q) != [] && n.chan(p, q)[0] == UnlinkRequest
    ensures Inv(Store(Pop(n, p, q), q, OnUnlinkRequest(n.actor(q), p, keep, v)))
  {
    PopKeeps(n, p, q);
    assert Pair(Between(n, q, p), q, p);
    var n1 := Pop(n, p, q);
    assert Quitting(n1.actor(p));
    if keep {
      QueueKeeps(n1, p, q, n1.actor(q).(held := n1.actor(q).held + {p}));
    } else {
      ForgetLinkKeeps(n1, p, q, v);
    }
  }

  // Outcomes of requests

  lemma StoreSilent(n: Net, x: Addr, a': Actor, c: Addr, s: Addr)
    requires a'.out == map[]
    ensures var v, v' := Between(n, c, s), Between(Store(n, x, a'), c, s);
            && v'.up == v.up && v'.down == v.down
            && v'.clientBox == v.clientBox && v'.serverBox == v.serverBox
  {
    var v := Between(n, c, s);
    assert v.up + [] == v.up && v.down + [] == v.down;
  }

  lemma PushSeen(n: Net, x: Addr, r: Response, c: Addr, s: Addr)
    ensures var v := Between(n, c, s);
            Between(PushResponse(n, x, r), c, s) ==
            v.(clientBox := if c == x then v.clientBox + [r] else v.clientBox,
               serverBox := if s == x then v.serverBox + [r] else v.serverBox)
  {}

  lemma ConcludeLinkPair(n: Net, q: Addr, server: Addr, rid: nat, ok: bool, c: Addr, s: Addr)
    requires ActorInv(n.actor(q)) && Pair(Between(n, c, s), c, s)
    requires c == q && s == server && ok && s in n.actor(q).servers ==> Secure(Between(n, c, s), c)
    ensures Pair(Between(ConcludeLink(n, q, server, rid, ok), c, s), c, s)
  {
    hide Pair, Seen, PushResponse;
    var a' := n.actor(q).(linkRequests := n.actor(q).linkRequests - {rid});
    var n1 := Store(n, q, a');
    StoreSeen(n, q, a', c, s);
    var v, v1 := Between(n, c, s), Between(n1, c, s);
    PartsKeepPair(v, v1, c, s, q, n.actor(q), a');
    var v' := Between(ConcludeLink(n, q, server, rid, ok), c, s);
    StoreSilent(n, q, a', c, s);
    PushSeen(n1, q, LinkResponse(server, rid, ok), c, s);
    ResponsePair(v1, v', c, s, LinkResponse(server, rid, ok), c == q, s == q);
  }

  /** A response enters the queue of the client, of the server, or of both. */
  lemma ResponsePair(v: View, v': View, c: Addr, s: Addr, r: Response, atClient: bool, atServer: bool)
    requires Pair(v, c, s)
    requires v' == v.(clientBox := if atClient then v.clientBox + [r] else v.clientBox,
                      serverBox := if atServer then v.serverBox + [r] else v.serverBox)
    requires atClient && r.LinkResponse? && r.server == s && r.ok && s in v.client.servers ==> Secure(v, c)
    requires atServer && r.UnlinkResponse? && r.client == c ==> Quitting(v.server) && (r.ok ==> Idle(v, c, s))
    ensures Pair(v', c, s)
  {
    assert PairIds(v', c, s) && PairCalm(v', c, s);
    if s in v'.client.servers {
      assert SuccessWaits(v', s) ==> SuccessWaits(v, s) || Secure(v, c);
      assert Secure(v, c) && !(atServer && r == UnlinkResponse(c, true)) ==> Secure(v', c);
    }
  }

  lemma ConcludeLinkKeeps(n: Net, q: Addr, server: Addr, rid: nat, ok: bool)
    requires Inv(n)
    requires ok && server in n.actor(q).servers ==> Secure(Between(n, q, server), q)
    ensures Inv(ConcludeLink(n, q, server, rid, ok))
  {
    var n' := ConcludeLink(n, q, server, rid, ok);
    assert ActorInv(n.actor(q));
    forall x ensures ActorInv(n'.actor(x)) {
      assert ActorInv(n.actor(x));
    }
    forall c, s ensures Pair(Between(n', c, s), c, s) {
      assert Pair(Between(n, c, s), c, s);
      ConcludeLinkPair(n, q, server, rid, ok, c, s);
    }
  }

  lemma LinkReplyKeeps(n: Net, p: Addr, q: Addr, rid: nat, ok: bool)
    requires Inv(n) && n.chan(p, q) != [] && n.chan(p, q)[0] == LinkReply(rid, ok)
    requires rid in n.actor(q).linkRequests
    ensures Inv(ConcludeLink(Pop(n, p, q), q, p, rid, ok))
  {
    PopKeeps(n, p, q);
    var v := Between(n, q, p);
    assert Pair(v, q, p) && ActorInv(n.actor(q));
    assert LinkReply(rid, ok) in v.down && IdOf(v.client, p, rid);
    if ok && p in n.actor(q).servers {
      assert v.client.servers[p].rid == rid;
      assert Secure(v, q);
      assert forall m :: m in v.up[if v.up == [] then 0 else 1..] ==> m in v.up;
      assert Secure(Between(Pop(n, p, q), q, p), q);
    }
    ConcludeLinkKeeps(Pop(n, p, q), q, p, rid, ok);
  }

  lemma StillIdle(v: View, v': View, c: Addr, s: Addr)
    requires Idle(v, c, s) && v'.down == v.down && v'.clientBox == v.clientBox
    requires v'.client.servers == v.client.servers && v'.client.linkRequests == v.client.linkRequests
    requires v'.server.clients == v.server.clients
    ensures Idle(v', c, s)
  {}

  lemma AskedQuits(v: View, c: Addr, s: Addr)
    requires Pair(v, c, s) && c in v.server.unlinkRequests
    ensures Quitting(v.server)
  {}

  lemma WithdrawnParts(a: Actor, client: Addr, c: Addr, s: Addr)
    requires a.out == map[]
    ensures var a' := a.(unlinkRequests := a.unlinkRequests - {client});
            ClientPart(a, a', s, Box(a'.out, s)) && ServerPart(a, a', c, Box(a'.out, c))
  {}

  lemma Withdrawn(n: Net, q: Addr, client: Addr, y: Addr)
    ensures var a' := n.actor(q).(unlinkRequests := n.actor(q).unlinkRequests - {client});
            var a, a1 := n.actor(y), Store(n, q, a').actor(y);
            && a1.servers == a.servers && a1.linkRequests == a.linkRequests
            && a1.clients == a.clients && a1.life == a.life
  {
    if y == q {
    } else {
    }
  }

  lemma InvOut(a: Actor)
    requires ActorInv(a)
    ensures a.out == map[]
  {}

  lemma WithdrawnKeepsPair(n: Net, q: Addr, client: Addr, c: Addr, s: Addr)
    requires n.actor(q).out == map[] && Pair(Between(n, c, s), c, s)
    ensures var a' := n.actor(q).(unlinkRequests := n.actor(q).unlinkRequests - {client});
            Pair(Between(Store(n, q, a'), c, s), c, s)
  {
    hide Pair, Seen, ClientPart, ServerPart, Store;
    var a' := n.actor(q).(unlinkRequests := n.actor(q).unlinkRequests - {client});
    StoreSeen(n, q, a', c, s);
    WithdrawnParts(n.actor(q), client, c, s);
    PartsKeepPair(Between(n, c, s), Between(Store(n, q, a'), c, s), c, s, q, n.actor(q), a');
  }

  lemma ConcludeUnlinkPair(n: Net, q: Addr, client: Addr, ok: bool, c: Addr, s: Addr)
    requires ActorInv(n.actor(q)) && Pair(Between(n, c, s), c, s)
    requires client in n.actor(q).unlinkRequests
    requires c == client && s == q && ok ==> Idle(Between(n, c, s), c, s)
    ensures Pair(Between(ConcludeUnlink(n, q, client, ok), c, s), c, s)
  {
    hide Pair, Idle, Store, PushResponse, ActorInv;
    InvOut(n.actor(q));
    var a' := n.actor(q).(unlinkRequests := n.actor(q).unlinkRequests - {client});
    var v, v1 := Between(n, c, s), Between(Store(n, q, a'), c, s);
    WithdrawnKeepsPair(n, q, client, c, s);
    Withdrawn(n, q, client, c);
    Withdrawn(n, q, client, s);
    if c == client && s == q {
      AskedQuits(v, c, s);
      if ok {
        StoreSilent(n, q, a', c, s);
        StillIdle(v, v1, c, s);
      }
    }
    PushSeen(Store(n, q, a'), q, UnlinkResponse(client, ok), c, s);
    ResponsePair(v1, Between(ConcludeUnlink(n, q, client, ok), c, s), c, s, UnlinkResponse(client, ok), c == q, s == q);
  }

  lemma ConcludeUnlinkKeeps(n: Net, q: Addr, client: Addr, ok: bool)
    requires Inv(n) && client in n.actor(q).unlinkRequests
    requires ok ==> Idle(Between(n, client, q), client, q)
    ensures Inv(ConcludeUnlink(n, q, client, ok))
  {
    var n' := ConcludeUnlink(n, q, client, ok);
    assert ActorInv(n.actor(q));
    forall x ensures ActorInv(n'.actor(x)) {
      assert ActorInv(n.actor(x));
    }
    forall c, s ensures Pair(Between(n', c, s), c, s) {
      assert Pair(Between(n, c, s), c, s);
      ConcludeUnlinkPair(n, q, client, ok, c, s);
    }
  }

  lemma UnlinkReplyKeeps(n: Net, p: Addr, q: Addr)
    requires Inv(n) && n.chan(p, q) != [] && n.chan(p, q)[0] == UnlinkReply
    requires p in n.actor(q).unlinkRequests
    ensures Inv(ConcludeUnlink(Pop(n, p, q), q, p, true))
  {
    PopKeeps(n, p, q);
    var v := Between(n, p, q);
    assert Pair(v, p, q);
    assert !Secure(v, p);
    assert Idle(Between(Pop(n, p, q), p, q), p, q);
    ConcludeUnlinkKeeps(Pop(n, p, q), q, p, true);
  }

  // Responses

  /** The client's record of `server` is erased or marked OPERATIONAL. */
  ghost predicate Records(a: Actor, a': Actor, server: Addr) {
    && a' == a.(servers := a'.servers)
    && (forall x :: x in a'.servers ==> x in a.servers && a'.servers[x].rid == a.servers[x].rid)
    && (forall x :: x != server && x in a'.servers ==> a'.servers[x] == a.servers[x])
  }

  lemma RecordOwnPair(v: View, v': View, c: Addr, s: Addr, a: Actor, a': Actor)
    requires Pair(v, c, s) && a.out == map[] && Seen(v, v', c, s, c, a, a') && Records(a, a', s)
    requires s in a'.servers ==> Secure(v, c)
    ensures Pair(v', c, s)
  {
    assert v'.up == v.up && v'.down == v.down;
    assert PairIds(v', c, s) && PairCalm(v', c, s);
    assert Secure(v, c) ==> Secure(v', c);
  }

  lemma RecordPair(v: View, v': View, c: Addr, s: Addr, q: Addr, server: Addr, a: Actor, a': Actor)
    requires Pair(v, c, s) && a.out == map[] && Seen(v, v', c, s, q, a, a') && Records(a, a', server)
    requires c == q && s == server && s in a'.servers ==> Secure(v, c)
    ensures Pair(v', c, s)
  {
    if c == q && s == server {
      RecordOwnPair(v, v', c, s, a, a');
    } else {
      PartsKeepPair(v, v', c, s, q, a, a');
    }
  }

  lemma RecordActorInv(a: Actor, a': Actor, server: Addr)
    requires ActorInv(a) && Records(a, a', server)
    ensures ActorInv(a'.(out := map[]))
  {
    forall id | id in a'.linkRequests && a'.linkRequests[id] in a'.servers
      ensures a'.servers[a'.linkRequests[id]].rid == id
    {
      var server' := a'.linkRequests[id];
      assert server' in a'.servers && server' in a.servers;
    }
  }

  lemma RecordKeeps(n: Net, q: Addr, server: Addr, a': Actor)
    requires Inv(n) && Records(n.actor(q), a', server)
    requires server in a'.servers ==> Secure(Between(n, q, server), q)
    ensures Inv(Store(n, q, a'))
  {
    hide ActorInv, Pair, Seen, Secure, Records;
    var n' := Store(n, q, a');
    InvAt(n, q, server);
    RecordActorInv(n.actor(q), a', server);
    forall c, s ensures Pair(Between(n', c, s), c, s) {
      assert Pair(Between(n, c, s), c, s);
      StoreSeen(n, q, a', c, s);
      RecordPair(Between(n, c, s), Between(n', c, s), c, s, q, server, n.actor(q), a');
    }
  }

  /** What a response does to the record of its server. */
  ghost function Recorded(a: Actor, server: Addr, ok: bool): Actor
    requires server in a.servers
  {
    a.(servers := if ok then a.servers[server := a.servers[server].(state := Linked)] else a.servers - {server})
  }

  lemma RecordedRecords(a: Actor, server: Addr, ok: bool)
    requires server in a.servers
    ensures Records(a, Recorded(a, server, ok), server)
  {}

  lemma RecordedFollows(a: Actor, server: Addr, ok: bool, v: Votes)
    requires server in a.servers
    ensures Follows(Recorded(a, server, ok), OnLinkResponse(a, server, ok, v))
  {
    hide InitContinue;
    if ok {
      InitContinueFollows(Recorded(a, server, ok), v);
    }
  }

  lemma UnknownServerAnswered(a: Actor, server: Addr, ok: bool, v: Votes)
    requires server !in a.servers
    ensures OnLinkResponse(a, server, ok, v) == a
  {}

  lemma SuccessArrives(n: Net, x: Addr, server: Addr, rid: nat)
    requires Pair(Between(n, x, server), x, server) && server in n.actor(x).servers
    requires n.local(x) != [] && n.local(x)[0] == LinkResponse(server, rid, true)
    ensures Secure(Between(PopResponse(n, x), x, server), x)
  {
    hide PairIds, PairCalm;
    assert n.local(x)[0] in n.local(x);
    assert SuccessWaits(Between(n, x, server), server);
    assert forall r :: r in PopResponse(n, x).local(server) ==> r in n.local(server);
  }

  lemma LinkResponseKeeps(n: Net, x: Addr, server: Addr, rid: nat, ok: bool, v: Votes)
    requires Inv(n) && n.local(x) != [] && n.local(x)[0] == LinkResponse(server, rid, ok)
    ensures Inv(Store(PopResponse(n, x), x, OnLinkResponse(n.actor(x), server, ok, v)))
  {
    hide Inv, ActorInv, Secure, Follows, OnLinkResponse, Records, Store;
    var n1, a := PopResponse(n, x), n.actor(x);
    PopResponseKeeps(n, x);
    InvAt(n, x, server);
    if server !in a.servers {
      FollowsItself(a);
      UnknownServerAnswered(a, server, ok, v);
      StoreFollows(n1, x, a);
    } else {
      var mid := Recorded(a, server, ok);
      if ok { SuccessArrives(n, x, server, rid); }
      RecordedRecords(a, server, ok);
      RecordKeeps(n1, x, server, mid);
      RecordedFollows(a, server, ok, v);
      StoreVia(n1, x, mid, OnLinkResponse(a, server, ok, v));
    }
  }

  lemma InitContinueFollows(a: Actor, v: Votes)
    ensures Follows(a, InitContinue(a, v))
  {
    hide Follows;
    AsideFollows(a, InitContinue(a, v));
  }

  lemma ErasedIsIdle(n: Net, x: Addr, client: Addr)
    requires Pair(Between(n, client, x), client, x)
    requires n.local(x) != [] && n.local(x)[0] == UnlinkResponse(client, true)
    ensures Idle(Between(PopResponse(n, x), client, x), client, x)
  {
    hide PairIds, PairCalm;
    assert n.local(x)[0] in n.local(x);
    assert !Secure(Between(n, client, x), client);
    assert forall r :: r in PopResponse(n, x).local(client) ==> r in n.local(client);
  }

  lemma ErasedFollows(a: Actor, client: Addr, v: Votes)
    requires client in a.clients
    ensures Follows(a.(clients := a.clients - {client}), OnUnlinkResponse(a, client, true, v))
  {
    hide Follows, ShutdownContinue;
    var mid := a.(clients := a.clients - {client});
    FollowsItself(mid);
    ShutdownContinueFollows(mid, v);
  }

  lemma UnlinkFailedFollows(a: Actor, client: Addr, ok: bool, v: Votes)
    requires !ok || client !in a.clients
    ensures Follows(a, OnUnlinkResponse(a, client, ok, v))
  {
    hide Follows;
    AsideFollows(a, OnUnlinkResponse(a, client, ok, v));
  }

  lemma UnlinkResponseKeeps(n: Net, x: Addr, client: Addr, ok: bool, v: Votes)
    requires Inv(n) && n.local(x) != [] && n.local(x)[0] == UnlinkResponse(client, ok)
    ensures Inv(Store(PopResponse(n, x), x, OnUnlinkResponse(n.actor(x), client, ok, v)))
  {
    hide Inv, ActorInv, Pair, Idle, Follows, OnUnlinkResponse, Store;
    var n1, a := PopResponse(n, x), n.actor(x);
    PopResponseKeeps(n, x);
    InvAt(n, client, x);
    if ok && client in a.clients {
      var mid := a.(clients := a.clients - {client});
      ErasedIsIdle(n, x, client);
      ForgetKeeps(n1, client, x, mid);
      ErasedFollows(a, client, v);
      StoreVia(n1, x, mid, OnUnlinkResponse(a, client, ok, v));
    } else {
      UnlinkFailedFollows(a, client, ok, v);
      StoreFollows(n1, x, OnUnlinkResponse(a, client, ok, v));
    }
  }

  // A new link

  lemma LinkParts(a: Actor, server: Addr, oo: bool, x: Addr)
    requires a.out == map[]
    ensures var posted := Box(Link(a, server, oo).out, x);
            posted == if x == server then [LinkRequest(a.nextId, oo)] else []
  {
    assert [] + [LinkRequest(a.nextId, oo)] == [LinkRequest(a.nextId, oo)];
  }

  lemma LinkActorInv(a: Actor, server: Addr, oo: bool)
    requires ActorInv(a) && server !in a.servers
    requires forall id :: id in a.linkRequests ==> a.linkRequests[id] != server
    ensures ActorInv(Link(a, server, oo).(out := map[]))
  {
    var a' := Link(a, server, oo);
    forall id | id in a'.linkRequests && a'.linkRequests[id] in a'.servers
      ensures a'.servers[a'.linkRequests[id]].rid == id
    {
      var server' := a'.linkRequests[id];
      assert id != a.nextId ==> server' in a.servers;
    }
  }

  lemma LinkFields(a: Actor, server: Addr, oo: bool)
    ensures var a' := Link(a, server, oo).(out := map[]);
            && a'.life == a.life && a'.unlinkQueue == a.unlinkQueue && a'.held == a.held
            && a'.clients == a.clients && a'.unlinkRequests == a.unlinkRequests
            && a'.servers == a.servers[server := ServerRec(Linking, a.nextId)]
            && a'.linkRequests == a.linkRequests[a.nextId := server]
  {
    hide PostAll;
  }

  lemma LinkKeepsIds(a: Actor, server: Addr, oo: bool, s: Addr)
    ensures var a' := Link(a, server, oo).(out := map[]);
            && (forall rid :: IdOf(a, s, rid) ==> IdOf(a', s, rid))
            && (s == server ==> IdOf(a', s, a.nextId))
  {
    hide PostAll;
  }

  lemma LinkPairIds(v: View, v': View, c: Addr, s: Addr, pc: seq<Msg>, ps: seq<Msg>)
    requires PairIds(v, c, s) && v'.up == v.up + pc && v'.down == v.down + ps
    requires v'.server.clients == v.server.clients
    requires forall rid :: IdOf(v.client, s, rid) ==> IdOf(v'.client, s, rid)
    requires forall m :: m in pc && m.LinkRequest? ==> IdOf(v'.client, s, m.rid)
    requires forall m :: m in ps ==> m.LinkRequest?
    ensures PairIds(v', c, s)
  {
    hide IdOf;
  }

  lemma NoNotifyAfterLast(up: seq<Msg>, rid: nat, oo: bool)
    requires forall m :: m in up && m.LinkRequest? ==> m.rid < rid
    ensures NoNotifyAfter(up + [LinkRequest(rid, oo)], rid)
  {
    var up' := up + [LinkRequest(rid, oo)];
    assert forall i :: 0 <= i < |up| ==> up'[i] in up;
  }

  lemma LinkKeepsCalm(v: View, v': View, c: Addr, s: Addr)
    requires PairCalm(v, c, s) && v'.server.life == v.server.life && v'.serverBox == v.serverBox
    requires v'.client.unlinkQueue == v.client.unlinkQueue && v'.client.held == v.client.held
    requires v'.server.unlinkRequests == v.server.unlinkRequests
    requires UnlinkRequest in v'.down ==> UnlinkRequest in v.down
    requires UnlinkReply in v'.up ==> UnlinkReply in v.up
    ensures PairCalm(v', c, s)
  {}

  lemma LinkKeepsSecure(v: View, v': View, c: Addr, pc: seq<Msg>)
    requires v'.up == v.up + pc && (forall m :: m in pc ==> m.LinkRequest?)
    requires v'.server.clients == v.server.clients && v'.serverBox == v.serverBox
    ensures Secure(v, c) ==> Secure(v', c)
  {}

  lemma RequestedBelow(v: View, c: Addr, s: Addr)
    requires PairIds(v, c, s)
    ensures forall m :: m in v.up && m.LinkRequest? ==> m.rid < v.client.nextId
  {}

  lemma RecordBelow(a: Actor, s: Addr)
    requires ActorInv(a)
    ensures s in a.servers ==> a.servers[s].rid < a.nextId
  {}

  /** What a pair sees of a call of `link`. */
  lemma LinkSeen(v: View, v': View, c: Addr, s: Addr, q: Addr, server: Addr, oo: bool, a: Actor,
                 pc: seq<Msg>, ps: seq<Msg>)
    requires ActorInv(a) && Seen(v, v', c, s, q, a, Link(a, server, oo))
    requires pc == if c == q && s == server then [LinkRequest(a.nextId, oo)] else []
    requires ps == if s == q && c == server then [LinkRequest(a.nextId, oo)] else []
    ensures c == q ==> v.client == a && v'.client == Link(a, server, oo).(out := map[])
    ensures c != q ==> v'.client == v.client
    ensures s == q ==> v.server == a && v'.server == Link(a, server, oo).(out := map[])
    ensures s != q ==> v'.server == v.server
    ensures v'.up == v.up + pc && v'.down == v.down + ps
    ensures v'.clientBox == v.clientBox && v'.serverBox == v.serverBox
  {
    LinkParts(a, server, oo, s);
    LinkParts(a, server, oo, c);
  }

  lemma LinkKeepsOther(v: View, v': View, c: Addr, s: Addr)
    requires PairSafe(v, c, s)
    requires v'.up == v.up
    requires s in v'.client.servers ==>
      && s in v.client.servers && v'.client.servers[s] == v.client.servers[s]
      && (v.client.servers[s].rid in v'.client.linkRequests ==> v.client.servers[s].rid in v.client.linkRequests)
    requires v'.server.clients == v.server.clients && v'.clientBox == v.clientBox
    requires forall m :: m in v'.down && m.LinkReply? ==> m in v.down
    requires Secure(v, c) ==> Secure(v', c)
    ensures PairSafe(v', c, s)
  {
    hide Secure, NoNotifyAfter;
  }

  lemma LinkMakesSafe(v: View, v': View, c: Addr, s: Addr, rid: nat)
    requires PairIds(v, c, s) && rid == v.client.nextId
    requires s in v'.client.servers && v'.client.servers[s] == ServerRec(Linking, rid)
    requires NoNotifyAfter(v'.up, rid)
    requires v'.server.clients == v.server.clients
    requires forall m :: m in v'.down && m.LinkReply? ==> m in v.down
    requires v'.clientBox == v.clientBox && (SuccessWaits(v, s) ==> Secure(v, c)) && (Secure(v, c) ==> Secure(v', c))
    ensures PairSafe(v', c, s)
  {}

  lemma LinkOwnPair(v: View, v': View, c: Addr, s: Addr, oo: bool, a: Actor)
    requires Pair(v, c, s) && ActorInv(a) && Seen(v, v', c, s, c, a, Link(a, s, oo))
    requires SuccessWaits(v, s) ==> Secure(v, c)
    ensures Pair(v', c, s)
  {
    hide PairIds, IdOf, PairCalm, PairSafe, SuccessWaits, Secure, Seen, ActorInv, Link;
    var pc := [LinkRequest(a.nextId, oo)];
    var ps := if s == c then pc else [];
    LinkSeen(v, v', c, s, c, s, oo, a, pc, ps);
    LinkKeepsIds(a, s, oo, s);
    LinkFields(a, s, oo);
    LinkPairIds(v, v', c, s, pc, ps);
    LinkKeepsCalm(v, v', c, s);
    LinkKeepsSecure(v, v', c, pc);
    RequestedBelow(v, c, s);
    NoNotifyAfterLast(v.up, a.nextId, oo);
    LinkMakesSafe(v, v', c, s, a.nextId);
  }

  lemma LinkOtherPair(v: View, v': View, c: Addr, s: Addr, q: Addr, server: Addr, oo: bool, a: Actor)
    requires Pair(v, c, s) && ActorInv(a) && Seen(v, v', c, s, q, a, Link(a, server, oo))
    requires c != q || s != server
    ensures Pair(v', c, s)
  {
    hide PairIds, IdOf, PairCalm, PairSafe, Secure, Seen, ActorInv, Link;
    var ps := if s == q && c == server then [LinkRequest(a.nextId, oo)] else [];
    LinkSeen(v, v', c, s, q, server, oo, a, [], ps);
    LinkKeepsIds(a, server, oo, s);
    LinkFields(a, server, oo);
    LinkPairIds(v, v', c, s, [], ps);
    LinkKeepsCalm(v, v', c, s);
    LinkKeepsSecure(v, v', c, []);
    RecordBelow(a, s);
    LinkKeepsOther(v, v', c, s);
  }

  lemma LinkPair(v: View, v': View, c: Addr, s: Addr, q: Addr, server: Addr, oo: bool, a: Actor)
    requires Pair(v, c, s) && ActorInv(a) && Seen(v, v', c, s, q, a, Link(a, server, oo))
    requires c == q && s == server && SuccessWaits(v, s) ==> Secure(v, c)
    ensures Pair(v', c, s)
  {
    hide Pair, Seen, ActorInv, Link, SuccessWaits, Secure;
    if c == q && s == server {
      LinkOwnPair(v, v', c, s, oo, a);
    } else {
      LinkOtherPair(v, v', c, s, q, server, oo, a);
    }
  }

  /** A waiting success does no harm either as long as the server's record is secure. */
  lemma LinkKeeps(n: Net, c: Addr, s: Addr, oo: bool)
    requires Inv(n) && s !in n.actor(c).servers
    requires forall id :: id in n.actor(c).linkRequests ==> n.actor(c).linkRequests[id] != s
    requires SuccessWaits(Between(n, c, s), s) ==> Secure(Between(n, c, s), c)
    ensures Inv(Store(n, c, Link(n.actor(c), s, oo)))
  {
    hide ActorInv, Pair, Seen, Link, SuccessWaits, Secure;
    var a' := Link(n.actor(c), s, oo);
    var n' := Store(n, c, a');
    InvAt(n, c, s);
    LinkActorInv(n.actor(c), s, oo);
    forall c', s' ensures Pair(Between(n', c', s'), c', s') {
      assert Pair(Between(n, c', s'), c', s');
      StoreSeen(n, c, a', c', s');
      LinkPair(Between(n, c', s'), Between(n', c', s'), c', s', c, s, oo, n.actor(c));
    }
  }

  // All events

  lemma AnswerPendingFollows(a: Actor)
    ensures Follows(a, AnswerPending(a))
  {
    var a' := AnswerPending(a);
    forall b, m | m in Box(a'.out, b) && m !in Box(a.out, b) ensures MayPost(a, a', b, m) {
      assert b in PendingClients(a);
    }
  }

  lemma StartFollows(a: Actor)
    ensures Follows(a, Start(a))
  {
    hide Follows, AnswerPending;
    FollowsItself(a);
    if a.life == Initialized {
      var a1 := a.(life := Operational);
      AsideFollows(a, a1);
      if a.serverStart {
        AnswerPendingFollows(a1);
        AsideFollows(AnswerPending(a1), Start(a));
        FollowsTrans(a, a1, AnswerPending(a1));
        FollowsTrans(a, AnswerPending(a1), Start(a));
      }
    }
  }

  lemma BeginShutdownFollows(a: Actor, asked: bool, v: Votes)
    ensures Follows(a, BeginShutdown(a, asked, v))
  {
    hide Follows, ShutdownContinue;
    FollowsItself(a);
    if Rank(a.life) < Rank(ShuttingDown) {
      var mid := a.(shutdownRequest := a.shutdownRequest || asked, life := ShuttingDown);
      AsideFollows(a, mid);
      ShutdownContinueFollows(mid, v);
      FollowsTrans(a, mid, ShutdownContinue(mid, v));
    }
  }

  lemma AskInitFollows(a: Actor, v: Votes)
    ensures Follows(a, InitContinue(a.(initRequest := true), v))
  {
    hide Follows, InitContinue;
    var mid := a.(initRequest := true);
    AsideFollows(a, mid);
    InitContinueFollows(mid, v);
    FollowsTrans(a, mid, InitContinue(mid, v));
  }

  lemma ReceiveKeeps(n: Net, p: Addr, q: Addr, keep: bool, v: Votes)
    requires Inv(n) && n.chan(p, q) != []
    ensures Inv(Receive(Pop(n, p, q), p, q, n.chan(p, q)[0], keep, v))
  {
    match n.chan(p, q)[0]
    case LinkRequest(rid, oo) => LinkRequestKeeps(n, p, q, rid, oo);
    case UnlinkNotify => UnlinkNotifyKeeps(n, p, q, v);
    case UnlinkRequest => UnlinkRequestKeeps(n, p, q, keep, v);
    case LinkReply(rid, ok) =>
      if rid in n.actor(q).linkRequests {
        LinkReplyKeeps(n, p, q, rid, ok);
      } else {
        PopKeeps(n, p, q);
      }
    case UnlinkReply =>
      if p in n.actor(q).unlinkRequests {
        UnlinkReplyKeeps(n, p, q);
      } else {
        PopKeeps(n, p, q);
      }
  }

  lemma ReceiveResponseKeeps(n: Net, x: Addr, v: Votes)
    requires Inv(n) && n.local(x) != []
    ensures Inv(ReceiveResponse(PopResponse(n, x), x, n.local(x)[0], v))
  {
    match n.local(x)[0]
    case LinkResponse(server, rid, ok) =>
      PopResponseKeeps(n, x);
      LinkResponseKeeps(n, x, server, rid, ok, v);
    case UnlinkResponse(client, ok) => UnlinkResponseKeeps(n, x, client, ok, v);
  }

  lemma BootFollows(a: Actor)
    ensures Follows(a, StartInit(a))
  {
    hide Follows;
    if a.life == New {
      AsideFollows(a, a.(life := Initializing));
    } else {
      FollowsItself(a);
    }
  }

  lemma GiveUpFollows(a: Actor)
    ensures Follows(a, GiveUpHearing(a))
  {
    hide Follows;
    if Quitting(a) {
      AsideFollows(a, a.(deaf := true));
    } else {
      FollowsItself(a);
    }
  }

  lemma AfterPollFollows(a: Actor, e: Event)
    requires PollsOnly(e)
    ensures Follows(a, AfterPoll(a, e))
  {
    hide Follows, InitContinue, Start, BeginShutdown, ShutdownContinue;
    match e
    case Boot(_) => BootFollows(a);
    case AskInit(_, v) => AskInitFollows(a, v);
    case PollInit(_, v) => InitContinueFollows(a, v);
    case TriggerStart(_) => StartFollows(a);
    case AskShutdown(_, asked, v) => BeginShutdownFollows(a, asked, v);
    case PollShutdown(_, v) => ShutdownContinueFollows(a, v);
    case GiveUp(_) => GiveUpFollows(a);
  }

  lemma PollStores(n: Net, e: Event)
    requires PollsOnly(e)
    ensures Step(n, e) == Store(n, e.at, AfterPoll(n.actor(e.at), e))
  {
    hide Store, InitContinue, Start, BeginShutdown, ShutdownContinue;
  }

  lemma PollKeeps(n: Net, e: Event)
    requires Inv(n) && PollsOnly(e)
    ensures Inv(Step(n, e))
  {
    hide Inv, Step, Store, AfterPoll, Follows;
    PollStores(n, e);
    AfterPollFollows(n.actor(e.at), e);
    StoreFollows(n, e.at, AfterPoll(n.actor(e.at), e));
  }

  lemma ForgetHeldKeeps(n: Net, x: Addr, s: Addr, v: Votes)
    requires Inv(n) && s in n.actor(x).held
    ensures Inv(Store(n, x, ForgetLink(n.actor(x), s, v)))
  {
    hide Store, ForgetLink, PairIds, PairSafe;
    assert Pair(Between(n, x, s), x, s);
    ForgetLinkKeeps(n, s, x, v);
  }

  lemma AskLinkKeeps(n: Net, c: Addr, s: Addr, oo: bool)
    requires Inv(n) && Fresh(n, c, s)
    ensures Inv(Step(n, AskLink(c, s, oo)))
  {
    hide Inv, Store, Link, Secure;
    LinkKeeps(n, c, s, oo);
  }

  /** Every event of every interleaving keeps the invariant, if links are asked for afresh. */
  lemma StepKeeps(n: Net, e: Event)
    requires Inv(n) && (e.AskLink? ==> Fresh(n, e.client, e.server))
    ensures Inv(Step(n, e))
  {
    hide Inv, Fresh, Store, Pop, PopResponse, Receive, ReceiveResponse, ConcludeLink, ConcludeUnlink, ForgetLink;
    if PollsOnly(e) {
      PollKeeps(n, e);
    } else if e.AskLink? {
      AskLinkKeeps(n, e.client, e.server, e.operationalOnly);
    } else if e.Deliver? {
      if n.chan(e.from, e.to) != [] { ReceiveKeeps(n, e.from, e.to, e.keep, e.votes); }
    } else if e.DeliverResponse? {
      if n.local(e.at) != [] { ReceiveResponseKeeps(n, e.at, e.votes); }
    } else if e.LinkTimeout? {
      if e.rid in n.actor(e.at).linkRequests {
        ConcludeLinkKeeps(n, e.at, n.actor(e.at).linkRequests[e.rid], e.rid, false);
      }
    } else if e.UnlinkTimeout? {
      if e.client in n.actor(e.at).unlinkRequests { ConcludeUnlinkKeeps(n, e.at, e.client, false); }
    } else if e.ForgetHeld? {
      if e.server in n.actor(e.at).held { ForgetHeldKeeps(n, e.at, e.server, e.votes); }
    } else if e.Lose? {
      if n.chan(e.from, e.to) != [] && Quitting(n.actor(e.to)) { PopKeeps(n, e.from, e.to); }
    } else if n.local(e.at) != [] && !n.local(e.at)[0].LinkResponse? && Quitting(n.actor(e.at)) {
      PopResponseKeeps(n, e.at);
    }
  }

  lemma InitialInv()
    ensures Inv(Initial())
  {}

  lemma {:induction false} RunKeeps(n: Net, es: seq<Event>)
    requires Inv(n) && Careful(n, es)
    ensures Inv(Run(n, es))
    decreases es
  {
    if es != [] {
      StepKeeps(n, es[0]);
      RunKeeps(Step(n, es[0]), es[1..]);
    }
  }
}
