/** Once links are established and no new one is asked for, they are dropped in path order. */
module LinkOrder {
  import opened LinkActor
  import opened LinkInvariant
  import opened LinkNet

  /** No link is being established: every record is OPERATIONAL, nothing is pending. */
  ghost predicate SettledActor(a: Actor) {
    a.linkRequests == map[] && (forall s :: s in a.servers ==> a.servers[s].state == Linked)
  }

  ghost predicate Settled(n: Net) {
    && (forall x :: SettledActor(n.actor(x)))
    && (forall x, r :: r in n.local(x) ==> r.UnlinkResponse?)
  }

  /** An actor only loses servers, and only when it has no client left. */
  ghost predicate Sheds(a: Actor, a': Actor) {
    && (SettledActor(a) ==> SettledActor(a'))
    && (forall s :: s in a'.servers ==> s in a.servers)
    && ((exists s :: s in a.servers && s !in a'.servers) ==> a'.clients == map[])
  }

  lemma FollowsSheds(a: Actor, mid: Actor, a': Actor)
    requires Follows(mid, a') && mid.servers == a.servers && mid.linkRequests == a.linkRequests
    ensures Sheds(a, a'.(out := map[]))
  {}

  /** Only messages were taken. */
  ghost predicate Popped(n: Net, m: Net) {
    && (forall y :: m.actor(y) == n.actor(y))
    && (forall y, r :: r in m.local(y) ==> r in n.local(y))
  }

  lemma PopIsPopped(n: Net, p: Addr, q: Addr)
    requires n.chan(p, q) != []
    ensures Popped(n, Pop(n, p, q))
  {}

  lemma PopResponseIsPopped(n: Net, x: Addr)
    requires n.local(x) != []
    ensures Popped(n, PopResponse(n, x))
  {}

  lemma ShedsItself(a: Actor)
    ensures Sheds(a, a)
  {}

  /** One step of a settled net without a new link. */
  ghost predicate Onward(n: Net, n': Net) {
    && (forall x :: Sheds(n.actor(x), n'.actor(x)))
    && (forall x, r :: r in n'.local(x) ==> r in n.local(x) || r.UnlinkResponse?)
  }

  lemma StoreOnward(n: Net, m: Net, x: Addr, mid: Actor, a': Actor)
    requires Popped(n, m)
    requires Follows(mid, a') && mid.servers == n.actor(x).servers && mid.linkRequests == n.actor(x).linkRequests
    ensures Onward(n, Store(m, x, a'))
  {
    var n' := Store(m, x, a');
    FollowsSheds(n.actor(x), mid, a');
    forall y ensures Sheds(n.actor(y), n'.actor(y)) {
      ShedsItself(n.actor(y));
      assert n'.actor(y) == if y == x then a'.(out := map[]) else n.actor(y);
    }
  }

  lemma SameOnward(n: Net, m: Net)
    requires Popped(n, m)
    ensures Onward(n, m)
  {
    forall y ensures Sheds(n.actor(y), m.actor(y)) {
      ShedsItself(n.actor(y));
    }
  }

  lemma ConcludeUnlinkOnward(n: Net, m: Net, q: Addr, client: Addr, ok: bool)
    requires Popped(n, m)
    ensures Onward(n, ConcludeUnlink(m, q, client, ok))
  {
    var a' := m.actor(q).(unlinkRequests := m.actor(q).unlinkRequests - {client});
    var n' := ConcludeUnlink(m, q, client, ok);
    assert Sheds(m.actor(q), a');
    forall y ensures Sheds(n.actor(y), n'.actor(y)) {
      assert y != q ==> n'.actor(y) == n.actor(y);
    }
  }

  lemma OnLinkRequestOnward(n: Net, p: Addr, q: Addr, rid: nat, oo: bool)
    requires Inv(n) && n.chan(p, q) != []
    ensures Onward(n, Store(Pop(n, p, q), q, OnLinkRequest(n.actor(q), p, rid, oo)))
  {
    assert ActorInv(n.actor(q));
    OnLinkRequestAnswers(n.actor(q), p, rid, oo);
    var n' := Store(Pop(n, p, q), q, OnLinkRequest(n.actor(q), p, rid, oo));
    assert Sheds(n.actor(q), n'.actor(q));
    forall y ensures Sheds(n.actor(y), n'.actor(y)) {
      assert y != q ==> n'.actor(y) == n.actor(y);
    }
  }

  lemma ForgetLinkOnward(n: Net, m: Net, q: Addr, server: Addr, v: Votes)
    requires Popped(n, m)
    ensures Onward(n, Store(m, q, ForgetLink(n.actor(q), server, v)))
  {
    var a := n.actor(q);
    if server in a.servers {
      var mid := a.(unlinkQueue := a.unlinkQueue + [server]);
      TryForgetFollows(mid, v);
      StoreOnward(n, m, q, mid, ForgetLink(a, server, v));
    } else {
      StoreOnward(n, m, q, a, a);
    }
  }

  lemma UnlinkNotifyOnward(n: Net, m: Net, p: Addr, q: Addr, v: Votes)
    requires Popped(n, m)
    ensures Onward(n, Store(m, q, OnUnlinkNotify(n.actor(q), p, v)))
  {
    var a := n.actor(q);
    var mid := if p in a.clients then RemoveClient(a, p) else a;
    FollowsItself(mid);
    ShutdownContinueFollows(mid, v);
    StoreOnward(n, m, q, mid, OnUnlinkNotify(a, p, v));
  }

  lemma UnlinkResponseOnward(n: Net, m: Net, x: Addr, client: Addr, ok: bool, v: Votes)
    requires Popped(n, m)
    ensures Onward(n, Store(m, x, OnUnlinkResponse(n.actor(x), client, ok, v)))
  {
    var a := n.actor(x);
    var a' := OnUnlinkResponse(a, client, ok, v);
    if !ok || client !in a.clients {
      assert Follows(a, a');
      StoreOnward(n, m, x, a, a');
    } else {
      var mid := a.(clients := a.clients - {client});
      FollowsItself(mid);
      ShutdownContinueFollows(mid, v);
      StoreOnward(n, m, x, mid, a');
    }
  }

  lemma UnlinkRequestOnward(n: Net, m: Net, p: Addr, q: Addr, keep: bool, v: Votes)
    requires Popped(n, m)
    ensures Onward(n, Store(m, q, OnUnlinkRequest(n.actor(q), p, keep, v)))
  {
    if keep {
      var mid := n.actor(q).(held := n.actor(q).held + {p});
      FollowsItself(mid);
      StoreOnward(n, m, q, mid, mid);
    } else {
      ForgetLinkOnward(n, m, q, p, v);
    }
  }

  lemma SameActor(n: Net, m: Net, q: Addr)
    requires Popped(n, m)
    ensures m.actor(q) == n.actor(q)
  {}

  lemma ReceiveOnward(n: Net, p: Addr, q: Addr, keep: bool, v: Votes)
    requires Inv(n) && n.chan(p, q) != [] && n.actor(q).linkRequests == map[]
    ensures Onward(n, Receive(Pop(n, p, q), p, q, n.chan(p, q)[0], keep, v))
  {
    hide Inv, Onward, Store, Pop, Follows, OnLinkRequest, OnUnlinkNotify, OnUnlinkRequest, ConcludeUnlink, Popped;
    var m := Pop(n, p, q);
    PopIsPopped(n, p, q);
    SameActor(n, m, q);
    match n.chan(p, q)[0]
    case LinkRequest(rid, oo) => OnLinkRequestOnward(n, p, q, rid, oo);
    case UnlinkNotify => UnlinkNotifyOnward(n, m, p, q, v);
    case UnlinkRequest => UnlinkRequestOnward(n, m, p, q, keep, v);
    case LinkReply(rid, ok) => SameOnward(n, m);
    case UnlinkReply =>
      SameOnward(n, m);
      ConcludeUnlinkOnward(n, m, q, p, true);
  }

  lemma ReceiveResponseOnward(n: Net, x: Addr, v: Votes)
    requires n.local(x) != [] && n.local(x)[0].UnlinkResponse?
    ensures Onward(n, ReceiveResponse(PopResponse(n, x), x, n.local(x)[0], v))
  {
    PopResponseIsPopped(n, x);
    UnlinkResponseOnward(n, PopResponse(n, x), x, n.local(x)[0].client, n.local(x)[0].ok, v);
  }

  lemma PollOnward(n: Net, e: Event)
    requires PollsOnly(e)
    ensures Onward(n, Step(n, e))
  {
    hide Step, Store, AfterPoll, Follows, Onward;
    var a := n.actor(e.at);
    PollStores(n, e);
    AfterPollFollows(a, e);
    StoreOnward(n, n, e.at, a, AfterPoll(a, e));
  }

  lemma StepOnward(n: Net, e: Event)
    requires Inv(n) && Settled(n) && !e.AskLink?
    ensures Onward(n, Step(n, e))
  {
    hide Inv, Onward, Store, Pop, PopResponse, Receive, ReceiveResponse, ConcludeUnlink, ForgetLink;
    assert Popped(n, n);
    SameOnward(n, n);
    if PollsOnly(e) {
      PollOnward(n, e);
    } else if e.Deliver? {
      assert SettledActor(n.actor(e.to));
      if n.chan(e.from, e.to) != [] { ReceiveOnward(n, e.from, e.to, e.keep, e.votes); }
    } else if e.DeliverResponse? {
      if n.local(e.at) != [] {
        assert n.local(e.at)[0] in n.local(e.at);
        ReceiveResponseOnward(n, e.at, e.votes);
      }
    } else if e.LinkTimeout? {
      assert SettledActor(n.actor(e.at));
    } else if e.UnlinkTimeout? {
      ConcludeUnlinkOnward(n, n, e.at, e.client, false);
    } else if e.ForgetHeld? {
      ForgetLinkOnward(n, n, e.at, e.server, e.votes);
    } else if e.Lose? {
      if n.chan(e.from, e.to) != [] {
        PopIsPopped(n, e.from, e.to);
        SameOnward(n, Pop(n, e.from, e.to));
      }
    } else if n.local(e.at) != [] {
      PopResponseIsPopped(n, e.at);
      SameOnward(n, PopResponse(n, e.at));
    }
  }

  // ---------------------------------------------------------------- runs

  /** Of two successive links of `n0`, the second is dropped only after the first. */
  ghost predicate InOrder(n0: Net, n: Net) {
    forall a, b, d :: b in n0.actor(a).servers && d in n0.actor(b).servers && d !in n.actor(b).servers ==>
                        b !in n.actor(a).servers
  }

  /** In a settled net an actor without clients is nobody's server. */
  lemma NoClientsNoHolders(n: Net, a: Addr, b: Addr)
    requires Inv(n) && Settled(n) && n.actor(b).clients == map[]
    ensures b !in n.actor(a).servers
  {
    assert SettledActor(n.actor(a)) && Pair(Between(n, a, b), a, b);
  }

  lemma OnwardSettled(n: Net, n': Net)
    requires Settled(n) && Onward(n, n')
    ensures Settled(n')
  {
    forall x ensures SettledActor(n'.actor(x)) {
      assert SettledActor(n.actor(x)) && Sheds(n.actor(x), n'.actor(x));
    }
  }

  lemma OnwardInOrder(n0: Net, n: Net, n': Net)
    requires InOrder(n0, n) && Onward(n, n') && Inv(n') && Settled(n')
    ensures InOrder(n0, n')
  {
    forall a, b, d | b in n0.actor(a).servers && d in n0.actor(b).servers && d !in n'.actor(b).servers
      ensures b !in n'.actor(a).servers
    {
      assert Sheds(n.actor(a), n'.actor(a)) && Sheds(n.actor(b), n'.actor(b));
      if d in n.actor(b).servers {
        NoClientsNoHolders(n', a, b);
      }
    }
  }

  lemma StepInOrder(n0: Net, n: Net, e: Event)
    requires Inv(n) && Settled(n) && InOrder(n0, n) && !e.AskLink?
    ensures var n' := Step(n, e); Inv(n') && Settled(n') && InOrder(n0, n')
  {
    StepKeeps(n, e);
    StepOnward(n, e);
    OnwardSettled(n, Step(n, e));
    OnwardInOrder(n0, n, Step(n, e));
  }

  lemma {:induction false} RunInOrder(n0: Net, n: Net, es: seq<Event>)
    requires Inv(n) && Settled(n) && InOrder(n0, n) && NoNewLinks(es)
    ensures var n' := Run(n, es); Inv(n') && Settled(n') && InOrder(n0, n')
    decreases es
  {
    if es != [] {
      StepInOrder(n0, n, es[0]);
      RunInOrder(n0, Step(n, es[0]), es[1..]);
    }
  }

  /** Each actor of the path is a client of the next. */
  ghost predicate Chain(n: Net, path: seq<Addr>) {
    forall i :: 0 <= i < |path| - 1 ==> path[i + 1] in n.actor(path[i]).servers
  }

  ghost predicate Dropped(n: Net, path: seq<Addr>, i: int)
    requires 0 <= i < |path| - 1
  {
    path[i + 1] !in n.actor(path[i]).servers
  }

  lemma {:induction false} DroppedBackwards(n0: Net, n: Net, path: seq<Addr>, i: int, k: int)
    requires InOrder(n0, n) && Chain(n0, path) && 0 <= i <= k < |path| - 1 && Dropped(n, path, k)
    ensures Dropped(n, path, i)
    decreases k - i
  {
    if i < k {
      var a, b, d := path[k - 1], path[k], path[k + 1];
      assert path[(k - 1) + 1] in n0.actor(path[k - 1]).servers;
      assert b in n0.actor(a).servers && d in n0.actor(b).servers && d !in n.actor(b).servers;
      DroppedBackwards(n0, n, path, i, k - 1);
    }
  }

  /** `n` is the end of a run with fresh links. */
  ghost predicate Reachable(n: Net) {
    exists es :: Careful(Initial(), es) && n == Run(Initial(), es)
  }

  /** A run without new links leads from `n0` to `n`. */
  ghost predicate Later(n0: Net, n: Net) {
    exists es :: NoNewLinks(es) && n == Run(n0, es)
  }

  lemma LaterInOrder(n0: Net, n: Net)
    requires Reachable(n0) && Settled(n0) && Later(n0, n)
    ensures Inv(n) && Settled(n) && InOrder(n0, n)
  {
    var before :| Careful(Initial(), before) && n0 == Run(Initial(), before);
    var after :| NoNewLinks(after) && n == Run(n0, after);
    InitialInv();
    RunKeeps(Initial(), before);
    RunInOrder(n0, n0, after);
  }

  /** From any reachable settled state, in any run without new links: along every chain of
      links, when one link has been dropped all links before it have been dropped. */
  lemma LinksDropInPathOrder(n0: Net, n: Net, path: seq<Addr>, i: int, k: int)
    requires Reachable(n0) && Settled(n0) && Later(n0, n)
    requires Chain(n0, path) && 0 <= i <= k < |path| - 1 && Dropped(n, path, k)
    ensures Dropped(n, path, i)
  {
    LaterInOrder(n0, n);
    DroppedBackwards(n0, n, path, i, k);
  }

  /** So when the server at the end of a chain is SHUT_DOWN, every actor before it has
      dropped its link. */
  lemma ShutDownInPathOrder(n0: Net, n: Net, path: seq<Addr>, i: int)
    requires Reachable(n0) && Settled(n0) && Later(n0, n)
    requires Chain(n0, path) && 0 <= i < |path| - 1 && n.actor(path[|path| - 1]).life == ShutDown
    ensures Dropped(n, path, i)
  {
    LaterInOrder(n0, n);
    ShutDownDropped(n0, n, path, i);
  }

  lemma ShutDownHasNoClient(n: Net, x: Addr)
    requires Inv(n) && n.actor(x).life == ShutDown
    ensures n.actor(x).clients == map[]
  {
    assert ActorInv(n.actor(x));
  }

  lemma ShutDownDropped(n0: Net, n: Net, path: seq<Addr>, i: int)
    requires Inv(n) && Settled(n) && InOrder(n0, n) && Chain(n0, path) && 0 <= i < |path| - 1
    requires n.actor(path[|path| - 1]).life == ShutDown
    ensures Dropped(n, path, i)
  {
    hide Inv, Settled, InOrder, Chain;
    ShutDownHasNoClient(n, path[|path| - 1]);
    NoClientsNoHolders(n, path[|path| - 2], path[|path| - 1]);
    DroppedBackwards(n0, n, path, i, |path| - 2);
  }
}
