/** What the link protocol is for: a server outlives its clients; and exactly when a call of
    `link` puts that at risk. */
module LinkTheorems {
  import opened LinkActor
  import opened LinkInvariant
  import opened LinkNet
  import opened LinkStale

  /** `c` counts on its link to `s`, and `s` knows nothing of it. */
  ghost predicate Betrayed(n: Net, c: Addr, s: Addr) {
    && s in n.actor(c).servers && n.actor(c).servers[s].state == Linked
    && c !in n.actor(s).clients
  }

  /** In every reachable state a server that some client records as OPERATIONAL has that
      client in its own map, has not voted for shutdown and is not SHUT_DOWN. */
  lemma ServerOutlivesClient(es: seq<Event>, c: Addr, s: Addr)
    requires Careful(Initial(), es)
    ensures var n := Run(Initial(), es);
            s in n.actor(c).servers && n.actor(c).servers[s].state == Linked ==>
              && c in n.actor(s).clients
              && n.actor(s).serverShutdown
              && n.actor(s).life != ShutDown
  {
    InitialInv();
    RunKeeps(Initial(), es);
    var n := Run(Initial(), es);
    assert Pair(Between(n, c, s), c, s) && ActorInv(n.actor(s));
  }

  // ---------------------------------------------------------------- why links must be fresh

  const STAY := Votes(false, false, false, false)
  const AGREE := Votes(true, true, true, true)

  ghost function Drain(c: Addr, k: nat): seq<Event> {
    if k == 0 then [] else [DeliverResponse(c, STAY)] + Drain(c, k - 1)
  }

  // With every poll refused at once, a response does to the actor no more than this.

  lemma LinkResponseMeanwhile(a: Actor, x: Addr, ok: bool, s: Addr)
    requires a.out == map[] && s in a.servers
    ensures var a' := OnLinkResponse(a, x, ok, STAY);
            && a'.out == map[] && a'.clients == a.clients && a'.deaf == a.deaf
            && (x != s ==> s in a'.servers && a'.servers[s] == a.servers[s])
            && (x == s && ok ==> s in a'.servers && a'.servers[s].state == Linked)
  {
    if x in a.servers && ok {
      var a1 := a.(servers := a.servers[x := a.servers[x].(state := Linked)]);
      InitRefused(a1);
      assert OnLinkResponse(a, x, ok, STAY) == a1;
    }
  }

  lemma InitRefused(a: Actor)
    ensures InitContinue(a, STAY) == a
  {}

  lemma UnlinkResponseMeanwhile(a: Actor, x: Addr, ok: bool)
    requires a.out == map[]
    ensures var a' := OnUnlinkResponse(a, x, ok, STAY);
            && a'.out == map[] && a'.servers == a.servers && a'.clients.Keys <= a.clients.Keys
            && a'.deaf == a.deaf
  {}

  /** `c` records `s`, which has no record of `c`, and `c` still hears responses. */
  ghost predicate Unknown(n: Net, c: Addr, s: Addr) {
    && n.actor(c).out == map[] && !n.actor(c).deaf
    && s in n.actor(c).servers && c !in n.actor(s).clients
  }

  lemma DeliveredMeanwhile(n: Net, c: Addr, s: Addr)
    requires Unknown(n, c, s) && n.local(c) != []
    ensures var n1, r := Step(n, DeliverResponse(c, STAY)), n.local(c)[0];
            && n1.actor(c).out == map[] && !n1.actor(c).deaf && c !in n1.actor(s).clients
            && n1.local(c) == n.local(c)[1..]
            && (r.LinkResponse? && r.server == s && r.ok ==> Betrayed(n1, c, s))
            && (!(r.LinkResponse? && r.server == s) ==> s in n1.actor(c).servers)
  {
    hide OnLinkResponse, OnUnlinkResponse;
    match n.local(c)[0]
    case LinkResponse(x, _, ok) => LinkResponseMeanwhile(n.actor(c), x, ok, s);
    case UnlinkResponse(x, ok) => UnlinkResponseMeanwhile(n.actor(c), x, ok);
  }

  lemma {:induction false} DrainingBetrays(n: Net, c: Addr, s: Addr, k: nat)
    requires Unknown(n, c, s) && StaleAt(n, c, s, k)
    ensures Betrayed(Run(n, Drain(c, k + 1)), c, s)
    decreases k
  {
    var n1 := Step(n, DeliverResponse(c, STAY));
    assert Drain(c, k + 1)[1..] == Drain(c, k);
    DeliveredMeanwhile(n, c, s);
    if k > 0 {
      assert forall i :: 0 <= i < k ==> n1.local(c)[i] == n.local(c)[i + 1];
      DrainingBetrays(n1, c, s, k - 1);
    }
  }

  /** Whenever `link` is called while the success of an earlier link, which the server has
      dropped since, waits in the caller's queue, the caller ends up with a dead link: its
      supervisor has only to go on delivering responses. */
  lemma StaleSuccessBetrays(n: Net, c: Addr, s: Addr, oo: bool, k: nat)
    requires Inv(n) && s !in n.actor(c).servers && c !in n.actor(s).clients
    requires !n.actor(c).deaf && StaleAt(n, c, s, k)
    ensures !Fresh(n, c, s)
    ensures Betrayed(Run(Step(n, AskLink(c, s, oo)), Drain(c, k + 1)), c, s)
  {
    assert n.local(c)[k] in n.local(c);
    assert ActorInv(n.actor(c));
    DrainingBetrays(Step(n, AskLink(c, s, oo)), c, s, k);
  }

  lemma {:induction false} DrainIsCareful(n: Net, c: Addr, k: nat)
    ensures Careful(n, Drain(c, k))
    decreases k
  {
    if k > 0 {
      assert Drain(c, k)[1..] == Drain(c, k - 1);
      DrainIsCareful(Step(n, DeliverResponse(c, STAY)), c, k - 1);
    }
  }

  /** No careful run from here leaves `c` with a link that `s` knows nothing of. */
  ghost predicate SafeFrom(n: Net, c: Addr, s: Addr) {
    forall es :: Careful(n, es) ==> !Betrayed(Run(n, es), c, s)
  }

  /** For a server that does not have the caller in its map, `link` is safe if and only if the
      next response of that server which the caller will hear is not an old success. */
  lemma LinkIsSafeIff(n: Net, c: Addr, s: Addr, oo: bool)
    requires Inv(n) && s !in n.actor(c).servers && c !in n.actor(s).clients
    requires forall id :: id in n.actor(c).linkRequests ==> n.actor(c).linkRequests[id] != s
    ensures SafeFrom(Step(n, AskLink(c, s, oo)), c, s) <==> !StaleFirst(n, c, s)
  {
    hide Inv, Betrayed, Step, Run, Careful, StaleAt;
    if StaleFirst(n, c, s) {
      var k: nat :| StaleAt(n, c, s, k);
      StaleSuccessBetrays(n, c, s, oo, k);
      DrainIsCareful(Step(n, AskLink(c, s, oo)), c, k + 1);
    } else {
      SafeUnlessStale(n, c, s, oo);
    }
  }

  lemma SafeUnlessStale(n: Net, c: Addr, s: Addr, oo: bool)
    requires Inv(n) && s !in n.actor(c).servers && !StaleFirst(n, c, s)
    requires forall id :: id in n.actor(c).linkRequests ==> n.actor(c).linkRequests[id] != s
    ensures SafeFrom(Step(n, AskLink(c, s, oo)), c, s)
  {
    hide Inv, Step, Run, Careful, StaleFirst;
    var n1 := Step(n, AskLink(c, s, oo));
    forall es | Careful(n1, es) ensures !Betrayed(Run(n1, es), c, s) {
      var m := HeardFailureIsSafe(n, c, s, oo, es);
      LinkedIsKnown(m, c, s);
    }
  }

  lemma LinkedIsKnown(n: Net, c: Addr, s: Addr)
    requires Inv(n)
    ensures !Betrayed(n, c, s)
  {
    assert Pair(Between(n, c, s), c, s);
  }

  // ---------------------------------------------------------------- a server that has the caller

  /** A message or response on its way will make `s` forget `c`: a notification, a response to
      an unlink request, or a reply that will become one. */
  ghost predicate Leaving(n: Net, c: Addr, s: Addr) {
    || UnlinkNotify in n.chan(c, s)
    || UnlinkResponse(c, true) in n.local(s)
    || (UnlinkReply in n.chan(c, s) && c in n.actor(s).unlinkRequests)
  }

  /** Only what concerns `s` has changed, and what waits for `c` is as it was. */
  ghost predicate SameCaller(n: Net, m: Net, c: Addr) {
    m.actor(c) == n.actor(c) && m.local(c) == n.local(c)
  }

  lemma LinkResponseAside(a: Actor, x: Addr, ok: bool)
    requires a.out == map[]
    ensures OnLinkResponse(a, x, ok, STAY).out == map[] && OnLinkResponse(a, x, ok, STAY).clients == a.clients
  {
    if x in a.servers && ok { InitRefused(a.(servers := a.servers[x := a.servers[x].(state := Linked)])); }
  }

  lemma UnlinkResponseErases(a: Actor, c: Addr)
    ensures c !in OnUnlinkResponse(a, c, true, STAY).clients
  {}

  lemma OneResponseLess(n: Net, c: Addr, s: Addr)
    requires c != s && n.actor(s).out == map[] && n.local(s) != []
    ensures var m := Step(n, DeliverResponse(s, STAY));
            && SameCaller(n, m, c) && m.actor(s).out == map[] && m.local(s) == n.local(s)[1..]
            && (c !in n.actor(s).clients ==> c !in m.actor(s).clients)
            && (n.local(s)[0] == UnlinkResponse(c, true) ==> c !in m.actor(s).clients)
  {
    hide OnLinkResponse, OnUnlinkResponse;
    match n.local(s)[0]
    case LinkResponse(x, _, ok) => LinkResponseAside(n.actor(s), x, ok);
    case UnlinkResponse(x, ok) =>
      UnlinkResponseMeanwhile(n.actor(s), x, ok);
      UnlinkResponseErases(n.actor(s), c);
  }

  lemma {:induction false} RunOnward(n: Net, e: Event, es: seq<Event>)
    ensures Run(n, [e] + es) == Run(Step(n, e), es)
  {
    assert ([e] + es)[1..] == es;
  }

  lemma {:induction false} GoneByResponse(n: Net, c: Addr, s: Addr, i: nat) returns (es: seq<Event>)
    requires c != s && n.actor(s).out == map[]
    requires i < |n.local(s)| && n.local(s)[i] == UnlinkResponse(c, true)
    ensures NoNewLinks(es) && SameCaller(n, Run(n, es), c) && c !in Run(n, es).actor(s).clients
    decreases i
  {
    var e := DeliverResponse(s, STAY);
    var m := Step(n, e);
    OneResponseLess(n, c, s);
    if i == 0 {
      es := [e];
      RunOnward(n, e, []);
      assert [e] + [] == [e];
    } else {
      var rest := GoneByResponse(m, c, s, i - 1);
      es := [e] + rest;
      RunOnward(n, e, rest);
    }
  }

  /** What a message from a client it has does to a server: all but a notification keep it. */
  lemma MessageAside(a: Actor, c: Addr, rid: nat, oo: bool)
    requires c in a.clients
    ensures OnLinkRequest(a, c, rid, oo).clients == a.clients
    ensures OnLinkRequest(a, c, rid, oo).unlinkRequests == a.unlinkRequests
    ensures c !in OnUnlinkNotify(a, c, STAY).clients
    ensures OnUnlinkRequest(a, c, true, STAY).clients == a.clients
    ensures OnUnlinkRequest(a, c, true, STAY).unlinkRequests == a.unlinkRequests
  {}

  lemma StoredAside(n: Net, c: Addr, s: Addr, a: Actor)
    requires c != s && n.chan(c, s) != []
    ensures var m := Store(Pop(n, c, s), s, a);
            && SameCaller(n, m, c) && m.actor(s).out == map[] && m.chan(c, s) == n.chan(c, s)[1..]
            && m.actor(s).clients == a.clients && m.actor(s).unlinkRequests == a.unlinkRequests
            && m.local(s) == n.local(s)
  {}

  lemma OneMessageLess(n: Net, c: Addr, s: Addr)
    requires c != s && n.actor(s).out == map[] && n.chan(c, s) != [] && c in n.actor(s).clients
    ensures var m, head := Step(n, Deliver(c, s, true, STAY)), n.chan(c, s)[0];
            && SameCaller(n, m, c) && m.actor(s).out == map[] && m.chan(c, s) == n.chan(c, s)[1..]
            && (head == UnlinkNotify ==> c !in m.actor(s).clients)
            && (head == UnlinkReply && c in n.actor(s).unlinkRequests ==> UnlinkResponse(c, true) in m.local(s))
            && (head != UnlinkNotify && !(head == UnlinkReply && c in n.actor(s).unlinkRequests) ==>
                  m.actor(s).unlinkRequests == n.actor(s).unlinkRequests)
  {
    hide OnLinkRequest, OnUnlinkNotify, OnUnlinkRequest, Store, Pop;
    var a := n.actor(s);
    match n.chan(c, s)[0]
    case LinkRequest(rid, oo) =>
      MessageAside(a, c, rid, oo);
      StoredAside(n, c, s, OnLinkRequest(a, c, rid, oo));
      PoppedActor(n, c, s);
    case UnlinkNotify =>
      MessageAside(a, c, 0, false);
      StoredAside(n, c, s, OnUnlinkNotify(a, c, STAY));
      PoppedActor(n, c, s);
    case UnlinkRequest =>
      MessageAside(a, c, 0, false);
      StoredAside(n, c, s, OnUnlinkRequest(a, c, true, STAY));
      PoppedActor(n, c, s);
    case LinkReply(rid, ok) =>
      StoredAside(n, c, s, a.(linkRequests := a.linkRequests - {rid}));
      PoppedActor(n, c, s);
    case UnlinkReply =>
      StoredAside(n, c, s, a.(unlinkRequests := a.unlinkRequests - {c}));
      PoppedActor(n, c, s);
  }

  lemma PoppedActor(n: Net, c: Addr, s: Addr)
    requires n.chan(c, s) != []
    ensures Pop(n, c, s).actor == n.actor && Pop(n, c, s).local == n.local
    ensures Pop(n, c, s).chan(c, s) == n.chan(c, s)[1..]
  {}

  /** Delivering up to message `j` of the caller makes the server forget it. */
  lemma {:induction false} GoneByMessage(n: Net, c: Addr, s: Addr, j: nat) returns (es: seq<Event>)
    requires c != s && n.actor(s).out == map[] && j < |n.chan(c, s)|
    requires n.chan(c, s)[j] == UnlinkNotify || (n.chan(c, s)[j] == UnlinkReply && c in n.actor(s).unlinkRequests)
    ensures NoNewLinks(es) && SameCaller(n, Run(n, es), c) && c !in Run(n, es).actor(s).clients
    decreases j
  {
    if c !in n.actor(s).clients {
      return [];
    }
    var e, head := Deliver(c, s, true, STAY), n.chan(c, s)[0];
    var m := Step(n, e);
    OneMessageLess(n, c, s);
    var rest: seq<Event> := [];
    if head == UnlinkReply && c in n.actor(s).unlinkRequests {
      var i :| 0 <= i < |m.local(s)| && m.local(s)[i] == UnlinkResponse(c, true);
      rest := GoneByResponse(m, c, s, i);
    } else if head != UnlinkNotify {
      rest := GoneByMessage(m, c, s, j - 1);
    }
    es := [e] + rest;
    RunOnward(n, e, rest);
  }

  lemma Forgotten(n: Net, c: Addr, s: Addr) returns (es: seq<Event>)
    requires c != s && n.actor(s).out == map[] && Leaving(n, c, s)
    ensures NoNewLinks(es) && SameCaller(n, Run(n, es), c) && c !in Run(n, es).actor(s).clients
  {
    if UnlinkResponse(c, true) in n.local(s) {
      var i :| 0 <= i < |n.local(s)| && n.local(s)[i] == UnlinkResponse(c, true);
      es := GoneByResponse(n, c, s, i);
    } else if UnlinkNotify in n.chan(c, s) {
      var j :| 0 <= j < |n.chan(c, s)| && n.chan(c, s)[j] == UnlinkNotify;
      es := GoneByMessage(n, c, s, j);
    } else {
      var j :| 0 <= j < |n.chan(c, s)| && n.chan(c, s)[j] == UnlinkReply;
      es := GoneByMessage(n, c, s, j);
    }
  }

  lemma {:induction false} NoLinksCareful(n: Net, es: seq<Event>)
    requires NoNewLinks(es)
    ensures Careful(n, es)
    decreases es
  {
    if es != [] {
      assert es[0] in es;
      NoLinksCareful(Step(n, es[0]), es[1..]);
    }
  }

  lemma LeavingAfterLink(n: Net, c: Addr, s: Addr, oo: bool)
    requires c != s && s !in n.actor(c).servers && n.actor(c).out == map[] && n.actor(s).out == map[]
    requires Leaving(n, c, s)
    ensures var n1 := Step(n, AskLink(c, s, oo));
            && n1.actor(c).out == map[] && n1.actor(s).out == map[] && s in n1.actor(c).servers
            && n1.actor(c).deaf == n.actor(c).deaf && n1.local(c) == n.local(c) && Leaving(n1, c, s)
  {
    var n1 := Step(n, AskLink(c, s, oo));
    assert n1.actor(s) == n.actor(s) && n1.local(s) == n.local(s);
    assert forall m :: m in n.chan(c, s) ==> m in n1.chan(c, s);
  }

  /** When the record of the caller is about to go, an old success betrays the caller. */
  lemma StaleSuccessBetraysLeaving(n: Net, c: Addr, s: Addr, oo: bool, k: nat) returns (es: seq<Event>)
    requires Inv(n) && c != s && s !in n.actor(c).servers && !n.actor(c).deaf
    requires Leaving(n, c, s) && StaleAt(n, c, s, k)
    ensures Careful(Step(n, AskLink(c, s, oo)), es) && Betrayed(Run(Step(n, AskLink(c, s, oo)), es), c, s)
  {
    assert ActorInv(n.actor(c)) && ActorInv(n.actor(s));
    LeavingAfterLink(n, c, s, oo);
    var n1 := Step(n, AskLink(c, s, oo));
    var first := Forgotten(n1, c, s);
    NoLinksCareful(n1, first);
    var n2 := Run(n1, first);
    DrainingBetrays(n2, c, s, k);
    DrainIsCareful(n2, c, k + 1);
    RunAppend(n1, first, Drain(c, k + 1));
    es := first + Drain(c, k + 1);
  }

  /** For a server that has the caller in its map, with no unlink reply that comes too late:
      `link` is safe if and only if the next response of that server which the caller will hear
      is not an old success, or nothing on its way makes the server forget the caller. */
  lemma LinkIsSafeWhileKnownIff(n: Net, c: Addr, s: Addr, oo: bool)
    requires Inv(n) && c != s && s !in n.actor(c).servers && c in n.actor(s).clients
    requires forall id :: id in n.actor(c).linkRequests ==> n.actor(c).linkRequests[id] != s
    requires UnlinkReply in n.chan(c, s) ==> c in n.actor(s).unlinkRequests
    ensures SafeFrom(Step(n, AskLink(c, s, oo)), c, s) <==> !StaleFirst(n, c, s) || !Leaving(n, c, s)
  {
    hide Inv, Leaving, Betrayed, Step, Run, Careful, StaleAt;
    if !StaleFirst(n, c, s) {
      SafeUnlessStale(n, c, s, oo);
    } else if Leaving(n, c, s) {
      var k: nat :| StaleAt(n, c, s, k);
      var es := StaleSuccessBetraysLeaving(n, c, s, oo, k);
    } else {
      SafeLinkKeeps(n, c, s, oo);
      var n1 := Step(n, AskLink(c, s, oo));
      forall es | Careful(n1, es) ensures !Betrayed(Run(n1, es), c, s) {
        RunKeeps(n1, es);
        LinkedIsKnown(Run(n1, es), c, s);
      }
    }
  }

  lemma SafeLinkKeeps(n: Net, c: Addr, s: Addr, oo: bool)
    requires Inv(n) && s !in n.actor(c).servers && c in n.actor(s).clients && !Leaving(n, c, s)
    requires forall id :: id in n.actor(c).linkRequests ==> n.actor(c).linkRequests[id] != s
    requires UnlinkReply in n.chan(c, s) ==> c in n.actor(s).unlinkRequests
    ensures Inv(Step(n, AskLink(c, s, oo)))
  {
    hide Inv;
    LinkKeeps(n, c, s, oo);
  }

  // A careful run that leads there: the client 1 asks to be linked with 2, which accepts and
  // is asked to shut down; its unlink request overtakes the success in the client's queue.

  const ASKING_LINK := [
    AskLink(1, 2, false), Deliver(1, 2, false, STAY), AskShutdown(2, true, AGREE)]
  const OVERTAKING := [
    Deliver(2, 1, false, STAY), Deliver(2, 1, false, STAY), Deliver(1, 2, false, STAY), DeliverResponse(2, AGREE)]

  ghost predicate Halfway(n: Net) {
    && n.actor(1) == NEW_ACTOR.(linkRequests := map[0 := 2], servers := map[2 := ServerRec(Linking, 0)], nextId := 1)
    && n.actor(2).life == ShuttingDown && n.actor(2).shutdownRequest && n.actor(2).servers == map[]
    && n.actor(2).clients.Keys == {1} && n.actor(2).unlinkRequests == {1} && n.actor(2).out == map[]
    && n.actor(2).serverShutdown && !n.actor(2).clientShutdown
    && n.chan(1, 2) == [] && n.chan(2, 1) == [LinkReply(0, true), UnlinkRequest]
    && n.local(1) == [] && n.local(2) == []
  }

  ghost predicate Channels(n: Net, up: seq<Msg>, down: seq<Msg>, client: seq<Response>, server: seq<Response>) {
    n.chan(1, 2) == up && n.chan(2, 1) == down && n.local(1) == client && n.local(2) == server
  }

  const ASKING := NEW_ACTOR.(linkRequests := map[0 := 2], servers := map[2 := ServerRec(Linking, 0)], nextId := 1)
  const SERVING := NEW_ACTOR.(clients := map[1 := ClientRec(Active, None, false)])

  lemma AskStep(n: Net)
    requires n == Initial()
    ensures var n' := Step(n, AskLink(1, 2, false));
            n'.actor(1) == ASKING && n'.actor(2) == NEW_ACTOR && Channels(n', [LinkRequest(0, false)], [], [], [])
  {
    assert [] + [LinkRequest(0, false)] == [LinkRequest(0, false)];
  }

  lemma AcceptStep(n: Net)
    requires n.actor(2) == NEW_ACTOR && Channels(n, [LinkRequest(0, false)], [], [], [])
    ensures var n' := Step(n, Deliver(1, 2, false, STAY));
            n'.actor(1) == n.actor(1) && n'.actor(2) == SERVING && Channels(n', [], [LinkReply(0, true)], [], [])
  {
    var a' := Accept(NEW_ACTOR, 1, 0);
    assert OnLinkRequest(NEW_ACTOR, 1, 0, false) == a';
    assert [] + [LinkReply(0, true)] == [LinkReply(0, true)];
    assert a'.(out := map[]) == SERVING;
  }

  lemma AskShutdownStep(n: Net)
    requires n.actor(1) == ASKING && n.actor(2) == SERVING && Channels(n, [], [LinkReply(0, true)], [], [])
    ensures Halfway(Step(n, AskShutdown(2, true, AGREE)))
  {
    AskedServer(SERVING);
    assert [LinkReply(0, true)] + [UnlinkRequest] == [LinkReply(0, true), UnlinkRequest];
  }

  lemma RunThree(n: Net, a: Event, b: Event, c: Event)
    ensures Run(n, [a, b, c]) == Step(Step(Step(n, a), b), c)
    ensures Careful(n, [a, b, c]) <==>
              && (a.AskLink? ==> Fresh(n, a.client, a.server))
              && (b.AskLink? ==> Fresh(Step(n, a), b.client, b.server))
              && (c.AskLink? ==> Fresh(Step(Step(n, a), b), c.client, c.server))
  {
    assert [a, b, c][1..] == [b, c] && [b, c][1..] == [c] && [c][1..] == [];
    var n1 := Step(n, a);
    var n2 := Step(n1, b);
    assert Run(n2, [c]) == Step(n2, c) && Run(n1, [b, c]) == Run(n2, [c]);
    assert Careful(Step(n2, c), []);
    assert Careful(n2, [c]) <==> (c.AskLink? ==> Fresh(n2, c.client, c.server));
    assert Careful(n1, [b, c]) <==> (b.AskLink? ==> Fresh(n1, b.client, b.server)) && Careful(n2, [c]);
  }

  lemma AskingLinkLeadsHalfway()
    ensures Careful(Initial(), ASKING_LINK) && Halfway(Run(Initial(), ASKING_LINK))
  {
    var n := Initial();
    RunThree(n, ASKING_LINK[0], ASKING_LINK[1], ASKING_LINK[2]);
    AskStep(n);
    AcceptStep(Step(n, ASKING_LINK[0]));
    AskShutdownStep(Step(Step(n, ASKING_LINK[0]), ASKING_LINK[1]));
    assert Fresh(n, 1, 2);
  }

  /** A server with the one client 1, asked to shut down, asks that client to leave. */
  lemma AskedServer(a: Actor)
    requires a == SERVING
    ensures var a' := BeginShutdown(a, true, AGREE);
            && a'.life == ShuttingDown && a'.shutdownRequest && a'.servers == map[]
            && a'.clients.Keys == {1} && a'.unlinkRequests == {1} && a'.serverShutdown && !a'.clientShutdown
            && Box(a'.out, 1) == [UnlinkRequest] && Box(a'.out, 2) == []
  {
    var a1 := a.(shutdownRequest := true, life := ShuttingDown);
    var a2 := a1.(clientShutdown := false);
    assert ActiveClients(a2) == {1};
    assert ShutdownContinue(a1, AGREE) == PollFromServer(a2, AGREE);
    var a3 := ServerHandleShutdown(a2);
    assert 1 in a3.clients;
    assert PollFromServer(a2, AGREE) == a3;
    assert [] + [UnlinkRequest] == [UnlinkRequest];
  }

  /** Freshness cannot be dropped from `RunKeeps`: after this careful run one more call of
      `link` leaves the client with a link to a server that is SHUT_DOWN. */
  lemma CarelessLinkBetrays()
    ensures Careful(Initial(), ASKING_LINK + OVERTAKING)
    ensures var n := Run(Initial(), ASKING_LINK + OVERTAKING + [AskLink(1, 2, false)] + Drain(1, 1));
            Betrayed(n, 1, 2) && n.actor(2).life == ShutDown
  {
    CarefulPrefix(ASKING_LINK, OVERTAKING);
    CarelessLinkAfter(ASKING_LINK + OVERTAKING);
  }

  lemma CarelessLinkAfter(es: seq<Event>)
    requires Careful(Initial(), es)
    requires var n := Run(Initial(), es);
             && Inv(n) && 2 !in n.actor(1).servers && 1 !in n.actor(2).clients
             && !n.actor(1).deaf && StaleAt(n, 1, 2, 0)
             && n.actor(2).life == ShutDown
    ensures var n := Run(Initial(), es + [AskLink(1, 2, false)] + Drain(1, 1));
            Betrayed(n, 1, 2) && n.actor(2).life == ShutDown
  {
    hide Run, Careful, Step, Drain, StaleAt, Betrayed, Inv;
    var last := [AskLink(1, 2, false)] + Drain(1, 1);
    CarelessLinkEnds(Run(Initial(), es));
    RunAppend(Initial(), es, last);
    assert es + [AskLink(1, 2, false)] + Drain(1, 1) == es + last;
  }

  lemma CarefulPrefix(xs: seq<Event>, ys: seq<Event>)
    requires xs == ASKING_LINK && ys == OVERTAKING
    ensures Careful(Initial(), xs + ys)
    ensures var n := Run(Initial(), xs + ys);
            && Inv(n) && 2 !in n.actor(1).servers && 1 !in n.actor(2).clients
             && !n.actor(1).deaf && StaleAt(n, 1, 2, 0)
            && n.actor(2).life == ShutDown
  {
    AskingLinkLeadsHalfway();
    OvertakingLeadsToStale(Run(Initial(), xs));
    RunAppend(Initial(), xs, ys);
    InitialInv();
    RunKeeps(Initial(), xs + ys);
  }

  lemma CarelessLinkEnds(n: Net)
    requires Inv(n) && 2 !in n.actor(1).servers && 1 !in n.actor(2).clients
    requires !n.actor(1).deaf && StaleAt(n, 1, 2, 0)
    requires n.actor(2).life == ShutDown
    ensures var n' := Run(n, [AskLink(1, 2, false)] + Drain(1, 1));
            Betrayed(n', 1, 2) && n'.actor(2).life == ShutDown
  {
    hide Inv, StaleAt, Link, Betrayed;
    StaleSuccessBetrays(n, 1, 2, false, 0);
    var n1 := Step(n, AskLink(1, 2, false));
    assert ([AskLink(1, 2, false)] + Drain(1, 1))[1..] == Drain(1, 1);
    assert n1.actor(2) == n.actor(2);
    assert Drain(1, 1)[1..] == [];
    assert Run(n1, Drain(1, 1)) == Step(n1, DeliverResponse(1, STAY));
  }

  lemma ForwardStep(n: Net)
    requires Halfway(n)
    ensures var n' := Step(n, Deliver(2, 1, false, STAY));
            && n'.actor(2) == n.actor(2) && n'.actor(1) == ASKING.(linkRequests := map[])
            && Channels(n', [], [UnlinkRequest], [LinkResponse(2, 0, true)], [])
  {
    assert [LinkReply(0, true), UnlinkRequest][1..] == [UnlinkRequest];
    assert ASKING.linkRequests - {0} == map[];
    var empty: seq<Msg> := [];
    assert Pop(n, 2, 1).chan(1, 2) == [] && empty + empty == empty;
  }

  lemma LeaveStep(n: Net)
    requires n.actor(1) == ASKING.(linkRequests := map[])
    requires Channels(n, [], [UnlinkRequest], [LinkResponse(2, 0, true)], [])
    ensures var n' := Step(n, Deliver(2, 1, false, STAY));
            && n'.actor(2) == n.actor(2) && n'.actor(1).servers == map[] && n'.actor(1).out == map[]
            && !n'.actor(1).deaf
            && Channels(n', [UnlinkReply], [], [LinkResponse(2, 0, true)], [])
  {
    var a := n.actor(1).(unlinkQueue := [2]);
    assert Released(a) == {2};
    assert [] + [UnlinkReply] == [UnlinkReply];
  }

  lemma ReplyStep(n: Net)
    requires 1 in n.actor(2).unlinkRequests && n.actor(2).out == map[]
    requires Channels(n, [UnlinkReply], [], [LinkResponse(2, 0, true)], [])
    ensures var n' := Step(n, Deliver(1, 2, false, STAY));
            && n'.actor(1) == n.actor(1)
            && n'.actor(2) == n.actor(2).(unlinkRequests := n.actor(2).unlinkRequests - {1})
            && Channels(n', [], [], [LinkResponse(2, 0, true)], [UnlinkResponse(1, true)])
  {
    var empty: seq<Msg> := [];
    assert Pop(n, 1, 2).chan(2, 1) == [] && empty + empty == empty;
  }

  lemma FinishStep(n: Net)
    requires var a := n.actor(2);
             && a.life == ShuttingDown && a.shutdownRequest && a.servers == map[] && a.clients.Keys == {1}
             && a.serverShutdown && !a.clientShutdown
    requires Channels(n, [], [], [LinkResponse(2, 0, true)], [UnlinkResponse(1, true)])
    ensures var n' := Step(n, DeliverResponse(2, AGREE));
            && n'.actor(1) == n.actor(1) && n'.local(1) == n.local(1)
            && n'.actor(2).life == ShutDown && n'.actor(2).clients == map[]
  {
    var a := n.actor(2).(clients := n.actor(2).clients - {1});
    assert a.clients == map[];
    assert ServerHandleShutdown(a).clients == map[];
  }

  lemma OvertakingLeadsToStale(n: Net)
    requires Halfway(n)
    ensures Careful(n, OVERTAKING)
    ensures var n' := Run(n, OVERTAKING);
            && 2 !in n'.actor(1).servers && 1 !in n'.actor(2).clients
            && !n'.actor(1).deaf && StaleAt(n', 1, 2, 0)
            && n'.actor(2).life == ShutDown
  {
    var n1 := Step(n, OVERTAKING[0]);
    ForwardStep(n);
    var n2 := Step(n1, OVERTAKING[1]);
    LeaveStep(n1);
    var n3 := Step(n2, OVERTAKING[2]);
    ReplyStep(n2);
    FinishStep(n3);
    assert OVERTAKING[1..] == [OVERTAKING[1], OVERTAKING[2], OVERTAKING[3]];
    RunThree(n1, OVERTAKING[1], OVERTAKING[2], OVERTAKING[3]);
  }

  lemma {:induction false} RunAppend(n: Net, xs: seq<Event>, ys: seq<Event>)
    requires Careful(n, xs)
    ensures Run(n, xs + ys) == Run(Run(n, xs), ys)
    ensures Careful(Run(n, xs), ys) ==> Careful(n, xs + ys)
    decreases xs
  {
    if xs == [] {
      assert xs + ys == ys;
    } else {
      assert (xs + ys)[1..] == xs[1..] + ys;
      RunAppend(Step(n, xs[0]), xs[1..], ys);
    }
  }
}
