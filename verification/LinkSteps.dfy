/** What every event of the link protocol has in common: how the life of an actor goes on, what it
    tells its supervisor, and when it posts a request, a success or an unlink request. */
module LinkSteps {
  import opened LinkActor
  import opened LinkNet
  import opened LinkEffects

  ghost predicate IsLinking(a: Actor, s: Addr) {
    s in a.servers && a.servers[s].state == Linking
  }

  ghost predicate IsPending(a: Actor, c: Addr) {
    c in a.clients && a.clients[c].state == Pending
  }

  /** A request that waits for the start will be answered by it. */
  ghost predicate WillAnswer(a: Actor, c: Addr) {
    IsPending(a, c) ==> a.clients[c].request.Some? && (Rank(a.life) < Rank(Operational) ==> a.serverStart)
  }

  ghost predicate Sane(a: Actor) {
    && (!a.serverShutdown ==> Quitting(a) && a.clients == map[])
    && (a.life == ShutDown ==> !a.serverShutdown)
    && (forall s :: IsLinking(a, s) ==> a.clientInit)
    && (forall c :: WillAnswer(a, c))
  }

  ghost predicate AllSane(n: Net) {
    forall x :: n.actor(x).out == map[] && Sane(n.actor(x))
  }

  // ---------------------------------------------------------------- what an actor becomes

  /** What its supervisor is told when an actor goes from one state of life to another. */
  ghost predicate Tells(a: Actor, a': Actor, asked: bool) {
    && |a.notes| <= |a'.notes| <= |a.notes| + 1 && a'.notes[..|a.notes|] == a.notes
    && (InitDone in a'.notes[|a.notes|..] <==> a.life != Initialized && a'.life == Initialized)
    && (ShutdownDone in a'.notes[|a.notes|..] <==>
          a.life != ShutDown && a'.life == ShutDown && (a.shutdownRequest || asked))
  }

  /** Of one step of an actor: its life, its records, and what it tells its supervisor. */
  ghost predicate Lives(a: Actor, a': Actor, asked: bool) {
    && Sane(a')
    && a.nextId <= a'.nextId
    && Tells(a, a', asked)
    && Rank(a.life) <= Rank(a'.life)
    && (a.life != Operational && a'.life == Operational ==> a.life == Initialized)
    && (a.life != Initialized && a'.life == Initialized ==> NoneLinking(a'))
    && (forall c :: IsPending(a, c) && c in a'.clients ==> a'.clients[c] == a.clients[c])
  }

  lemma PolledSane(m: Actor, a': Actor, v: Votes)
    requires m.life == ShuttingDown && Sane(m) && Polled(m, a', v)
    ensures Sane(a')
  {
    hide Farewell, Discarded, ActiveClients, Box, IsPending, HeldUp;
    forall c ensures WillAnswer(a', c) {
      assert WillAnswer(m, c);
      PolledPending(m, a', v, c);
    }
    forall s ensures !IsLinking(a', s) || a'.clientInit {
      assert IsLinking(m, s) ==> m.clientInit;
    }
  }

  lemma PolledPending(m: Actor, a': Actor, v: Votes, c: Addr)
    requires Polled(m, a', v)
    ensures IsPending(a', c) <==> IsPending(m, c)
    ensures IsPending(m, c) ==> a'.clients[c] == m.clients[c]
  {
    hide Farewell, Discarded, ActiveClients, Box;
  }

  lemma PolledTells(a: Actor, m: Actor, a': Actor, asked: bool, v: Votes)
    requires m.life == ShuttingDown && Polled(m, a', v) && a.life != ShutDown
    requires m.notes == a.notes && m.shutdownRequest == (a.shutdownRequest || asked)
    ensures Tells(a, a', asked) && (a'.life == ShuttingDown || a'.life == ShutDown) && a'.nextId == m.nextId
  {
    hide Farewell, Discarded, ActiveClients, Box, PolledClient;
  }

  lemma PolledLives(a: Actor, m: Actor, a': Actor, asked: bool, v: Votes)
    requires Sane(a) && m.life == ShuttingDown && Sane(m) && Polled(m, a', v)
    requires m.notes == a.notes && m.nextId == a.nextId && m.shutdownRequest == (a.shutdownRequest || asked)
    requires a.life != ShutDown
    requires forall c :: c in m.clients ==> c in a.clients && m.clients[c] == a.clients[c]
    ensures Lives(a, a', asked)
  {
    hide Polled, Sane, Tells;
    PolledSane(m, a', v);
    PolledTells(a, m, a', asked, v);
    forall c | IsPending(a, c) && c in a'.clients ensures a'.clients[c] == a.clients[c] {
      PolledPending(m, a', v, c);
      PolledKeys(m, a', v);
    }
  }

  lemma PolledKeys(m: Actor, a': Actor, v: Votes)
    requires Polled(m, a', v)
    ensures a'.clients.Keys == m.clients.Keys
  {
    hide Farewell, Discarded, ActiveClients, Box, PolledClient;
  }

  /** What an initialization poll makes of `m`. */
  ghost predicate Inited(m: Actor, a': Actor) {
    && a'.servers == m.servers && a'.clients == m.clients && a'.serverStart == m.serverStart
    && a'.serverShutdown == m.serverShutdown && a'.nextId == m.nextId
    && (m.clientInit && !a'.clientInit ==> NoneLinking(m))
    && (|| (a'.life == m.life && a'.notes == m.notes)
        || (m.life == Initializing && a'.life == Initialized && a'.notes == m.notes + [InitDone] && !a'.clientInit))
  }

  ghost predicate NoneLinking(a: Actor) {
    forall s :: !IsLinking(a, s)
  }

  lemma InitsIsInited(n: Net, e: Event, m: Actor, v: Votes)
    requires Inits(n, e, m, v) && m.out == map[]
    ensures Inited(m, Step(n, e).actor(At(e)))
  {
    hide Step;
    PolledIsInited(m, v);
    ActorOf(n, e, InitPolled(m, v));
  }

  lemma PolledIsInited(m: Actor, v: Votes)
    ensures Inited(m, InitPolled(m, v)) && InitPolled(m, v).out == m.out
  {}

  lemma ActorOf(n: Net, e: Event, a: Actor)
    requires Becomes(n, e, a) && a.out == map[]
    ensures Step(n, e).actor(At(e)) == a
  {
    hide Step;
  }

  lemma InitedSane(a: Actor, m: Actor, a': Actor)
    requires Sane(a) && Inited(m, a')
    requires m == a.(initRequest := m.initRequest, servers := m.servers)
    requires forall s :: IsLinking(m, s) ==> IsLinking(a, s)
    ensures Sane(a')
    ensures a.life != Initialized && a'.life == Initialized ==> NoneLinking(a')
  {
    assert forall s :: IsLinking(a', s) <==> IsLinking(m, s);
    forall c ensures WillAnswer(a', c) {
      assert WillAnswer(a, c);
    }
  }

  lemma InitedLives(a: Actor, m: Actor, a': Actor)
    requires Sane(a) && Inited(m, a')
    requires m == a.(initRequest := m.initRequest, servers := m.servers)
    requires forall s :: IsLinking(m, s) ==> IsLinking(a, s)
    ensures Lives(a, a', false)
  {
    hide Sane;
    InitedSane(a, m, a');
  }

  ghost predicate SameOrOther(a: Actor, a': Actor) {
    || a'.notes == a.notes
    || (exists note :: note != InitDone && note != ShutdownDone && a'.notes == a.notes + [note])
  }

  /** Neither its life nor its votes change, and new records are such that they will be answered. */
  ghost predicate Goes(a: Actor, a': Actor) {
    && a'.life == a.life && a'.serverShutdown == a.serverShutdown && a.nextId <= a'.nextId
    && (a.serverStart ==> a'.serverStart) && (a.clientInit ==> a'.clientInit)
    && (forall s :: IsLinking(a', s) ==> IsLinking(a, s) || a'.clientInit)
    && (forall c :: c in a.clients && c in a'.clients ==> a'.clients[c] == a.clients[c])
    && (forall c :: c in a'.clients && c !in a.clients ==> WillAnswer(a', c))
    && (a'.clients != map[] ==> a.clients != map[] || a.serverShutdown)
    && SameOrOther(a, a')
  }

  lemma GoesLives(a: Actor, a': Actor, asked: bool)
    requires Sane(a) && Goes(a, a')
    ensures Lives(a, a', asked)
  {
    GoesSane(a, a');
    GoesTells(a, a', asked);
    hide Sane, Tells, SameOrOther, IsLinking;
  }

  lemma GoesTells(a: Actor, a': Actor, asked: bool)
    requires SameOrOther(a, a') && a'.life == a.life
    ensures Tells(a, a', asked)
  {}

  lemma GoesSane(a: Actor, a': Actor)
    requires Sane(a) && Goes(a, a')
    ensures Sane(a')
  {
    hide SameOrOther, IsLinking;
    forall c ensures WillAnswer(a', c) {
      assert WillAnswer(a, c);
    }
    forall s | IsLinking(a', s) ensures a'.clientInit {
      assert IsLinking(a, s) ==> a.clientInit;
    }
  }

  lemma PollsLives(n: Net, e: Event, a: Actor, m: Actor, v: Votes, asked: bool)
    requires Sane(a) && Sane(m) && m.life == ShuttingDown && a.life != ShutDown && Polls(n, e, m, v)
    requires m.notes == a.notes && m.nextId == a.nextId && m.shutdownRequest == (a.shutdownRequest || asked)
    requires forall c :: c in m.clients ==> c in a.clients && m.clients[c] == a.clients[c]
    ensures Lives(a, Step(n, e).actor(At(e)), asked)
  {
    hide Step, Sane, Polled, Lives;
    var a' :| Polled(m, a', v) && Becomes(n, e, a');
    PolledLives(a, m, a', asked, v);
    LivesAside(a, a', asked);
  }

  lemma LivesAside(a: Actor, a': Actor, asked: bool)
    requires Lives(a, a', asked)
    ensures Lives(a, a'.(out := map[]), asked)
  {
    var b := a'.(out := map[]);
    forall c ensures WillAnswer(b, c) {
      assert WillAnswer(a', c);
    }
    forall s ensures IsLinking(b, s) <==> IsLinking(a', s) {}
  }

  // ---------------------------------------------------------------- what an event posts

  /** What the actor of the event posts to `b`. */
  ghost function Said(n: Net, e: Event, b: Addr): seq<Msg> {
    var was, now := Remaining(n, e, At(e), b), Step(n, e).chan(At(e), b);
    if |was| <= |now| then now[|was|..] else []
  }

  lemma SaidIsBox(n: Net, e: Event, a: Actor)
    requires Becomes(n, e, a)
    ensures Step(n, e).actor(At(e)) == a.(out := map[])
    ensures forall b :: Said(n, e, b) == Box(a.out, b)
    ensures Settles(n, e)
  {
    hide Step, Remaining, Box;
  }

  /** The actor has handed over what it posted, and each channel keeps what was not taken out. */
  ghost predicate Settles(n: Net, e: Event) {
    && Step(n, e).actor(At(e)).out == map[]
    && forall b :: Step(n, e).chan(At(e), b) == Remaining(n, e, At(e), b) + Said(n, e, b)
  }

  /** A success is due to `b`: its request is accepted at once, or was kept until this start. */
  ghost predicate Grants(n: Net, e: Event, b: Addr, rid: nat) {
    var a := n.actor(At(e));
    || (e.TriggerStart? && a.life == Initialized && IsPending(a, b) && a.clients[b].request == Some(rid))
    || (e.Deliver? && e.from == b && n.chan(b, e.to) != []
        && match n.chan(b, e.to)[0]
           case LinkRequest(id, oo) =>
             id == rid && !Quitting(a) && b !in a.clients && (oo ==> a.life == Operational)
           case _ => false)
  }

  /** Successes are posted exactly when they are due, requests by `link` alone and under new ids,
      and clients whose link was accepted at once are the only ones asked to unlink. */
  ghost predicate Speaks(n: Net, e: Event, b: Addr) {
    var a, a', said := n.actor(At(e)), Step(n, e).actor(At(e)), Said(n, e, b);
    && (forall rid :: LinkReply(rid, true) in said <==> Grants(n, e, b, rid))
    && (forall m :: m in said && m.LinkRequest? ==>
          e == AskLink(At(e), b, m.operationalOnly) && m.rid == a.nextId < a'.nextId)
    && (UnlinkRequest in said ==> b in a.clients && a.clients[b].state == Active)
  }

  ghost predicate Asked(e: Event) {
    e.AskShutdown? && e.withRequest
  }

  ghost predicate Fine(n: Net, e: Event) {
    && Settles(n, e)
    && Lives(n.actor(At(e)), Step(n, e).actor(At(e)), Asked(e))
    && (forall b :: Speaks(n, e, b))
  }

  ghost predicate Granting(n: Net, e: Event) {
    e.TriggerStart? || (e.Deliver? && n.chan(e.from, e.to) != [] && n.chan(e.from, e.to)[0].LinkRequest?)
  }

  ghost predicate Mute(m: Msg) {
    !m.LinkReply? && !m.LinkRequest? && m != UnlinkRequest
  }

  lemma MuteSpeaks(n: Net, e: Event, b: Addr)
    requires !Granting(n, e) && forall m :: m in Said(n, e, b) ==> Mute(m)
    ensures Speaks(n, e, b)
  {
    hide Said, Step;
  }

  lemma GoesFine(n: Net, e: Event, m: Actor)
    requires Sane(n.actor(At(e))) && Becomes(n, e, m) && Goes(n.actor(At(e)), m.(out := map[]))
    requires !Granting(n, e) && forall b, w :: w in Box(m.out, b) ==> Mute(w)
    ensures Fine(n, e)
  {
    hide Sane, Goes, Lives, Step, Said, Speaks, Box, Becomes, Granting, Mute;
    SaidIsBox(n, e, m);
    GoesLives(n.actor(At(e)), m.(out := map[]), Asked(e));
    forall b ensures Speaks(n, e, b) {
      MuteSpeaks(n, e, b);
    }
  }

  lemma PollsFine(n: Net, e: Event, m: Actor, v: Votes)
    requires !Granting(n, e) && Polls(n, e, m, v)
    requires var a := n.actor(At(e));
             && Sane(a) && Sane(m) && m.life == ShuttingDown && a.life != ShutDown
             && m.notes == a.notes && m.nextId == a.nextId
             && m.shutdownRequest == (a.shutdownRequest || Asked(e))
             && (forall c :: c in m.clients ==> c in a.clients && m.clients[c] == a.clients[c])
    requires forall b, w :: w in Box(m.out, b) ==> Mute(w)
    ensures Fine(n, e)
  {
    hide Sane, Lives, Step, Said, Speaks, Box, Becomes, Granting, Mute, Polled;
    PollsLives(n, e, n.actor(At(e)), m, v, Asked(e));
    var a' :| Polled(m, a', v) && Becomes(n, e, a');
    SaidIsBox(n, e, a');
    forall b ensures Speaks(n, e, b) {
      PolledSays(m, a', v, b);
      FarewellSpeaks(n, e, b, m);
    }
  }

  lemma PolledSays(m: Actor, a': Actor, v: Votes, b: Addr)
    requires Polled(m, a', v)
    ensures Box(a'.out, b) == Box(m.out, b) || Box(a'.out, b) == Box(m.out, b) + Farewell(m, b)
  {
    hide Farewell, Discarded, ActiveClients, Box, PolledClient;
  }

  lemma FarewellSpeaks(n: Net, e: Event, b: Addr, m: Actor)
    requires !Granting(n, e) && forall w :: w in Box(m.out, b) ==> Mute(w)
    requires Said(n, e, b) == Box(m.out, b) || Said(n, e, b) == Box(m.out, b) + Farewell(m, b)
    requires b in m.clients ==> b in n.actor(At(e)).clients && m.clients[b] == n.actor(At(e)).clients[b]
    ensures Speaks(n, e, b)
  {
    hide Said, Step, Box;
  }

  // ---------------------------------------------------------------- all events

  lemma SilentFine(n: Net, e: Event, m: Actor)
    requires Sane(n.actor(At(e))) && Becomes(n, e, m) && Goes(n.actor(At(e)), m) && m.out == map[]
    requires !Granting(n, e)
    ensures Fine(n, e)
  {
    hide Sane, Goes, Becomes, Granting, Mute, Fine;
    assert m.(out := map[]) == m;
    GoesFine(n, e, m);
  }

  lemma IdleFine(n: Net, e: Event)
    requires Sane(n.actor(At(e))) && n.actor(At(e)).out == map[] && Idles(n, e)
    ensures Fine(n, e)
  {
    IdleStays(n, e);
    hide Sane, Becomes, Fine, Mute, Idles, Goes;
    var a := n.actor(At(e));
    GoesItself(a);
    if e.TriggerStart? {
      SaidIsBox(n, e, a);
      GoesLives(a, a, false);
      NotStarted(n, e);
    } else {
      assert !Granting(n, e) by { IdleGrantsNot(n, e); }
      SilentFine(n, e, a);
    }
  }

  lemma IdleGrantsNot(n: Net, e: Event)
    requires Idles(n, e) && !e.TriggerStart?
    ensures !Granting(n, e)
  {}

  lemma NotStarted(n: Net, e: Event)
    requires e.TriggerStart? && n.actor(e.at).life != Initialized && Settles(n, e) && forall b :: Said(n, e, b) == []
    requires Lives(n.actor(e.at), Step(n, e).actor(e.at), false)
    ensures Fine(n, e)
  {
    hide Step, Lives, Said;
  }

  lemma GoesItself(a: Actor)
    ensures Goes(a, a)
  {}

  lemma LinkFine(n: Net, c: Addr, s: Addr, oo: bool)
    requires Sane(n.actor(c)) && n.actor(c).out == map[] && s !in n.actor(c).servers
    ensures Fine(n, AskLink(c, s, oo))
  {
    hide Step, Sane, Lives, Becomes;
    var a, e := n.actor(c), AskLink(c, s, oo);
    LinkPosts(n, c, s, oo);
    var m := a.(clientInit := true, nextId := a.nextId + 1, linkRequests := a.linkRequests[a.nextId := s],
                servers := a.servers[s := ServerRec(Linking, a.nextId)],
                out := map[s := [LinkRequest(a.nextId, oo)]]);
    SaidIsBox(n, e, m);
    assert Goes(a, m.(out := map[]));
    GoesLives(a, m.(out := map[]), false);
  }

  lemma RequestFine(n: Net, c: Addr, s: Addr, rid: nat, oo: bool, keep: bool, v: Votes)
    requires n.chan(c, s) != [] && n.chan(c, s)[0] == LinkRequest(rid, oo)
    requires Sane(n.actor(s)) && n.actor(s).out == map[]
    ensures Fine(n, Deliver(c, s, keep, v))
  {
    hide Step, Becomes, Sane, Fine, Said;
    var a, e := n.actor(s), Deliver(c, s, keep, v);
    LinkRequestIsAnswered(n, c, s, rid, oo, keep, v);
    if Quitting(a) || c in a.clients {
      GoesItself(a);
      AnswerFine(n, e, rid, oo, a, [LinkReply(rid, false)]);
    } else if oo && Rank(a.life) < Rank(Operational) {
      EnteredGoes(a, c, ClientRec(Pending, Some(rid), false), true);
      AnswerFine(n, e, rid, oo,
                 a.(clients := a.clients[c := ClientRec(Pending, Some(rid), false)], serverStart := true), []);
    } else {
      EnteredGoes(a, c, ClientRec(Active, None, false), a.serverStart);
      AnswerFine(n, e, rid, oo, a.(clients := a.clients[c := ClientRec(Active, None, false)]), [LinkReply(rid, true)]);
    }
  }

  lemma EnteredGoes(a: Actor, c: Addr, r: ClientRec, start: bool)
    requires Sane(a) && !Quitting(a) && c !in a.clients && (a.serverStart ==> start)
    requires r.state == Pending ==> r.request.Some? && start
    ensures Goes(a, a.(clients := a.clients[c := r], serverStart := start))
  {
    var a1 := a.(clients := a.clients[c := r], serverStart := start);
    assert a.serverShutdown;
    hide Sane;
    assert forall s :: IsLinking(a1, s) <==> IsLinking(a, s);
    assert forall x :: x in a1.clients && x !in a.clients ==> x == c;
    assert WillAnswer(a1, c);
    hide WillAnswer;
  }

  /** The request is the first of the channel and is answered with `word`. */
  lemma AnswerFine(n: Net, e: Event, rid: nat, oo: bool, a1: Actor, word: seq<Msg>)
    requires e.Deliver? && n.chan(e.from, e.to) != [] && n.chan(e.from, e.to)[0] == LinkRequest(rid, oo)
    requires var a := n.actor(e.to);
             && Sane(a) && a1.out == map[] && Goes(a, a1)
             && Becomes(n, e, if word == [] then a1 else a1.(out := map[e.from := word]))
             && word == if Quitting(a) || e.from in a.clients then [LinkReply(rid, false)]
                        else if oo && Rank(a.life) < Rank(Operational) then []
                        else [LinkReply(rid, true)]
    ensures Fine(n, e)
  {
    hide Step, Said, Lives, Goes, Becomes, Sane, Speaks;
    var m := if word == [] then a1 else a1.(out := map[e.from := word]);
    assert m.(out := map[]) == a1;
    SaidIsBox(n, e, m);
    GoesLives(n.actor(e.to), a1, false);
    AnswerSpeaks(n, e, rid, oo, word);
  }

  lemma AnswerSpeaks(n: Net, e: Event, rid: nat, oo: bool, word: seq<Msg>)
    requires e.Deliver? && n.chan(e.from, e.to) != [] && n.chan(e.from, e.to)[0] == LinkRequest(rid, oo)
    requires var a := n.actor(e.to);
             word == if Quitting(a) || e.from in a.clients then [LinkReply(rid, false)]
                     else if oo && Rank(a.life) < Rank(Operational) then []
                     else [LinkReply(rid, true)]
    requires forall b :: Said(n, e, b) == if b == e.from then word else []
    ensures forall b :: Speaks(n, e, b)
  {
    hide Step, Said;
  }

  lemma NoneMore(clients: map<Addr, ClientRec>, left: map<Addr, ClientRec>)
    requires forall c :: c in left ==> c in clients
    ensures clients == map[] ==> left == map[]
  {
    if clients == map[] {
      assert forall c :: c !in left;
      assert left == map[];
    }
  }

  lemma RemovedGoes(a: Actor, m: Actor)
    requires Sane(a) && m == a.(clients := m.clients, unlinkRequests := m.unlinkRequests)
    requires forall c :: c in m.clients ==> c in a.clients && m.clients[c] == a.clients[c]
    ensures Goes(a, m) && Sane(m)
  {
    assert forall s :: IsLinking(m, s) <==> IsLinking(a, s);
    NoneMore(a.clients, m.clients);
    GoesSane(a, m);
  }

  lemma RemovedFine(n: Net, e: Event, m: Actor, v: Votes)
    requires Sane(n.actor(At(e))) && n.actor(At(e)).out == map[] && !Granting(n, e) && !e.AskShutdown?
    requires var a := n.actor(At(e));
             && m == a.(clients := m.clients, unlinkRequests := m.unlinkRequests)
             && (forall c :: c in m.clients ==> c in a.clients && m.clients[c] == a.clients[c])
    requires if m.shutdownRequest then Polls(n, e, m, v) else Becomes(n, e, m)
    ensures Fine(n, e)
  {
    hide Step, Sane, Goes, Becomes, Granting, Mute, Fine, Polled;
    RemovedGoes(n.actor(At(e)), m);
    if m.shutdownRequest && m.life == ShuttingDown {
      PollsFine(n, e, m, v);
    } else {
      SilentFine(n, e, m);
    }
  }

  lemma NotifyFine(n: Net, c: Addr, s: Addr, keep: bool, v: Votes)
    requires n.chan(c, s) != [] && n.chan(c, s)[0] == UnlinkNotify
    requires Sane(n.actor(s)) && n.actor(s).out == map[]
    ensures Fine(n, Deliver(c, s, keep, v))
  {
    hide Step, Becomes, Polls, Fine, Sane;
    var a, e := n.actor(s), Deliver(c, s, keep, v);
    NotifyDrops(n, c, s, keep, v);
    if c in a.clients {
      RemovedFine(n, e, a.(clients := a.clients - {c},
                           unlinkRequests := a.unlinkRequests - if a.clients[c].asked then {c} else {}), v);
    } else {
      GoesItself(a);
      SilentFine(n, e, a);
    }
  }

  lemma UnlinkResponseFine(n: Net, s: Addr, c: Addr, ok: bool, v: Votes)
    requires n.local(s) != [] && n.local(s)[0] == UnlinkResponse(c, ok)
    requires Sane(n.actor(s)) && n.actor(s).out == map[]
    ensures Fine(n, DeliverResponse(s, v))
  {
    hide Step, Becomes, Polls, Fine, Sane;
    var a, e := n.actor(s), DeliverResponse(s, v);
    UnlinkResponseDrops(n, s, c, ok, v);
    if !ok {
      var m := a.(notes := a.notes + if a.shutdownRequest then [ShutdownFailed] else []);
      assert a.notes + [] == a.notes;
      assert Goes(a, m);
      SilentFine(n, e, m);
    } else if c in a.clients {
      RemovedFine(n, e, a.(clients := a.clients - {c}), v);
    } else {
      GoesItself(a);
      SilentFine(n, e, a);
    }
  }

  lemma UnlinkedGoes(a: Actor, queue: seq<Addr>)
    ensures var m := Unlinked(a, queue);
            && Goes(a, m.(out := map[])) && (Sane(a) ==> Sane(m))
            && m.life == a.life && m.notes == a.notes && m.nextId == a.nextId && m.clients == a.clients
            && m.shutdownRequest == a.shutdownRequest
            && (forall b, w :: w in Box(m.out, b) ==> Mute(w))
  {
    var m := Unlinked(a, queue);
    forall s ensures IsLinking(m, s) ==> IsLinking(a, s) {}
    if Sane(a) {
      forall c ensures WillAnswer(m, c) {
        assert WillAnswer(a, c);
      }
    }
  }

  lemma QueuedGoes(a: Actor, queue: seq<Addr>)
    ensures Goes(a, a.(unlinkQueue := queue))
  {}

  lemma ForgetFine(n: Net, e: Event, s: Addr, v: Votes)
    requires Sane(n.actor(At(e))) && n.actor(At(e)).out == map[] && !Granting(n, e) && !e.AskShutdown?
    requires Forgets(n, e, n.actor(At(e)), s, v)
    ensures Fine(n, e)
  {
    hide Step, Becomes, Polls, Fine, Sane, Unlinked, Granting, Mute, Goes;
    var a := n.actor(At(e));
    var queue := a.unlinkQueue + [s];
    if s !in a.servers {
      GoesItself(a);
      SilentFine(n, e, a);
    } else if a.clients != map[] {
      QueuedGoes(a, queue);
      SilentFine(n, e, a.(unlinkQueue := queue));
    } else if a.life == ShuttingDown {
      UnlinkedGoes(a, queue);
      PollsFine(n, e, Unlinked(a, queue), v);
    } else {
      UnlinkedFine(n, e, queue);
    }
  }

  lemma UnlinkedFine(n: Net, e: Event, queue: seq<Addr>)
    requires Sane(n.actor(At(e))) && !Granting(n, e)
    requires var a := n.actor(At(e));
             var m := Unlinked(a, queue);
             Becomes(n, e, m.(notes := m.notes + if Quitting(a) then [] else [ShutdownTrigger]))
    ensures Fine(n, e)
  {
    hide Step, Becomes, Fine, Sane, Unlinked, Granting, Mute, Goes;
    var a := n.actor(At(e));
    UnlinkedGoes(a, queue);
    var m := Unlinked(a, queue);
    var m1 := m.(notes := m.notes + if Quitting(a) then [] else [ShutdownTrigger]);
    assert m.notes + [] == m.notes;
    GoesAside(a, m.(out := map[]), m1.(out := map[]));
    GoesFine(n, e, m1);
  }

  lemma GoesAside(a: Actor, m: Actor, m1: Actor)
    requires Goes(a, m) && m.notes == a.notes
    requires m1 == m.(notes := m1.notes) && (m1.notes == m.notes || m1.notes == m.notes + [ShutdownTrigger])
    ensures Goes(a, m1)
  {
    assert forall s :: IsLinking(m1, s) <==> IsLinking(m, s);
    assert forall c :: IsPending(m1, c) <==> IsPending(m, c);
    assert forall c :: WillAnswer(m1, c) <==> WillAnswer(m, c);
  }

  lemma UnlinkRequestFine(n: Net, s: Addr, c: Addr, keep: bool, v: Votes)
    requires n.chan(s, c) != [] && n.chan(s, c)[0] == UnlinkRequest
    requires Sane(n.actor(c)) && n.actor(c).out == map[]
    ensures Fine(n, Deliver(s, c, keep, v))
  {
    hide Step, Becomes, Forgets, Fine, Sane;
    var a, e := n.actor(c), Deliver(s, c, keep, v);
    UnlinkRequestForgets(n, s, c, keep, v);
    if keep {
      assert Goes(a, a.(held := a.held + {s}));
      SilentFine(n, e, a.(held := a.held + {s}));
    } else {
      ForgetFine(n, e, s, v);
    }
  }

  lemma OutcomeFine(n: Net, e: Event)
    requires Sane(n.actor(At(e))) && n.actor(At(e)).out == map[] && Outcome(n, e) != []
    ensures Fine(n, e)
  {
    hide Step, Becomes, Fine, Sane, Granting, Outcome, Goes;
    OutcomesArrive(n, e);
    OutcomeGrantsNot(n, e);
    var a, r := n.actor(At(e)), Outcome(n, e)[0];
    var m := if r.LinkResponse? then a.(linkRequests := a.linkRequests - {r.rid})
             else a.(unlinkRequests := a.unlinkRequests - {r.client});
    ConcludedGoes(a, m);
    SilentFine(n, e, m);
  }

  lemma OutcomeGrantsNot(n: Net, e: Event)
    requires Outcome(n, e) != []
    ensures !Granting(n, e)
  {}

  lemma ConcludedGoes(a: Actor, m: Actor)
    requires m == a.(linkRequests := m.linkRequests, unlinkRequests := m.unlinkRequests)
    ensures Goes(a, m)
  {
    assert forall s :: IsLinking(m, s) <==> IsLinking(a, s);
  }

  lemma InitsFine(n: Net, e: Event, m: Actor, v: Votes)
    requires Sane(n.actor(At(e))) && n.actor(At(e)).out == map[] && !Granting(n, e) && !e.AskShutdown?
    requires Inits(n, e, m, v) && m == n.actor(At(e)).(initRequest := m.initRequest, servers := m.servers)
    requires forall s :: IsLinking(m, s) ==> IsLinking(n.actor(At(e)), s)
    ensures Fine(n, e)
  {
    InitsIsInited(n, e, m, v);
    PolledIsInited(m, v);
    SaidIsBox(n, e, InitPolled(m, v));
    hide Step, Sane, Lives, Said, Inited, Inits, Becomes, Speaks, Granting;
    InitedLives(n.actor(At(e)), m, Step(n, e).actor(At(e)));
    forall b ensures Speaks(n, e, b) {
      MuteSpeaks(n, e, b);
    }
  }

  lemma LinkResponseFine(n: Net, c: Addr, s: Addr, rid: nat, ok: bool, v: Votes)
    requires n.local(c) != [] && n.local(c)[0] == LinkResponse(s, rid, ok)
    requires Sane(n.actor(c)) && n.actor(c).out == map[]
    ensures Fine(n, DeliverResponse(c, v))
  {
    hide Step, Becomes, Inits, Fine, Sane;
    var a, e := n.actor(c), DeliverResponse(c, v);
    LinkResponseRecords(n, c, s, rid, ok, v);
    if a.deaf || s !in a.servers {
      GoesItself(a);
      SilentFine(n, e, a);
    } else if ok {
      InitsFine(n, e, a.(servers := a.servers[s := ServerRec(Linked, a.servers[s].rid)]), v);
    } else {
      var m := a.(servers := a.servers - {s}, initRequest := false,
                  notes := a.notes + if a.initRequest then [InitFailed] else []);
      assert a.notes + [] == a.notes;
      assert Goes(a, m);
      SilentFine(n, e, m);
    }
  }

  lemma StartFine(n: Net, s: Addr)
    requires Sane(n.actor(s)) && n.actor(s).out == map[] && n.actor(s).life == Initialized
    ensures Fine(n, TriggerStart(s))
  {
    StartAnswers(n, s);
    var a, e := n.actor(s), TriggerStart(s);
    StartLives(a);
    hide Step, Lives, Sane;
    forall b ensures Speaks(n, e, b) {
      assert WillAnswer(a, b) by { SaneAnswers(a, b); }
    }
  }

  lemma SaneAnswers(a: Actor, c: Addr)
    requires Sane(a)
    ensures WillAnswer(a, c)
  {}

  lemma StartLives(a: Actor)
    requires Sane(a) && a.life == Initialized
    ensures Lives(a, a.(life := Operational, serverStart := false), false)
  {
    var a' := a.(life := Operational, serverStart := false);
    forall c ensures WillAnswer(a', c) {
      assert WillAnswer(a, c);
    }
    forall s ensures IsLinking(a', s) <==> IsLinking(a, s) {}
  }

  lemma ShutdownFine(n: Net, x: Addr, asked: bool, v: Votes)
    requires Sane(n.actor(x)) && n.actor(x).out == map[]
    ensures Fine(n, PollShutdown(x, v)) && Fine(n, AskShutdown(x, asked, v))
  {
    var a := n.actor(x);
    ShutdownPolls(n, x, asked, v);
    var m := a.(life := ShuttingDown, shutdownRequest := a.shutdownRequest || asked);
    GoesItself(a);
    QuittingSane(a, m);
    hide Step, Becomes, Fine, Sane, Mute;
    if a.life == ShuttingDown {
      PollsFine(n, PollShutdown(x, v), a, v);
    } else {
      SilentFine(n, PollShutdown(x, v), a);
    }
    if Quitting(a) {
      SilentFine(n, AskShutdown(x, asked, v), a);
    } else {
      PollsFine(n, AskShutdown(x, asked, v), m, v);
    }
  }

  lemma QuittingSane(a: Actor, m: Actor)
    requires Sane(a) && m == a.(life := ShuttingDown, shutdownRequest := m.shutdownRequest)
    ensures Sane(m)
  {
    forall c ensures WillAnswer(m, c) {
      assert WillAnswer(a, c);
    }
    forall s ensures IsLinking(m, s) <==> IsLinking(a, s) {}
  }

  lemma SwitchFine(n: Net, x: Addr)
    requires Sane(n.actor(x)) && n.actor(x).out == map[]
    ensures Fine(n, Boot(x)) && Fine(n, GiveUp(x))
  {
    hide Step, Fine, Sane, Becomes, Goes, Quitting;
    var a := n.actor(x);
    SwitchesOn(n, x);
    DeafGoes(a, a.(deaf := a.deaf || Quitting(a)));
    SilentFine(n, GiveUp(x), a.(deaf := a.deaf || Quitting(a)));
    BootFine(n, x);
  }

  lemma BootFine(n: Net, x: Addr)
    requires Sane(n.actor(x)) && n.actor(x).out == map[]
    ensures Fine(n, Boot(x))
  {
    hide Step, Lives, Sane, Said, Speaks, Becomes, Quitting;
    var a := n.actor(x);
    SwitchesOn(n, x);
    var m := a.(life := if a.life == New then Initializing else a.life);
    SaidIsBox(n, Boot(x), m);
    BootLives(a, m);
    assert m.(out := map[]) == m;
    forall b ensures Speaks(n, Boot(x), b) {
      MuteSpeaks(n, Boot(x), b);
    }
  }

  lemma DeafGoes(a: Actor, m: Actor)
    requires m == a.(deaf := m.deaf)
    ensures Goes(a, m)
  {
    assert forall s :: IsLinking(m, s) <==> IsLinking(a, s);
  }

  lemma BootLives(a: Actor, m: Actor)
    requires Sane(a) && m == a.(life := if a.life == New then Initializing else a.life)
    ensures Lives(a, m, false)
  {
    forall c ensures WillAnswer(m, c) {
      assert WillAnswer(a, c);
    }
    forall s ensures IsLinking(m, s) <==> IsLinking(a, s) {}
  }

  /** Every event, whatever the votes. */
  lemma EventIsFine(n: Net, e: Event)
    requires Sane(n.actor(At(e))) && n.actor(At(e)).out == map[]
    ensures Fine(n, e)
  {
    hide Step, Sane, Fine;
    if Idles(n, e) {
      IdleFine(n, e);
    } else {
      ActiveIsFine(n, e);
    }
  }

  lemma ActiveIsFine(n: Net, e: Event)
    requires Sane(n.actor(At(e))) && n.actor(At(e)).out == map[] && !Idles(n, e)
    ensures Fine(n, e)
  {
    hide Step, Sane, Fine, Forgets;
    match e
    case AskLink(c, s, oo) => LinkFine(n, c, s, oo);
    case Deliver(p, q, keep, v) =>
      match n.chan(p, q)[0] {
        case LinkRequest(rid, oo) => RequestFine(n, p, q, rid, oo, keep, v);
        case UnlinkNotify => NotifyFine(n, p, q, keep, v);
        case UnlinkRequest => UnlinkRequestFine(n, p, q, keep, v);
        case _ => OutcomeFine(n, e);
      }
    case DeliverResponse(x, v) =>
      match n.local(x)[0] {
        case LinkResponse(s, rid, ok) => LinkResponseFine(n, x, s, rid, ok, v);
        case UnlinkResponse(c, ok) => UnlinkResponseFine(n, x, c, ok, v);
      }
    case LinkTimeout(_, _) => OutcomeFine(n, e);
    case UnlinkTimeout(_, _) => OutcomeFine(n, e);
    case ForgetHeld(x, s, v) =>
      HeldForgets(n, x, s, v);
      ForgetFine(n, e, s, v);
    case Boot(x) => SwitchFine(n, x);
    case GiveUp(x) => SwitchFine(n, x);
    case AskInit(x, v) =>
      InitPolls(n, x, v);
      InitsFine(n, e, n.actor(x).(initRequest := true), v);
    case PollInit(x, v) =>
      InitPolls(n, x, v);
      InitsFine(n, e, n.actor(x), v);
    case TriggerStart(x) => StartFine(n, x);
    case AskShutdown(x, asked, v) => ShutdownFine(n, x, asked, v);
    case PollShutdown(x, v) => ShutdownFine(n, x, false, v);
  }
}
