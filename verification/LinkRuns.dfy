/** What the effects of single events add up to over runs of the link protocol: when a success is
    posted, when an actor is initialized or shut down, and what its supervisor is told. */
module LinkRuns {
  import opened LinkActor
  import opened LinkNet
  import opened LinkEffects
  import opened LinkSteps

  lemma StepSane(n: Net, e: Event)
    requires AllSane(n)
    ensures AllSane(Step(n, e))
  {
    hide Step, Sane, Speaks, Remaining, Said;
    EventIsFine(n, e);
    OthersStay(n, e);
  }

  lemma {:induction false} RunSane(n: Net, es: seq<Event>)
    requires AllSane(n)
    ensures AllSane(Run(n, es))
    decreases es
  {
    hide Step, AllSane;
    if es != [] {
      StepSane(n, es[0]);
      RunSane(Step(n, es[0]), es[1..]);
    }
  }

  lemma InitialSane()
    ensures AllSane(Initial())
  {}

  /** The ids of the requests under way are ids that `c` has handed out. */
  ghost predicate Numbered(n: Net, c: Addr, s: Addr) {
    forall m :: m in n.chan(c, s) && m.LinkRequest? ==> m.rid < n.actor(c).nextId
  }

  /** Request `rid` of `c` to `s` asks for an OPERATIONAL server. */
  ghost predicate Eager(n: Net, c: Addr, s: Addr, rid: nat) {
    && rid < n.actor(c).nextId
    && forall m :: m in n.chan(c, s) && m.LinkRequest? && m.rid == rid ==> m.operationalOnly
  }

  /** What a step can do to the link requests under way from `c` to `s`. */
  lemma RequestsUnderWay(n: Net, e: Event, c: Addr, s: Addr)
    requires AllSane(n)
    ensures n.actor(c).nextId <= Step(n, e).actor(c).nextId
    ensures forall m :: m in Step(n, e).chan(c, s) && m.LinkRequest? ==>
              m in n.chan(c, s)
              || (e == AskLink(c, s, m.operationalOnly) && m.rid == n.actor(c).nextId < Step(n, e).actor(c).nextId)
  {
    hide Step, Sane, Said, Tells, IsPending, IsLinking;
    EventIsFine(n, e);
    OthersStay(n, e);
    assert forall m :: m in Remaining(n, e, c, s) ==> m in n.chan(c, s);
    if At(e) == c {
      assert Speaks(n, e, s);
    }
  }

  lemma StepNumbered(n: Net, e: Event, c: Addr, s: Addr)
    requires AllSane(n) && Numbered(n, c, s)
    ensures Numbered(Step(n, e), c, s)
  {
    hide Step, AllSane;
    RequestsUnderWay(n, e, c, s);
  }

  lemma {:induction false} RunNumbered(n: Net, es: seq<Event>, c: Addr, s: Addr)
    requires AllSane(n) && Numbered(n, c, s)
    ensures Numbered(Run(n, es), c, s)
    decreases es
  {
    hide Step, AllSane, Numbered;
    if es != [] {
      StepSane(n, es[0]);
      StepNumbered(n, es[0], c, s);
      RunNumbered(Step(n, es[0]), es[1..], c, s);
    }
  }

  lemma StepEager(n: Net, e: Event, c: Addr, s: Addr, rid: nat)
    requires AllSane(n) && Eager(n, c, s, rid)
    ensures Eager(Step(n, e), c, s, rid)
  {
    hide Step, AllSane;
    RequestsUnderWay(n, e, c, s);
  }

  lemma {:induction false} RunEager(n: Net, es: seq<Event>, c: Addr, s: Addr, rid: nat)
    requires AllSane(n) && Eager(n, c, s, rid)
    ensures Eager(Run(n, es), c, s, rid)
    decreases es
  {
    hide Step, AllSane, Eager;
    if es != [] {
      StepSane(n, es[0]);
      StepEager(n, es[0], c, s, rid);
      RunEager(Step(n, es[0]), es[1..], c, s, rid);
    }
  }

  lemma AskedIsEager(n: Net, c: Addr, s: Addr)
    requires AllSane(n) && Numbered(n, c, s) && s !in n.actor(c).servers
    ensures Eager(Step(n, AskLink(c, s, true)), c, s, n.actor(c).nextId)
  {
    hide Step, Sane;
    RequestsUnderWay(n, AskLink(c, s, true), c, s);
    LinkPosts(n, c, s, true);
  }

  /** In every run, the success of a link asked for with `operational_only` is posted only in a step
      after which the server is OPERATIONAL. */
  lemma SuccessOnlyWhenOperational(before: seq<Event>, c: Addr, s: Addr, after: seq<Event>, e: Event)
    ensures var n := Run(Initial(), before);
            var m := Run(Step(n, AskLink(c, s, true)), after);
            s !in n.actor(c).servers && At(e) == s && LinkReply(n.actor(c).nextId, true) in Said(m, e, c) ==>
              Step(m, e).actor(s).life == Operational
  {
    hide Run, Step, AllSane, Numbered, Said, Eager;
    var n := Run(Initial(), before);
    InitialSane();
    RunSane(Initial(), before);
    InitialNumbered(c, s);
    RunNumbered(Initial(), before, c, s);
    if s !in n.actor(c).servers {
      AskedIsEager(n, c, s);
      StepSane(n, AskLink(c, s, true));
      RunEager(Step(n, AskLink(c, s, true)), after, c, s, n.actor(c).nextId);
      RunSane(Step(n, AskLink(c, s, true)), after);
      if At(e) == s {
        EagerSuccess(Run(Step(n, AskLink(c, s, true)), after), e, c, n.actor(c).nextId);
      }
    }
  }

  lemma InitialNumbered(c: Addr, s: Addr)
    ensures Numbered(Initial(), c, s)
  {}

  lemma EagerSuccess(n: Net, e: Event, c: Addr, rid: nat)
    requires AllSane(n) && Eager(n, c, At(e), rid)
    ensures LinkReply(rid, true) in Said(n, e, c) ==> Step(n, e).actor(At(e)).life == Operational
  {
    hide Step, Sane, Said, Becomes;
    EventIsFine(n, e);
    assert Speaks(n, e, c);
    if LinkReply(rid, true) in Said(n, e, c) {
      if e.TriggerStart? {
        StartAnswers(n, e.at);
      } else {
        GrantedNow(n, e, c, rid);
      }
    }
  }

  lemma GrantedNow(n: Net, e: Event, c: Addr, rid: nat)
    requires AllSane(n) && Grants(n, e, c, rid) && !e.TriggerStart? && n.actor(At(e)).life == Operational
    ensures Step(n, e).actor(At(e)).life == Operational
  {
    hide Step, Becomes;
    var a, oo := n.actor(e.to), n.chan(c, e.to)[0].operationalOnly;
    LinkRequestIsAnswered(n, c, e.to, rid, oo, e.keep, e.votes);
    SaidIsBox(n, e, a.(clients := a.clients[c := ClientRec(Active, None, false)],
                       out := map[c := [LinkReply(rid, true)]]));
  }

  /** Starting an initialized actor answers each link request that waits for it once, and posts
      nothing else, in every run. */
  lemma StartAnswersWaiting(es: seq<Event>, s: Addr)
    ensures var n := Run(Initial(), es);
            var a, n' := n.actor(s), Step(n, TriggerStart(s));
            a.life == Initialized ==>
              && n'.actor(s).life == Operational && n'.actor(s).clients == a.clients
              && (forall b :: IsPending(a, b) ==> a.clients[b].request.Some?)
              && (forall b :: n'.chan(s, b) == n.chan(s, b) +
                    if IsPending(a, b) then [LinkReply(a.clients[b].request.value, true)] else [])
  {
    hide Run, Step;
    var n := Run(Initial(), es);
    InitialSane();
    RunSane(Initial(), es);
    var a := n.actor(s);
    if a.life == Initialized {
      OneSane(n, s);
      StartAnswers(n, s);
      forall b ensures IsPending(a, b) ==> a.clients[b].request.Some? && a.serverStart {
        SaneAnswers(a, b);
      }
    }
  }

  /** An initialization poll ends the phase exactly when every plugin agrees and no link is being
      established, in every run. */
  lemma InitializedIff(es: seq<Event>, x: Addr, v: Votes)
    ensures var n := Run(Initial(), es);
            var a, a' := n.actor(x), Step(n, PollInit(x, v)).actor(x);
            (a'.life == Initialized <==>
               a.life == Initialized
               || (a.life == Initializing && a.initRequest && v.initBefore && v.initAfter && NoneLinking(a)))
            && a'.servers == a.servers && a'.clients == a.clients
  {
    hide Run, Step, NoneLinking, WillAnswer;
    var n := Run(Initial(), es);
    InitialSane();
    RunSane(Initial(), es);
    InitPolls(n, x, v);
    PolledIsInited(n.actor(x), v);
    InitEndsIff(n.actor(x), v);
  }

  lemma InitEndsIff(a: Actor, v: Votes)
    requires Sane(a)
    ensures InitPolled(a, v).life == Initialized <==>
              a.life == Initialized
              || (a.life == Initializing && a.initRequest && v.initBefore && v.initAfter && NoneLinking(a))
  {
    hide WillAnswer;
    if a.life == Initializing && a.initRequest && v.initBefore && NoneLinking(a) {
      assert forall s :: s in a.servers ==> !IsLinking(a, s);
    }
    if exists s :: s in a.servers && a.servers[s].state == Linking {
      var s :| s in a.servers && a.servers[s].state == Linking;
      assert IsLinking(a, s);
    }
  }

  /** A shutdown poll ends the phase exactly when every other plugin agrees and the actor has no
      client, whatever servers it has, in every run. */
  lemma ShutDownIff(es: seq<Event>, x: Addr, v: Votes)
    ensures var n := Run(Initial(), es);
            var a, a' := n.actor(x), Step(n, PollShutdown(x, v)).actor(x);
            a'.life == ShutDown <==>
              a.life == ShutDown
              || (a.life == ShuttingDown && v.shutdownBefore && v.shutdownAfter && a.clients == map[])
  {
    hide Run, Step, Sane;
    var n := Run(Initial(), es);
    InitialSane();
    RunSane(Initial(), es);
    ShutdownPolls(n, x, false, v);
    var a := n.actor(x);
    if a.life == ShuttingDown {
      hide Polled;
      var a' :| Polled(a, a', v) && Becomes(n, PollShutdown(x, v), a');
      PollEndsIff(a, a', v);
    }
  }

  lemma PollEndsIff(a: Actor, a': Actor, v: Votes)
    requires Sane(a) && a.life == ShuttingDown && Polled(a, a', v)
    ensures a'.life == ShutDown <==> v.shutdownBefore && v.shutdownAfter && a.clients == map[]
  {
    hide Farewell, Discarded, ActiveClients, Box, PolledClient, WillAnswer, IsLinking;
  }

  // What the supervisor is told

  ghost predicate ToldSo(a: Actor) {
    && multiset(a.notes)[InitDone] <= 1 && multiset(a.notes)[ShutdownDone] <= 1
    && (InitDone in a.notes ==> Rank(a.life) >= Rank(Initialized))
    && (a.life == Initialized || a.life == Operational ==> InitDone in a.notes)
    && (ShutdownDone in a.notes ==> a.life == ShutDown)
  }

  lemma StepTells(a: Actor, a': Actor, asked: bool)
    requires Lives(a, a', asked) && ToldSo(a)
    ensures ToldSo(a')
  {
    hide Sane, IsLinking, IsPending;
    var told := a'.notes[|a.notes|..];
    assert a'.notes == a.notes + told;
    assert multiset(a'.notes) == multiset(a.notes) + multiset(told);
    assert told == [] || told == [told[0]];
  }

  /** Over a whole run an actor reports the end of its initialization once, exactly if it is reached,
      and the end of its shutdown at most once. */
  lemma {:induction false} ToldOnce(n: Net, es: seq<Event>)
    requires AllSane(n) && forall x :: ToldSo(n.actor(x))
    ensures forall x :: ToldSo(Run(n, es).actor(x))
    decreases es
  {
    hide Step, AllSane, Lives, ToldSo, Sane;
    if es != [] {
      StepSane(n, es[0]);
      OthersStay(n, es[0]);
      OneSane(n, At(es[0]));
      EventIsFine(n, es[0]);
      StepTells(n.actor(At(es[0])), Step(n, es[0]).actor(At(es[0])), Asked(es[0]));
      ToldOnce(Step(n, es[0]), es[1..]);
    }
  }

  lemma OneSane(n: Net, x: Addr)
    requires AllSane(n)
    ensures Sane(n.actor(x)) && n.actor(x).out == map[]
  {}

  lemma ToldOnceEver(es: seq<Event>)
    ensures forall x :: ToldSo(Run(Initial(), es).actor(x))
  {
    InitialSane();
    ToldOnce(Initial(), es);
  }

  // Postponed clients

  /** The server has the client in its map all the time. */
  ghost predicate Stays(n: Net, es: seq<Event>, s: Addr, c: Addr)
    decreases es
  {
    c in n.actor(s).clients && (es != [] ==> Stays(Step(n, es[0]), es[1..], s, c))
  }

  lemma StepPostponed(n: Net, e: Event, s: Addr, c: Addr)
    requires AllSane(n) && IsPending(n.actor(s), c) && UnlinkRequest !in n.chan(s, c)
    requires c in Step(n, e).actor(s).clients
    ensures Step(n, e).actor(s).clients[c] == n.actor(s).clients[c]
    ensures UnlinkRequest !in Step(n, e).chan(s, c)
  {
    hide Step, Sane, Said, Tells;
    OthersStay(n, e);
    assert forall m :: m in Remaining(n, e, s, c) ==> m in n.chan(s, c);
    if At(e) == s {
      EventIsFine(n, e);
      assert Speaks(n, e, c);
    }
  }

  /** A client whose link was postponed is never asked to unlink: as long as it does not leave by
      itself its record stays as it is, no request is sent to it and the server is not shut down. */
  lemma {:induction false} PostponedIsNeverAsked(n: Net, es: seq<Event>, s: Addr, c: Addr)
    requires AllSane(n) && IsPending(n.actor(s), c) && UnlinkRequest !in n.chan(s, c) && Stays(n, es, s, c)
    ensures var n' := Run(n, es);
            && c in n'.actor(s).clients && n'.actor(s).clients[c] == n.actor(s).clients[c]
            && UnlinkRequest !in n'.chan(s, c) && n'.actor(s).life != ShutDown
    decreases es
  {
    hide Step, AllSane;
    if es != [] {
      StepSane(n, es[0]);
      StepPostponed(n, es[0], s, c);
      PostponedIsNeverAsked(Step(n, es[0]), es[1..], s, c);
    } else {
      OneSane(n, s);
    }
  }

  // ---------------------------------------------------------------- whole handshakes

  const AGREED := Votes(true, true, true, true)

  /** Nothing is under way between `c` and `s`, and no response waits for `c`. */
  ghost predicate Calm(n: Net, c: Addr, s: Addr) {
    n.chan(c, s) == [] && n.chan(s, c) == [] && n.local(c) == []
  }

  /** `c` has asked `s` for a link under the id `rid`; its request is all that is under way. */
  ghost predicate Requested(n: Net, c: Addr, s: Addr, rid: nat, oo: bool) {
    && n.chan(c, s) == [LinkRequest(rid, oo)] && n.chan(s, c) == [] && n.local(c) == []
    && n.actor(c).servers.Keys >= {s} && n.actor(c).servers[s] == ServerRec(Linking, rid)
    && rid in n.actor(c).linkRequests
  }

  /** The answer of `s` is all that is under way. */
  ghost predicate Replied(n: Net, c: Addr, s: Addr, rid: nat, ok: bool) {
    && n.chan(c, s) == [] && n.chan(s, c) == [LinkReply(rid, ok)] && n.local(c) == []
    && n.actor(c).servers.Keys >= {s} && n.actor(c).servers[s] == ServerRec(Linking, rid)
    && rid in n.actor(c).linkRequests
  }

  lemma Requests(n: Net, c: Addr, s: Addr, oo: bool)
    requires AllSane(n) && c != s && Calm(n, c, s) && s !in n.actor(c).servers
    ensures var e := AskLink(c, s, oo);
            && Requested(Step(n, e), c, s, n.actor(c).nextId, oo)
            && Step(n, e).actor(s) == n.actor(s) && Step(n, e).actor(c).deaf == n.actor(c).deaf
  {
    hide Step, Sane;
    LinkPosts(n, c, s, oo);
    OthersStay(n, AskLink(c, s, oo));
    OutcomesArrive(n, AskLink(c, s, oo));
  }

  /** A request that a server can accept is answered with a success. */
  lemma Replies(n: Net, c: Addr, s: Addr, rid: nat, oo: bool)
    requires AllSane(n) && c != s && Requested(n, c, s, rid, oo)
    requires !Quitting(n.actor(s)) && c !in n.actor(s).clients && (oo ==> n.actor(s).life == Operational)
    ensures var n' := Step(n, Deliver(c, s, false, AGREED));
            && Replied(n', c, s, rid, true) && n'.actor(c) == n.actor(c)
            && n'.actor(s).clients == n.actor(s).clients[c := ClientRec(Active, None, false)]
            && n'.actor(s).life == n.actor(s).life
  {
    hide Step, Sane;
    LinkRequestIsAnswered(n, c, s, rid, oo, false, AGREED);
    OthersStay(n, Deliver(c, s, false, AGREED));
  }

  /** The supervisor of the client passes the answer on. */
  ghost predicate Waits(n: Net, c: Addr, s: Addr, rid: nat, ok: bool) {
    && n.chan(c, s) == [] && n.chan(s, c) == [] && n.local(c) == [LinkResponse(s, rid, ok)]
    && n.actor(c).servers.Keys >= {s} && n.actor(c).servers[s] == ServerRec(Linking, rid)
  }

  lemma Passes(n: Net, c: Addr, s: Addr, rid: nat, ok: bool)
    requires AllSane(n) && c != s && Replied(n, c, s, rid, ok)
    ensures var n' := Step(n, Deliver(s, c, false, AGREED));
            && Waits(n', c, s, rid, ok) && n'.actor(s) == n.actor(s) && n'.actor(c).deaf == n.actor(c).deaf
  {
    hide Step, Sane;
    OutcomesArrive(n, Deliver(s, c, false, AGREED));
    OthersStay(n, Deliver(s, c, false, AGREED));
  }

  /** The client hears the answer. */
  lemma Hears(n: Net, c: Addr, s: Addr, rid: nat, ok: bool)
    requires AllSane(n) && c != s && Waits(n, c, s, rid, ok) && !n.actor(c).deaf
    ensures var n' := Step(n, DeliverResponse(c, AGREED));
            && Calm(n', c, s) && n'.actor(s) == n.actor(s)
            && if ok then s in n'.actor(c).servers && n'.actor(c).servers[s].state == Linked
               else s !in n'.actor(c).servers
  {
    hide Step, Sane;
    LinkResponseRecords(n, c, s, rid, ok, AGREED);
    OutcomesArrive(n, DeliverResponse(c, AGREED));
    OthersStay(n, DeliverResponse(c, AGREED));
  }

  function Handshake(c: Addr, s: Addr): seq<Event> {
    [Deliver(s, c, false, AGREED), DeliverResponse(c, AGREED)]
  }

  lemma Completes(n: Net, c: Addr, s: Addr, rid: nat, ok: bool)
    requires AllSane(n) && c != s && Replied(n, c, s, rid, ok) && !n.actor(c).deaf
    ensures var n' := Run(n, Handshake(c, s));
            && Calm(n', c, s) && n'.actor(s) == n.actor(s)
            && if ok then s in n'.actor(c).servers && n'.actor(c).servers[s].state == Linked
               else s !in n'.actor(c).servers
  {
    hide Step, AllSane, Calm, Replied, Waits;
    Passes(n, c, s, rid, ok);
    var n1 := Step(n, Deliver(s, c, false, AGREED));
    StepSane(n, Deliver(s, c, false, AGREED));
    Hears(n1, c, s, rid, ok);
    TwoSteps(n, Deliver(s, c, false, AGREED), DeliverResponse(c, AGREED));
  }

  lemma TwoSteps(n: Net, e: Event, e': Event)
    ensures Run(n, [e, e']) == Step(Step(n, e), e')
  {
    hide Step;
    var n1 := Step(n, e);
    assert [e, e'][1..] == [e'] && [e'][1..] == [];
    assert Run(n1, [e']) == Run(Step(n1, e'), []);
  }

  lemma RunOn(n: Net, e: Event, es: seq<Event>)
    ensures Run(n, [e] + es) == Run(Step(n, e), es)
  {
    hide Step;
    assert ([e] + es)[1..] == es;
  }

  /** The handshake completes: a link asked of a server that can accept it is OPERATIONAL on both
      sides once the three messages have been delivered. */
  lemma LinkCompletes(n: Net, c: Addr, s: Addr, oo: bool)
    requires AllSane(n) && c != s && Calm(n, c, s) && s !in n.actor(c).servers && !n.actor(c).deaf
    requires !Quitting(n.actor(s)) && c !in n.actor(s).clients && (oo ==> n.actor(s).life == Operational)
    ensures var n' := Run(n, [AskLink(c, s, oo)] + ([Deliver(c, s, false, AGREED)] + Handshake(c, s)));
            && Calm(n', c, s)
            && s in n'.actor(c).servers && n'.actor(c).servers[s].state == Linked
            && n'.actor(s).clients == n.actor(s).clients[c := ClientRec(Active, None, false)]
  {
    hide Step, Run, AllSane, Calm, Replied, Requested, Quitting;
    var rid, ask, ans := n.actor(c).nextId, AskLink(c, s, oo), Deliver(c, s, false, AGREED);
    Requests(n, c, s, oo);
    StepSane(n, ask);
    Replies(Step(n, ask), c, s, rid, oo);
    StepSane(Step(n, ask), ans);
    Completes(Step(Step(n, ask), ans), c, s, rid, true);
    RunOn(n, ask, [ans] + Handshake(c, s));
    RunOn(Step(n, ask), ans, Handshake(c, s));
  }

  /** A request that is refused leaves no link. */
  lemma RefusedCompletes(n: Net, c: Addr, s: Addr, oo: bool)
    requires AllSane(n) && c != s && Calm(n, c, s) && s !in n.actor(c).servers && !n.actor(c).deaf
    requires Quitting(n.actor(s)) || c in n.actor(s).clients
    ensures var n' := Run(n, [AskLink(c, s, oo)] + ([Deliver(c, s, false, AGREED)] + Handshake(c, s)));
            Calm(n', c, s) && s !in n'.actor(c).servers && n'.actor(s) == n.actor(s)
  {
    hide Step, Run, AllSane, Calm, Replied, Requested, Quitting;
    var rid, ask, ans := n.actor(c).nextId, AskLink(c, s, oo), Deliver(c, s, false, AGREED);
    Requests(n, c, s, oo);
    StepSane(n, ask);
    Refuses(Step(n, ask), c, s, rid, oo);
    StepSane(Step(n, ask), ans);
    Completes(Step(Step(n, ask), ans), c, s, rid, false);
    RunOn(n, ask, [ans] + Handshake(c, s));
    RunOn(Step(n, ask), ans, Handshake(c, s));
  }

  lemma Refuses(n: Net, c: Addr, s: Addr, rid: nat, oo: bool)
    requires AllSane(n) && c != s && Requested(n, c, s, rid, oo)
    requires Quitting(n.actor(s)) || c in n.actor(s).clients
    ensures var n' := Step(n, Deliver(c, s, false, AGREED));
            Replied(n', c, s, rid, false) && n'.actor(c) == n.actor(c) && n'.actor(s) == n.actor(s)
  {
    hide Step, Sane;
    LinkRequestIsAnswered(n, c, s, rid, oo, false, AGREED);
    OthersStay(n, Deliver(c, s, false, AGREED));
  }

  /** A link asked for with `operational_only` of a server that is initialized but not started waits,
      and the start of the server completes it; the server's record stays PENDING. */
  lemma PostponedCompletes(n: Net, c: Addr, s: Addr)
    requires AllSane(n) && c != s && Calm(n, c, s) && s !in n.actor(c).servers && !n.actor(c).deaf
    requires n.actor(s).life == Initialized && c !in n.actor(s).clients
    ensures var n1 := Run(n, [AskLink(c, s, true), Deliver(c, s, false, AGREED)]);
            var n' := Run(n1, [TriggerStart(s)] + Handshake(c, s));
            && Calm(n1, c, s) && n1.actor(c).servers.Keys >= {s} && n1.actor(c).servers[s].state == Linking
            && Calm(n', c, s) && n'.actor(c).servers.Keys >= {s} && n'.actor(c).servers[s].state == Linked
            && IsPending(n'.actor(s), c) && n'.actor(s).life == Operational
  {
    hide Step, Run, AllSane, Calm, Replied, Requested, IsPending;
    var rid, ask, ans := n.actor(c).nextId, AskLink(c, s, true), Deliver(c, s, false, AGREED);
    Requests(n, c, s, true);
    StepSane(n, ask);
    Postpones(Step(n, ask), c, s, rid);
    var n1 := Step(Step(n, ask), ans);
    StepSane(Step(n, ask), ans);
    TwoSteps(n, ask, ans);
    StartReplies(n1, c, s, rid);
    StepSane(n1, TriggerStart(s));
    Completes(Step(n1, TriggerStart(s)), c, s, rid, true);
    RunOn(n1, TriggerStart(s), Handshake(c, s));
  }

  /** The request is kept by a server that has not started. */
  ghost predicate Kept(n: Net, c: Addr, s: Addr, rid: nat) {
    && n.actor(c).servers.Keys >= {s} && n.actor(c).servers[s] == ServerRec(Linking, rid)
    && rid in n.actor(c).linkRequests
    && c in n.actor(s).clients && n.actor(s).clients[c] == ClientRec(Pending, Some(rid), false)
    && n.actor(s).life == Initialized
  }

  lemma Postpones(n: Net, c: Addr, s: Addr, rid: nat)
    requires AllSane(n) && c != s && Requested(n, c, s, rid, true)
    requires n.actor(s).life == Initialized && c !in n.actor(s).clients
    ensures var n' := Step(n, Deliver(c, s, false, AGREED));
            Calm(n', c, s) && Kept(n', c, s, rid) && n'.actor(c) == n.actor(c)
  {
    hide Step, Sane;
    LinkRequestIsAnswered(n, c, s, rid, true, false, AGREED);
    OthersStay(n, Deliver(c, s, false, AGREED));
  }

  lemma StartReplies(n: Net, c: Addr, s: Addr, rid: nat)
    requires AllSane(n) && c != s && Calm(n, c, s) && Kept(n, c, s, rid)
    ensures var n' := Step(n, TriggerStart(s));
            && Replied(n', c, s, rid, true) && n'.actor(c) == n.actor(c)
            && IsPending(n'.actor(s), c) && n'.actor(s).life == Operational
  {
    hide Step, Sane;
    OneSane(n, s);
    SaneAnswers(n.actor(s), c);
    StartAnswers(n, s);
    OthersStay(n, TriggerStart(s));
  }

  /** `s` has asked its only client `c`, which has no clients itself, to unlink. */
  ghost predicate Leaving(n: Net, c: Addr, s: Addr) {
    && n.actor(s).life == ShuttingDown && n.actor(s).shutdownRequest
    && n.actor(s).servers == map[] && n.actor(s).clients.Keys == {c} && c in n.actor(s).unlinkRequests
    && n.local(s) == []
  }

  lemma AsksToUnlink(n: Net, c: Addr, s: Addr)
    requires AllSane(n) && c != s && n.chan(s, c) == [] && n.chan(c, s) == [] && n.local(s) == []
    requires !Quitting(n.actor(s)) && n.actor(s).servers == map[]
    requires n.actor(s).clients.Keys == {c} && n.actor(s).clients[c].state == Active
    ensures var n' := Step(n, AskShutdown(s, true, AGREED));
            && Leaving(n', c, s) && n'.chan(s, c) == [UnlinkRequest] && n'.chan(c, s) == []
            && n'.actor(c) == n.actor(c)
  {
    hide Step, Sane, Polled;
    var e := AskShutdown(s, true, AGREED);
    ShutdownPolls(n, s, true, AGREED);
    OthersStay(n, e);
    OutcomesArrive(n, e);
    OneSane(n, s);
    VotesLater(n.actor(s));
    var a := n.actor(s);
    var m := a.(life := ShuttingDown, shutdownRequest := true);
    assert Polls(n, e, m, AGREED);
    var a' :| Polled(m, a', AGREED) && Becomes(n, e, a');
    PolledAsks(m, a', c);
  }

  lemma PolledAsks(m: Actor, a': Actor, c: Addr)
    requires Polled(m, a', AGREED) && m.life == ShuttingDown && m.serverShutdown && m.servers == map[]
    requires m.clients.Keys == {c} && m.clients[c].state == Active
    ensures a'.life == ShuttingDown && a'.shutdownRequest == m.shutdownRequest && a'.servers == map[]
    ensures a'.clients.Keys == {c} && c in a'.unlinkRequests
    ensures Box(a'.out, c) == Box(m.out, c) + [UnlinkRequest]
  {
    hide Box, Discarded;
    assert c in ActiveClients(m);
    assert Farewell(m, c) == [UnlinkRequest];
  }

  lemma VotesLater(a: Actor)
    requires Sane(a) && !Quitting(a)
    ensures a.serverShutdown
  {}

  /** The client answers, drops the server and tells its supervisor that it wants to shut down. */
  lemma AnswersUnlink(n: Net, c: Addr, s: Addr)
    requires AllSane(n) && c != s && n.chan(s, c) == [UnlinkRequest] && n.chan(c, s) == []
    requires s in n.actor(c).servers && n.actor(c).clients == map[] && !Quitting(n.actor(c))
    ensures var n' := Step(n, Deliver(s, c, false, AGREED));
            && n'.chan(c, s) == [UnlinkReply] && n'.chan(s, c) == [] && n'.actor(s) == n.actor(s)
            && n'.local(s) == n.local(s)
            && s !in n'.actor(c).servers && n'.actor(c).notes == n.actor(c).notes + [ShutdownTrigger]
  {
    hide Step, Sane;
    UnlinkRequestForgets(n, s, c, false, AGREED);
    OthersStay(n, Deliver(s, c, false, AGREED));
  }

  lemma UnlinkPasses(n: Net, c: Addr, s: Addr)
    requires AllSane(n) && c != s && Leaving(n, c, s) && n.chan(c, s) == [UnlinkReply] && n.chan(s, c) == []
    ensures var n' := Step(n, Deliver(c, s, false, AGREED));
            && n'.local(s) == [UnlinkResponse(c, true)] && n'.actor(c) == n.actor(c)
            && n'.actor(s).life == ShuttingDown && n'.actor(s).shutdownRequest
            && n'.actor(s).servers == map[] && n'.actor(s).clients.Keys == {c}
            && n'.actor(s).notes == n.actor(s).notes && n'.chan(c, s) == [] && n'.chan(s, c) == []
  {
    hide Step, Sane;
    OutcomesArrive(n, Deliver(c, s, false, AGREED));
    OthersStay(n, Deliver(c, s, false, AGREED));
  }

  lemma LastClientGone(n: Net, c: Addr, s: Addr)
    requires AllSane(n) && c != s && n.local(s) == [UnlinkResponse(c, true)]
    requires n.actor(s).life == ShuttingDown && n.actor(s).shutdownRequest
    requires n.actor(s).servers == map[] && n.actor(s).clients.Keys == {c}
    ensures var n' := Step(n, DeliverResponse(s, AGREED));
            && n'.actor(s).life == ShutDown && n'.actor(s).clients == map[]
            && n'.actor(s).notes == n.actor(s).notes + [ShutdownDone] && n'.actor(c) == n.actor(c)
  {
    hide Step, Sane, Farewell, Discarded, ActiveClients, Box;
    var e := DeliverResponse(s, AGREED);
    UnlinkResponseDrops(n, s, c, true, AGREED);
    OthersStay(n, e);
    var m := n.actor(s).(clients := n.actor(s).clients - {c});
    assert m.clients == map[];
    assert Polls(n, e, m, AGREED);
    var a' :| Polled(m, a', AGREED) && Becomes(n, e, a');
    assert a'.clients.Keys == {};
  }

  /** The unlink handshake completes: a server with one client, linked to it and without clients of
      its own, is shut down and has said so once three messages have been delivered. */
  lemma UnlinkCompletes(n: Net, c: Addr, s: Addr)
    requires AllSane(n) && c != s && n.chan(s, c) == [] && n.chan(c, s) == [] && n.local(s) == []
    requires !Quitting(n.actor(s)) && n.actor(s).servers == map[]
    requires n.actor(s).clients.Keys == {c} && n.actor(s).clients[c].state == Active
    requires s in n.actor(c).servers && n.actor(c).clients == map[] && !Quitting(n.actor(c))
    ensures var n' := Run(n, [AskShutdown(s, true, AGREED)] + ([Deliver(s, c, false, AGREED)] +
                             [Deliver(c, s, false, AGREED), DeliverResponse(s, AGREED)]));
            && n'.actor(s).life == ShutDown && n'.actor(s).clients == map[]
            && ShutdownDone in n'.actor(s).notes
            && s !in n'.actor(c).servers && ShutdownTrigger in n'.actor(c).notes
  {
    hide Step, Run, AllSane, Quitting;
    var e1, e2, e3 := AskShutdown(s, true, AGREED), Deliver(s, c, false, AGREED), Deliver(c, s, false, AGREED);
    var n1, n2 := Step(n, e1), Step(Step(n, e1), e2);
    AsksToUnlink(n, c, s);
    StepSane(n, e1);
    AnswersUnlink(n1, c, s);
    StepSane(n1, e2);
    UnlinkPasses(n2, c, s);
    StepSane(n2, e3);
    LastClientGone(Step(n2, e3), c, s);
    TwoSteps(n2, e3, DeliverResponse(s, AGREED));
    RunOn(n1, e2, [e3, DeliverResponse(s, AGREED)]);
    RunOn(n, e1, [e2] + [e3, DeliverResponse(s, AGREED)]);
  }
}
