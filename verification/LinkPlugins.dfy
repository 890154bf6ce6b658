/** The two link plugins of an actor, with the actor state they work on, as an object whose
    handlers update it in place. Every handler is proved to do what module LinkActor says;
    the order in which an unordered map is walked is left to the choice of `:|`. */
module LinkPlugins {
  import opened LinkActor
  import opened Sets

  class Peer {
    var life: Life
    var initRequest: bool
    var shutdownRequest: bool
    var servers: map<Addr, ServerRec>
    var unlinkQueue: seq<Addr>
    var held: set<Addr>
    var clients: map<Addr, ClientRec>
    var clientInit: bool
    var clientShutdown: bool
    var serverShutdown: bool
    var serverStart: bool
    var linkRequests: map<nat, Addr>
    var unlinkRequests: set<Addr>
    var nextId: nat
    var out: Outbox
    var notes: seq<Note>
    var deaf: bool

    ghost function State(): Actor
      reads this
    {
      Actor(life, initRequest, shutdownRequest, servers, unlinkQueue, held, clients, clientInit, clientShutdown,
            serverShutdown, serverStart, linkRequests, unlinkRequests, nextId, out, notes, deaf)
    }

    constructor ()
      ensures State() == NEW_ACTOR
    {
      life, initRequest, shutdownRequest := New, false, false;
      servers, unlinkQueue, held, clients := map[], [], {}, map[];
      clientInit, clientShutdown, serverShutdown, serverStart := true, true, true, false;
      linkRequests, unlinkRequests, nextId, out, notes, deaf := map[], {}, 0, map[], [], false;
    }

    method PostMessage(to: Addr, m: Msg)
      modifies this`out
      ensures out == PostAll(old(out), {to}, m)
    {
      out := out[to := Box(out, to) + [m]];
    }

    method TriggerShutdown()
      modifies this`notes
      ensures State() == DoShutdown(old(State()))
    {
      if Rank(life) < Rank(ShuttingDown) {
        notes := notes + [ShutdownTrigger];
      }
    }

    // -------------------------------------------------------------- link_client_plugin_t

    /** `request_builder_t::send`: the supervisor of the actor takes note of the request. */
    method SendLinkRequest(server: Addr, operationalOnly: bool) returns (rid: nat)
      modifies this`linkRequests, this`nextId, this`out
      ensures rid == old(nextId) && nextId == rid + 1
      ensures linkRequests == old(linkRequests)[rid := server]
      ensures out == PostAll(old(out), {server}, LinkRequest(rid, operationalOnly))
    {
      rid := nextId;
      nextId := nextId + 1;
      linkRequests := linkRequests[rid := server];
      PostMessage(server, LinkRequest(rid, operationalOnly));
    }

    method AskLink(server: Addr, operationalOnly: bool)
      requires server !in servers
      modifies this
      ensures State() == Link(old(State()), server, operationalOnly)
    {
      hide PostAll;
      var rid := SendLinkRequest(server, operationalOnly);
      servers := servers[server := ServerRec(Linking, rid)];
      clientInit := true;
    }

    method HandleInit() returns (done: bool)
      ensures done <==> !SomeLinking(State())
    {
      var todo := servers.Keys;
      while todo != {}
        invariant todo <= servers.Keys
        invariant forall s :: s in servers && s !in todo ==> servers[s].state != Linking
        decreases todo
      {
        ghost var some := Member(todo);
        var s :| s in todo;
        if servers[s].state == Linking {
          return false;
        }
        todo := todo - {s};
      }
      return true;
    }

    method FinishInit()
      modifies this
      ensures State() == InitFinish(old(State()))
    {
      notes := notes + [InitDone];
      initRequest := false;
      life := Initialized;
    }

    method ContinueInit(v: Votes)
      modifies this
      ensures State() == InitContinue(old(State()), v)
    {
      hide SomeLinking, InitFinish;
      if life != Initializing || !initRequest || !v.initBefore {
        return;
      }
      if clientInit {
        var done := HandleInit();
        if !done {
          return;
        }
        clientInit := false;
      }
      if v.initAfter {
        FinishInit();
      }
    }

    method LinkAnswered(server: Addr, ok: bool, v: Votes)
      modifies this
      ensures State() == OnLinkResponse(old(State()), server, ok, v)
    {
      if server !in servers {
        return;
      }
      if !ok {
        servers := servers - {server};
        if initRequest {
          notes := notes + [InitFailed];
          initRequest := false;
        } else if life == ShuttingDown {
          TriggerShutdown();
        }
      } else {
        servers := servers[server := servers[server].(state := Linked)];
        if initRequest {
          ContinueInit(v);
        }
      }
    }

    /** The loop of `try_forget_links`. */
    method AnswerQueue()
      modifies this`servers, this`out
      ensures State() == AnswerUnlinks(old(State()))
    {
      hide PostAll;
      ghost var servers0, out0 := servers, out;
      ghost var done: set<Addr> := {};
      NothingDone(out0, linkRequests, servers0, UnlinkReply);
      for i := 0 to |unlinkQueue|
        invariant done == set s | s in servers0 && s in unlinkQueue[..i]
        invariant servers == servers0 - done
        invariant out == PostAll(out0, done, UnlinkReply)
      {
        var server := unlinkQueue[i];
        assert unlinkQueue[..i + 1] == unlinkQueue[..i] + [server];
        if server in servers {
          PostMessage(server, UnlinkReply);
          servers := servers - {server};
          PostMore(out0, done, server, UnlinkReply);
          done := done + {server};
        }
      }
      assert unlinkQueue[..|unlinkQueue|] == unlinkQueue;
    }

    method TryForget(attemptShutdown: bool, v: Votes)
      modifies this
      ensures State() == if attemptShutdown then TryForgetLinksAndShutdown(old(State()), v)
                         else TryForgetLinks(old(State()))
      decreases if attemptShutdown then 3 else 0
    {
      if clients == map[] {
        var unlinkRequested := unlinkQueue != [];
        AnswerQueue();
        if attemptShutdown {
          if life == ShuttingDown {
            ContinueShutdown(v);
          } else if unlinkRequested {
            TriggerShutdown();
          }
        }
      }
    }

    method Forget(server: Addr, v: Votes)
      modifies this
      ensures State() == ForgetLink(old(State()), server, v)
    {
      if server in servers {
        unlinkQueue := unlinkQueue + [server];
        TryForget(true, v);
      }
    }

    method UnlinkAsked(server: Addr, keep: bool, v: Votes)
      modifies this
      ensures State() == OnUnlinkRequest(old(State()), server, keep, v)
    {
      if keep {
        held := held + {server};
      } else {
        Forget(server, v);
      }
    }

    method LeaveOne(server: Addr)
      requires server in servers
      modifies this`servers, this`out, this`linkRequests
      ensures servers == old(servers) - {server}
      ensures out == PostAll(old(out), {server}, UnlinkNotify)
      ensures linkRequests == old(linkRequests) - LinkingIds(old(servers), {server})
    {
      DiscardOne(linkRequests, servers, server);
      PostMessage(server, UnlinkNotify);
      if servers[server].state == Linking {
        linkRequests := linkRequests - {servers[server].rid};
      }
      servers := servers - {server};
    }

    /** The loop of `handle_shutdown`, which erases while it walks. */
    method LeaveAll()
      modifies this`servers, this`out, this`linkRequests
      ensures State() == Leave(old(State()))
    {
      hide PostAll, LinkingIds;
      ghost var servers0, out0, requests0 := servers, out, linkRequests;
      ghost var done: set<Addr> := {};
      NothingDone(out0, requests0, servers0, UnlinkNotify);
      while servers.Keys != {}
        invariant done <= servers0.Keys && servers == servers0 - done
        invariant out == PostAll(out0, done, UnlinkNotify)
        invariant linkRequests == requests0 - LinkingIds(servers0, done)
        decreases servers.Keys
      {
        ghost var some := Member(servers.Keys);
        var server :| server in servers.Keys;
        DiscardMore(requests0, servers0, done, server);
        LeaveOne(server);
        PostMore(out0, done, server, UnlinkNotify);
        done := done + {server};
      }
      assert done == servers0.Keys;
    }

    method ClientVote() returns (done: bool)
      modifies this
      ensures State() == ClientHandleShutdown(old(State()))
      ensures done <==> servers == map[]
      decreases 1
    {
      if servers == map[] {
        return true;
      }
      TryForget(false, Votes(false, false, false, false));
      if clients == map[] {
        LeaveAll();
      }
      return servers == map[];
    }

    // -------------------------------------------------------------- link_server_plugin_t

    method EnterClient(client: Addr, rid: nat, wait: bool)
      modifies this`clients, this`serverStart, this`out
      ensures State() == if wait then Postpone(old(State()), client, rid) else Accept(old(State()), client, rid)
    {
      hide PostAll;
      if wait {
        clients := clients[client := ClientRec(Pending, Some(rid), false)];
        serverStart := true;
      } else {
        clients := clients[client := ClientRec(Active, None, false)];
        PostMessage(client, LinkReply(rid, true));
      }
    }

    method LinkAsked(client: Addr, rid: nat, operationalOnly: bool)
      modifies this
      ensures State() == OnLinkRequest(old(State()), client, rid, operationalOnly)
    {
      hide PostAll, Postpone, Accept;
      if Rank(life) > Rank(Operational) {
        PostMessage(client, LinkReply(rid, false));
        return;
      }
      if client in clients {
        PostMessage(client, LinkReply(rid, false));
        return;
      }
      EnterClient(client, rid, operationalOnly && Rank(life) < Rank(Operational));
    }

    method UnlinkNotified(client: Addr, v: Votes)
      modifies this
      ensures State() == OnUnlinkNotify(old(State()), client, v)
    {
      if client !in clients {
        return;
      }
      if clients[client].asked {
        unlinkRequests := unlinkRequests - {client};
      }
      clients := clients - {client};
      if life == ShuttingDown && shutdownRequest {
        ContinueShutdown(v);
      }
    }

    method UnlinkAnswered(client: Addr, ok: bool, v: Votes)
      modifies this
      ensures State() == OnUnlinkResponse(old(State()), client, ok, v)
    {
      if !ok && shutdownRequest {
        notes := notes + [ShutdownFailed];
        return;
      }
      if !ok || client !in clients {
        return;
      }
      clients := clients - {client};
      if life == ShuttingDown && shutdownRequest {
        ContinueShutdown(v);
      }
    }

    method AskOne(client: Addr)
      requires client in clients && clients[client].state == Active
      modifies this`clients, this`unlinkRequests, this`out
      ensures clients == old(clients)[client := old(clients)[client].(state := Unlinking, asked := true)]
      ensures unlinkRequests == old(unlinkRequests) + {client}
      ensures out == PostAll(old(out), {client}, UnlinkRequest)
    {
      PostMessage(client, UnlinkRequest);
      unlinkRequests := unlinkRequests + {client};
      clients := clients[client := clients[client].(state := Unlinking, asked := true)];
    }

    /** The loop of `handle_shutdown`. */
    method AskAll()
      modifies this`clients, this`unlinkRequests, this`out
      ensures var asked := ActiveClients(old(State()));
              && clients == AskedToUnlink(old(clients), asked)
              && unlinkRequests == old(unlinkRequests) + asked
              && out == PostAll(old(out), asked, UnlinkRequest)
    {
      hide PostAll, AskedToUnlink;
      ghost var clients0, out0, requests0 := clients, out, unlinkRequests;
      NobodyAsked(clients0);
      ghost var asked: set<Addr> := {};
      var todo := clients.Keys;
      NothingDone(out0, linkRequests, servers, UnlinkRequest);
      while todo != {}
        invariant todo <= clients0.Keys
        invariant asked == set c | c in clients0 && c !in todo && clients0[c].state == Active
        invariant clients == AskedToUnlink(clients0, asked)
        invariant unlinkRequests == requests0 + asked
        invariant out == PostAll(out0, asked, UnlinkRequest)
        decreases todo
      {
        ghost var some := Member(todo);
        var client :| client in todo;
        AskMore(clients0, asked, client);
        if clients[client].state == Active {
          AskOne(client);
          PostMore(out0, asked, client, UnlinkRequest);
          asked := asked + {client};
        }
        todo := todo - {client};
      }
      assert asked == ActiveClients(old(State()));
    }

    method ServerVote() returns (done: bool)
      modifies this`clients, this`unlinkRequests, this`out
      ensures State() == ServerHandleShutdown(old(State()))
      ensures done <==> clients == map[]
    {
      AskAll();
      return clients == map[];
    }

    /** `handle_start` answers from copies of the records, so `clients` stays as it is. */
    method AnswerWaiting()
      modifies this`out
      ensures State() == AnswerPending(old(State()))
    {
      hide PostAll, AnswersTo;
      ghost var was := old(State());
      ghost var done: set<Addr> := {};
      var todo := clients.Keys;
      NobodyAnswered(was);
      while todo != {}
        invariant todo <= clients.Keys
        invariant done == set c | c in PendingClients(was) && c !in todo
        invariant out == AnswersTo(was, done)
        decreases todo
      {
        ghost var some := Member(todo);
        var client :| client in todo;
        if clients[client].state == Pending && clients[client].request.Some? {
          PostMessage(client, LinkReply(clients[client].request.value, true));
          AnswerMore(was, done, client);
          done := done + {client};
        }
        todo := todo - {client};
      }
      assert done == PendingClients(was);
    }

    /** `starter_plugin_t::on_start`: the starter is asked before link_server. */
    method Started()
      modifies this
      ensures State() == Start(old(State()))
    {
      if life != Initialized {
        return;
      }
      life := Operational;
      if serverStart {
        AnswerWaiting();
        serverStart := false;
      }
    }

    // -------------------------------------------------------------- actor_base_t

    method FinishShutdown()
      modifies this
      ensures State() == ShutdownFinish(old(State()))
    {
      if shutdownRequest {
        notes := notes + [ShutdownDone];
        shutdownRequest := false;
      }
      life := ShutDown;
    }

    /** The rest of the loop of `shutdown_continue`, from link_server on. */
    method ContinueFromServer(v: Votes)
      modifies this
      ensures State() == PollFromServer(old(State()), v)
      decreases 0
    {
      hide ServerHandleShutdown, ShutdownFinish;
      if serverShutdown {
        var done := ServerVote();
        if !done {
          return;
        }
        serverShutdown := false;
      }
      if v.shutdownAfter {
        FinishShutdown();
      }
    }

    method ContinueShutdown(v: Votes)
      modifies this
      ensures State() == ShutdownContinue(old(State()), v)
      decreases 2
    {
      hide ClientHandleShutdown, PollFromServer;
      if life != ShuttingDown || !v.shutdownBefore {
        return;
      }
      if clientShutdown {
        var done := ClientVote();
        if !done {
          return;
        }
        clientShutdown := false;
      }
      ContinueFromServer(v);
    }

    method ShutdownAsked(withRequest: bool, v: Votes)
      modifies this
      ensures State() == BeginShutdown(old(State()), withRequest, v)
    {
      if Rank(life) < Rank(ShuttingDown) {
        shutdownRequest := shutdownRequest || withRequest;
        life := ShuttingDown;
        ContinueShutdown(v);
      }
    }
  }

  lemma NobodyAsked(clients: map<Addr, ClientRec>)
    ensures AskedToUnlink(clients, {}) == clients
  {}

  /** Asking one more client. */
  lemma AskMore(clients: map<Addr, ClientRec>, asked: set<Addr>, client: Addr)
    requires client in clients && client !in asked
    ensures var now := AskedToUnlink(clients, asked);
            && client in now && now[client] == clients[client]
            && AskedToUnlink(clients, asked + {client}) ==
               now[client := clients[client].(state := Unlinking, asked := true)]
  {}

  lemma NobodyAnswered(a: Actor)
    ensures AnswersTo(a, {}) == a.out
  {}

  /** Answering one more client. */
  lemma AnswerMore(a: Actor, done: set<Addr>, client: Addr)
    requires done <= PendingClients(a) && client in PendingClients(a) && client !in done
    ensures PostAll(AnswersTo(a, done), {client}, LinkReply(a.clients[client].request.value, true)) ==
            AnswersTo(a, done + {client})
  {}

  /** Posting to one more address. */
  lemma PostMore(out: Outbox, done: set<Addr>, to: Addr, m: Msg)
    requires to !in done
    ensures PostAll(PostAll(out, done, m), {to}, m) == PostAll(out, done + {to}, m)
  {}

  lemma DiscardOne(requests: map<nat, Addr>, servers: map<Addr, ServerRec>, server: Addr)
    requires server in servers
    ensures requests - LinkingIds(servers, {server}) ==
            if servers[server].state == Linking then requests - {servers[server].rid} else requests
  {
    assert LinkingIds(servers, {server}) == if servers[server].state == Linking then {servers[server].rid} else {};
  }

  /** Discarding the link request to one more server. */
  lemma DiscardMore(requests: map<nat, Addr>, servers: map<Addr, ServerRec>, done: set<Addr>, server: Addr)
    requires server in servers - done
    ensures requests - LinkingIds(servers, done) - LinkingIds(servers - done, {server}) ==
            requests - LinkingIds(servers, done + {server})
  {
    assert LinkingIds(servers, done + {server}) == LinkingIds(servers, done) + LinkingIds(servers - done, {server});
  }

  lemma NothingDone(out: Outbox, requests: map<nat, Addr>, servers: map<Addr, ServerRec>, m: Msg)
    ensures PostAll(out, {}, m) == out
    ensures requests - LinkingIds(servers, {}) == requests
  {}
}
