/** What one actor does in the link protocol: the functions that the two link plugins
    (`link_client_plugin_t`, `link_server_plugin_t`) and the lifecycle polls compute.

    Messages are posted into `out`, one FIFO per destination; the order in which an
    unordered map is walked is therefore not visible in any result. */
module LinkActor {

  type Addr = int

  datatype Option<+T> = None | Some(value: T)

  /** `state_t`, from include/rotor/state.h. */
  datatype Life = New | Initializing | Initialized | Operational | ShuttingDown | ShutDown

  function Rank(life: Life): nat {
    match life
    case New => 1
    case Initializing => 2
    case Initialized => 3
    case Operational => 4
    case ShuttingDown => 5
    case ShutDown => 6
  }

  /** A server as its client records it. */
  datatype ServerState = Linking | Linked
  datatype ServerRec = ServerRec(state: ServerState, rid: nat)

  /** A client as its server records it; `asked` is the presence of `unlink_request`. */
  datatype ClientState = Pending | Active | Unlinking
  datatype ClientRec = ClientRec(state: ClientState, request: Option<nat>, asked: bool)

  datatype Msg =
    | LinkRequest(rid: nat, operationalOnly: bool)
    | LinkReply(rid: nat, ok: bool)
    | UnlinkNotify
    | UnlinkRequest
    | UnlinkReply

  /** What an actor tells its supervisor. */
  datatype Note = InitDone | InitFailed | ShutdownDone | ShutdownFailed | ShutdownTrigger

  type Outbox = map<Addr, seq<Msg>>

  /** How the plugins that are not modelled vote in a poll, in the order they are asked. */
  datatype Votes = Votes(initBefore: bool, initAfter: bool, shutdownBefore: bool, shutdownAfter: bool)

  datatype Actor = Actor(
    life: Life,
    initRequest: bool,
    shutdownRequest: bool,
    servers: map<Addr, ServerRec>,
    unlinkQueue: seq<Addr>,
    held: set<Addr>,                  // unlink requests that the user's reaction kept back
    clients: map<Addr, ClientRec>,
    clientInit: bool,                 // link_client reacts on INIT
    clientShutdown: bool,             // link_client reacts on SHUTDOWN
    serverShutdown: bool,             // link_server reacts on SHUTDOWN
    serverStart: bool,                // link_server reacts on START
    linkRequests: map<nat, Addr>,     // request_map entries for link requests
    unlinkRequests: set<Addr>,        // request_map entries for unlink requests
    nextId: nat,
    out: Outbox,
    notes: seq<Note>,
    deaf: bool)                       // link_client has given up hearing link responses

  const NEW_ACTOR := Actor(New, false, false, map[], [], {}, map[], true, true, true, false, map[], {}, 0, map[], [],
                           false)

  function Box(out: Outbox, to: Addr): seq<Msg> {
    if to in out then out[to] else []
  }

  /** Appends `m` to the box of every address in `to`. */
  function PostAll(out: Outbox, to: set<Addr>, m: Msg): (r: Outbox)
    ensures forall b :: Box(r, b) == if b in to then Box(out, b) + [m] else Box(out, b)
  {
    map b | b in out.Keys + to :: if b in to then Box(out, b) + [m] else out[b]
  }

  function Post(a: Actor, to: Addr, m: Msg): Actor {
    a.(out := PostAll(a.out, {to}, m))
  }

  /** `actor_base_t::do_shutdown`. */
  function DoShutdown(a: Actor): Actor {
    if Rank(a.life) < Rank(ShuttingDown) then a.(notes := a.notes + [ShutdownTrigger]) else a
  }

  // ---------------------------------------------------------------- client half

  function Link(a: Actor, server: Addr, operationalOnly: bool): Actor {
    Post(a.(clientInit := true,
            linkRequests := a.linkRequests[a.nextId := server],
            servers := a.servers[server := ServerRec(Linking, a.nextId)],
            nextId := a.nextId + 1),
         server, LinkRequest(a.nextId, operationalOnly))
  }

  ghost predicate SomeLinking(a: Actor) {
    exists s :: s in a.servers && a.servers[s].state == Linking
  }

  /** `actor_base_t::init_start`. */
  function StartInit(a: Actor): Actor {
    if a.life == New then a.(life := Initializing) else a
  }

  /** `actor_base_t::init_continue`, of which only link_client's vote is spelled out. */
  ghost function InitContinue(a: Actor, v: Votes): Actor {
    if a.life != Initializing || !a.initRequest then a  // actor_base.cpp:101-102 assert this away
    else if !v.initBefore then a
    else if a.clientInit && SomeLinking(a) then a
    else
      var a1 := a.(clientInit := false);
      if v.initAfter then InitFinish(a1) else a1
  }

  /** `actor_base_t::init_finish`. */
  function InitFinish(a: Actor): Actor {
    a.(notes := a.notes + [InitDone], initRequest := false, life := Initialized)
  }

  ghost function OnLinkResponse(a: Actor, server: Addr, ok: bool, v: Votes): Actor {
    if server !in a.servers then a  // link_client.cpp:58 asserts this away
    else if !ok then
      var a1 := a.(servers := a.servers - {server});
      if a1.initRequest then a1.(notes := a1.notes + [InitFailed], initRequest := false)
      else a1  // do_shutdown of an actor that is shutting down already does nothing
    else
      var a1 := a.(servers := a.servers[server := a.servers[server].(state := Linked)]);
      InitContinue(a1, v)
  }

  /** Servers whose queued unlink requests are answered once no client is left. */
  ghost function Released(a: Actor): set<Addr> {
    set s | s in a.servers && s in a.unlinkQueue
  }

  ghost function AnswerUnlinks(a: Actor): Actor {
    a.(servers := a.servers - Released(a), out := PostAll(a.out, Released(a), UnlinkReply))
  }

  ghost function TryForgetLinks(a: Actor): Actor {
    if a.clients == map[] then AnswerUnlinks(a) else a
  }

  ghost function TryForgetLinksAndShutdown(a: Actor, v: Votes): Actor {
    if a.clients != map[] then a
    else
      var a1 := AnswerUnlinks(a);
      if a1.life == ShuttingDown then ShutdownContinue(a1, v)
      else if a.unlinkQueue != [] then DoShutdown(a1)
      else a1
  }

  ghost function ForgetLink(a: Actor, server: Addr, v: Votes): Actor {
    if server !in a.servers then a
    else TryForgetLinksAndShutdown(a.(unlinkQueue := a.unlinkQueue + [server]), v)
  }

  /** `keep` is the answer of the user's unlink reaction. */
  ghost function OnUnlinkRequest(a: Actor, server: Addr, keep: bool, v: Votes): Actor {
    if keep then a.(held := a.held + {server}) else ForgetLink(a, server, v)
  }

  /** Request ids of the links to servers in `among` that are still being established. */
  ghost function LinkingIds(servers: map<Addr, ServerRec>, among: set<Addr>): set<nat> {
    set s | s in among && s in servers && servers[s].state == Linking :: servers[s].rid
  }

  /** Leaves every remaining server: notifies it and discards an unanswered link request. */
  ghost function Leave(a: Actor): Actor {
    a.(out := PostAll(a.out, a.servers.Keys, UnlinkNotify),
       linkRequests := a.linkRequests - LinkingIds(a.servers, a.servers.Keys),
       servers := map[])
  }

  /** link_client's half of a shutdown poll; it agrees when no server is left. */
  ghost function ClientHandleShutdown(a: Actor): Actor {
    if a.servers == map[] then a
    else
      var a1 := TryForgetLinks(a);
      if a1.clients == map[] then Leave(a1) else a1
  }

  // ---------------------------------------------------------------- server half

  function Refuse(a: Actor, client: Addr, rid: nat): Actor {
    Post(a, client, LinkReply(rid, false))
  }

  function Postpone(a: Actor, client: Addr, rid: nat): Actor {
    a.(clients := a.clients[client := ClientRec(Pending, Some(rid), false)], serverStart := true)
  }

  function Accept(a: Actor, client: Addr, rid: nat): Actor {
    Post(a.(clients := a.clients[client := ClientRec(Active, None, false)]), client, LinkReply(rid, true))
  }

  function OnLinkRequest(a: Actor, client: Addr, rid: nat, operationalOnly: bool): Actor {
    if Rank(a.life) > Rank(Operational) then Refuse(a, client, rid)
    else if client in a.clients then Refuse(a, client, rid)
    else if operationalOnly && Rank(a.life) < Rank(Operational) then Postpone(a, client, rid)
    else Accept(a, client, rid)
  }

  /** A client's record is gone, with the timer of an unlink request that was sent to it. */
  function RemoveClient(a: Actor, client: Addr): Actor
    requires client in a.clients
  {
    a.(clients := a.clients - {client},
       unlinkRequests := if a.clients[client].asked then a.unlinkRequests - {client} else a.unlinkRequests)
  }

  ghost function OnUnlinkNotify(a: Actor, client: Addr, v: Votes): Actor {
    if client !in a.clients then a  // link_server.cpp:71 asserts this away
    else
      var a1 := RemoveClient(a, client);
      if a1.life == ShuttingDown && a1.shutdownRequest then ShutdownContinue(a1, v) else a1
  }

  ghost function OnUnlinkResponse(a: Actor, client: Addr, ok: bool, v: Votes): Actor {
    if !ok && a.shutdownRequest then a.(notes := a.notes + [ShutdownFailed])
    else if !ok || client !in a.clients then a  // link_server.cpp:101 asserts this away
    else
      var a1 := a.(clients := a.clients - {client});
      if a1.life == ShuttingDown && a1.shutdownRequest then ShutdownContinue(a1, v) else a1
  }

  ghost function ActiveClients(a: Actor): set<Addr> {
    set c | c in a.clients && a.clients[c].state == Active
  }

  ghost function AskedToUnlink(clients: map<Addr, ClientRec>, asked: set<Addr>): map<Addr, ClientRec> {
    map c | c in clients :: if c in asked then clients[c].(state := Unlinking, asked := true) else clients[c]
  }

  /** link_server's half of a shutdown poll; it agrees when no client is left. */
  ghost function ServerHandleShutdown(a: Actor): Actor {
    a.(clients := AskedToUnlink(a.clients, ActiveClients(a)),
       unlinkRequests := a.unlinkRequests + ActiveClients(a),
       out := PostAll(a.out, ActiveClients(a), UnlinkRequest))
  }

  ghost function PendingClients(a: Actor): set<Addr> {
    set c | c in a.clients && a.clients[c].state == Pending && a.clients[c].request.Some?
  }

  /** Answers the requests that waited for the start; the records stay PENDING, because
      the loop works on copies (link_server.cpp:127). */
  ghost function AnswerPending(a: Actor): Actor {
    a.(out := AnswersTo(a, PendingClients(a)))
  }

  ghost function AnswersTo(a: Actor, these: set<Addr>): Outbox
    requires these <= PendingClients(a)
  {
    map b | b in a.out.Keys + these ::
      if b in these then Box(a.out, b) + [LinkReply(a.clients[b].request.value, true)] else a.out[b]
  }

  ghost function Start(a: Actor): Actor {
    if a.life != Initialized then a
    else
      var a1 := a.(life := Operational);
      if a1.serverStart then AnswerPending(a1).(serverStart := false) else a1
  }

  // ---------------------------------------------------------------- lifecycle

  function ShutdownFinish(a: Actor): Actor {
    a.(notes := if a.shutdownRequest then a.notes + [ShutdownDone] else a.notes,
       shutdownRequest := false,
       life := ShutDown)
  }

  /** The pass from link_server on. */
  ghost function PollFromServer(a: Actor, v: Votes): Actor {
    var a1 := if a.serverShutdown then ServerHandleShutdown(a) else a;
    if a.serverShutdown && a1.clients != map[] then a1
    else
      var a2 := a1.(serverShutdown := false);
      if v.shutdownAfter then ShutdownFinish(a2) else a2
  }

  /** `actor_base_t::shutdown_continue`: plugins are asked in reverse order, so link_client
      before link_server, and the first refusal ends the pass. */
  ghost function ShutdownContinue(a: Actor, v: Votes): Actor {
    if a.life != ShuttingDown then a  // actor_base.cpp:125 asserts this away
    else if !v.shutdownBefore then a
    else
      var a1 := if a.clientShutdown then ClientHandleShutdown(a) else a;
      if a.clientShutdown && a1.servers != map[] then a1
      else PollFromServer(a1.(clientShutdown := false), v)
  }

  ghost predicate Quitting(a: Actor) {
    Rank(a.life) >= Rank(ShuttingDown)
  }

  /** While shutting down, plugins give up their subscriptions. */
  ghost function GiveUpHearing(a: Actor): Actor {
    if Quitting(a) then a.(deaf := true) else a
  }

  ghost function BeginShutdown(a: Actor, asked: bool, v: Votes): Actor {
    if Rank(a.life) >= Rank(ShuttingDown) then a
    else ShutdownContinue(a.(shutdownRequest := a.shutdownRequest || asked, life := ShuttingDown), v)
  }
}
