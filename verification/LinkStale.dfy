/** Why an old success behind a failure of the same server does no harm: the failure is heard
    first and erases the record. The proof compares a net with one in which such successes
    are failures; no actor can tell them apart. */
module LinkStale {
  import opened LinkActor
  import opened LinkInvariant
  import opened LinkNet

  ghost predicate SuccessOf(r: Response, s: Addr) {
    r.LinkResponse? && r.server == s && r.ok
  }

  ghost predicate FailureOf(r: Response, s: Addr) {
    r.LinkResponse? && r.server == s && !r.ok
  }

  ghost function Muted(r: Response, s: Addr): Response {
    if SuccessOf(r, s) then LinkResponse(s, r.rid, false) else r
  }

  /** A failure of `s` comes before each place in which the boxes differ. */
  ghost predicate Front(box: seq<Response>, box': seq<Response>, s: Addr)
    requires |box| == |box'|
  {
    forall i :: 0 <= i < |box| && box[i] != box'[i] ==> exists j :: 0 <= j < i && FailureOf(box[j], s)
  }

  /** In `m` some successes of `s` that wait for `c` are failures. */
  ghost predicate Alike(n: Net, m: Net, c: Addr, s: Addr) {
    && (forall x :: m.actor(x) == n.actor(x))
    && (forall p, q :: m.chan(p, q) == n.chan(p, q))
    && (forall x :: x != c ==> m.local(x) == n.local(x))
    && |m.local(c)| == |n.local(c)|
    && (forall i :: 0 <= i < |n.local(c)| ==> m.local(c)[i] in {n.local(c)[i], Muted(n.local(c)[i], s)})
  }

  /** And as long as `c` records `s` and hears responses, it hears a failure first. */
  ghost predicate Masks(n: Net, m: Net, c: Addr, s: Addr) {
    && Alike(n, m, c, s)
    && (s in n.actor(c).servers && !n.actor(c).deaf ==> Front(n.local(c), m.local(c), s))
  }

  // ---------------------------------------------------------------- the parts of a step

  /** No server is recorded anew, and hearing does not come back. */
  ghost predicate Fewer(a: Actor, a': Actor) {
    (forall s :: s in a'.servers ==> s in a.servers) && (a.deaf ==> a'.deaf)
  }

  lemma FollowsFewer(a: Actor, mid: Actor, a': Actor)
    requires Fewer(a, mid) && Follows(mid, a')
    ensures Fewer(a, a')
  {
    hide VoteInv, SameClient, MayPost, Box;
  }

  lemma StoreAlike(n: Net, m: Net, c: Addr, s: Addr, x: Addr, a: Actor)
    requires Alike(n, m, c, s)
    ensures Alike(Store(n, x, a), Store(m, x, a), c, s)
  {
    hide Muted;
  }

  lemma StoreMasks(n: Net, m: Net, c: Addr, s: Addr, x: Addr, a: Actor)
    requires Masks(n, m, c, s) && (x == c ==> Fewer(n.actor(c), a))
    ensures Masks(Store(n, x, a), Store(m, x, a), c, s)
  {
    hide Front, Muted;
    StoreAlike(n, m, c, s, x, a);
  }

  lemma PopMasks(n: Net, m: Net, c: Addr, s: Addr, p: Addr, q: Addr)
    requires Masks(n, m, c, s) && n.chan(p, q) != []
    ensures m.chan(p, q) == n.chan(p, q) && Masks(Pop(n, p, q), Pop(m, p, q), c, s)
  {
    hide Front, Muted;
  }

  lemma PushMasks(n: Net, m: Net, c: Addr, s: Addr, x: Addr, r: Response)
    requires Masks(n, m, c, s)
    ensures Masks(PushResponse(n, x, r), PushResponse(m, x, r), c, s)
  {
    var box, box' := n.local(c), m.local(c);
    if x == c && s in n.actor(c).servers && !n.actor(c).deaf {
      forall i | 0 <= i < |box + [r]| && (box + [r])[i] != (box' + [r])[i]
        ensures exists j :: 0 <= j < i && FailureOf((box + [r])[j], s)
      {
        var j :| 0 <= j < i && FailureOf(box[j], s);
        assert FailureOf((box + [r])[j], s);
      }
    }
  }

  lemma PopResponseAlike(n: Net, m: Net, c: Addr, s: Addr, x: Addr)
    requires Alike(n, m, c, s) && n.local(x) != []
    ensures m.local(x) != [] && Alike(PopResponse(n, x), PopResponse(m, x), c, s)
  {
    hide Muted;
  }

  lemma FrontPopped(box: seq<Response>, box': seq<Response>, s: Addr)
    requires |box| == |box'| > 0 && Front(box, box', s) && !FailureOf(box[0], s)
    ensures Front(box[1..], box'[1..], s)
  {
    forall i | 0 <= i < |box| - 1 && box[1..][i] != box'[1..][i]
      ensures exists j :: 0 <= j < i && FailureOf(box[1..][j], s)
    {
      assert box[i + 1] != box'[i + 1];
      var j :| 0 <= j < i + 1 && FailureOf(box[j], s);
      assert FailureOf(box[1..][j - 1], s);
    }
  }

  lemma PopResponseMasks(n: Net, m: Net, c: Addr, s: Addr, x: Addr)
    requires Masks(n, m, c, s) && n.local(x) != []
    requires x == c && s in n.actor(c).servers && !n.actor(c).deaf ==> !FailureOf(n.local(c)[0], s)
    ensures m.local(x) != [] && Masks(PopResponse(n, x), PopResponse(m, x), c, s)
  {
    hide Front, FailureOf;
    PopResponseAlike(n, m, c, s, x);
    if x == c && s in n.actor(c).servers && !n.actor(c).deaf { FrontPopped(n.local(c), m.local(c), s); }
  }

  // ---------------------------------------------------------------- handlers

  lemma RefuseFewer(a: Actor, p: Addr, rid: nat)
    ensures Fewer(a, Refuse(a, p, rid))
  {}

  lemma PostponeFewer(a: Actor, p: Addr, rid: nat)
    ensures Fewer(a, Postpone(a, p, rid))
  {}

  lemma AcceptFewer(a: Actor, p: Addr, rid: nat)
    ensures Fewer(a, Accept(a, p, rid))
  {}

  lemma OnLinkRequestFewer(a: Actor, p: Addr, rid: nat, oo: bool)
    ensures Fewer(a, OnLinkRequest(a, p, rid, oo))
  {
    hide Refuse, Postpone, Accept, Rank, Fewer;
    RefuseFewer(a, p, rid);
    PostponeFewer(a, p, rid);
    AcceptFewer(a, p, rid);
  }

  lemma OnUnlinkNotifyFewer(a: Actor, p: Addr, v: Votes)
    ensures Fewer(a, OnUnlinkNotify(a, p, v))
  {
    hide Follows, OnUnlinkNotify;
    if p in a.clients {
      NotifiedFollows(a, p, v);
      FollowsFewer(a, RemoveClient(a, p), OnUnlinkNotify(a, p, v));
    } else {
      UnknownClientNotifies(a, p, v);
    }
  }

  lemma ForgetLinkFewer(a: Actor, server: Addr, v: Votes)
    ensures Fewer(a, ForgetLink(a, server, v))
  {
    hide Follows, TryForgetLinksAndShutdown;
    var mid := a.(unlinkQueue := a.unlinkQueue + [server]);
    TryForgetFollows(mid, v);
    FollowsFewer(a, mid, TryForgetLinksAndShutdown(mid, v));
  }

  lemma OnUnlinkRequestFewer(a: Actor, server: Addr, keep: bool, v: Votes)
    ensures Fewer(a, OnUnlinkRequest(a, server, keep, v))
  {
    hide ForgetLink;
    ForgetLinkFewer(a, server, v);
  }

  lemma OnLinkResponseFewer(a: Actor, server: Addr, ok: bool, v: Votes)
    ensures Fewer(a, OnLinkResponse(a, server, ok, v))
    ensures server !in a.servers ==> OnLinkResponse(a, server, ok, v) == a
    ensures !ok ==> server !in OnLinkResponse(a, server, ok, v).servers
  {
    hide Follows, OnLinkResponse;
    if server in a.servers {
      RecordedFollows(a, server, ok, v);
      FollowsFewer(a, Recorded(a, server, ok), OnLinkResponse(a, server, ok, v));
      FollowsFewer(Recorded(a, server, ok), Recorded(a, server, ok), OnLinkResponse(a, server, ok, v));
    } else {
      UnknownServerAnswered(a, server, ok, v);
    }
  }

  lemma OnUnlinkResponseFewer(a: Actor, client: Addr, ok: bool, v: Votes)
    ensures Fewer(a, OnUnlinkResponse(a, client, ok, v))
  {
    hide Follows, OnUnlinkResponse;
    if ok && client in a.clients {
      ErasedFollows(a, client, v);
      FollowsFewer(a, a.(clients := a.clients - {client}), OnUnlinkResponse(a, client, ok, v));
    } else {
      UnlinkFailedFollows(a, client, ok, v);
      FollowsFewer(a, a, OnUnlinkResponse(a, client, ok, v));
    }
  }

  // ---------------------------------------------------------------- events

  lemma ConcludeLinkMasks(n: Net, m: Net, c: Addr, s: Addr, x: Addr, server: Addr, rid: nat, ok: bool)
    requires Masks(n, m, c, s)
    ensures Masks(ConcludeLink(n, x, server, rid, ok), ConcludeLink(m, x, server, rid, ok), c, s)
  {
    hide Front, Store, PushResponse, Muted;
    var a' := n.actor(x).(linkRequests := n.actor(x).linkRequests - {rid});
    StoreMasks(n, m, c, s, x, a');
    PushMasks(Store(n, x, a'), Store(m, x, a'), c, s, x, LinkResponse(server, rid, ok));
  }

  lemma ConcludeUnlinkMasks(n: Net, m: Net, c: Addr, s: Addr, x: Addr, client: Addr, ok: bool)
    requires Masks(n, m, c, s)
    ensures Masks(ConcludeUnlink(n, x, client, ok), ConcludeUnlink(m, x, client, ok), c, s)
  {
    hide Front, Store, PushResponse, Muted;
    var a' := n.actor(x).(unlinkRequests := n.actor(x).unlinkRequests - {client});
    StoreMasks(n, m, c, s, x, a');
    PushMasks(Store(n, x, a'), Store(m, x, a'), c, s, x, UnlinkResponse(client, ok));
  }

  lemma ReceiveMasks(n: Net, m: Net, c: Addr, s: Addr, p: Addr, q: Addr, msg: Msg, keep: bool, v: Votes)
    requires Masks(n, m, c, s)
    ensures Masks(Receive(n, p, q, msg, keep, v), Receive(m, p, q, msg, keep, v), c, s)
  {
    hide Masks, Fewer, Store, ConcludeLink, ConcludeUnlink;
    hide OnLinkRequest, OnUnlinkNotify, OnUnlinkRequest;
    var a := n.actor(q);
    SameActors(n, m, c, s);
    match msg
    case LinkRequest(rid, oo) =>
      OnLinkRequestFewer(a, p, rid, oo);
      StoreMasks(n, m, c, s, q, OnLinkRequest(a, p, rid, oo));
    case UnlinkNotify =>
      OnUnlinkNotifyFewer(a, p, v);
      StoreMasks(n, m, c, s, q, OnUnlinkNotify(a, p, v));
    case UnlinkRequest =>
      OnUnlinkRequestFewer(a, p, keep, v);
      StoreMasks(n, m, c, s, q, OnUnlinkRequest(a, p, keep, v));
    case LinkReply(rid, ok) => ConcludeLinkMasks(n, m, c, s, q, p, rid, ok);
    case UnlinkReply => ConcludeUnlinkMasks(n, m, c, s, q, p, true);
  }

  lemma SameActors(n: Net, m: Net, c: Addr, s: Addr)
    requires Masks(n, m, c, s)
    ensures forall x :: m.actor(x) == n.actor(x)
    ensures forall p, q :: m.chan(p, q) == n.chan(p, q)
    ensures forall x :: x != c ==> m.local(x) == n.local(x)
    ensures |m.local(c)| == |n.local(c)|
    ensures forall i :: 0 <= i < |n.local(c)| ==> m.local(c)[i] in {n.local(c)[i], Muted(n.local(c)[i], s)}
  {}

  /** A failure of `s` is heard: the record goes, and with it the difference. */
  lemma FailureMasks(n: Net, m: Net, c: Addr, s: Addr, v: Votes)
    requires Masks(n, m, c, s) && n.local(c) != [] && FailureOf(n.local(c)[0], s) && !n.actor(c).deaf
    ensures m.local(c) != [] && m.local(c)[0] == n.local(c)[0]
    ensures var r := n.local(c)[0];
            Masks(ReceiveResponse(PopResponse(n, c), c, r, v), ReceiveResponse(PopResponse(m, c), c, r, v), c, s)
  {
    hide Front, OnLinkResponse, Store;
    var a' := OnLinkResponse(n.actor(c), s, false, v);
    OnLinkResponseFewer(n.actor(c), s, false, v);
    PopResponseAlike(n, m, c, s, c);
    StoreAlike(PopResponse(n, c), PopResponse(m, c), c, s, c, a');
    StoredServers(PopResponse(n, c), c, a');
  }

  lemma StoredServers(n: Net, x: Addr, a: Actor)
    ensures Store(n, x, a).actor(x).servers == a.servers
  {}

  /** The heads differ: no record is left, or the actor does not hear. */
  lemma DifferenceMasks(n: Net, m: Net, c: Addr, s: Addr, v: Votes)
    requires Masks(n, m, c, s) && n.local(c) != [] && m.local(c)[0] != n.local(c)[0]
    ensures m.local(c) != []
    ensures Masks(ReceiveResponse(PopResponse(n, c), c, n.local(c)[0], v),
                  ReceiveResponse(PopResponse(m, c), c, m.local(c)[0], v), c, s)
  {
    hide Masks, Store, OnLinkResponse;
    SameActors(n, m, c, s);
    HeardFirst(n, m, c, s);
    var a := n.actor(c);
    PopResponseMasks(n, m, c, s, c);
    OnLinkResponseFewer(a, s, true, v);
    OnLinkResponseFewer(a, s, false, v);
    if !a.deaf { StoreMasks(PopResponse(n, c), PopResponse(m, c), c, s, c, a); }
  }

  lemma HeardFirst(n: Net, m: Net, c: Addr, s: Addr)
    requires Masks(n, m, c, s) && n.local(c) != [] && m.local(c)[0] != n.local(c)[0]
    ensures SuccessOf(n.local(c)[0], s) && m.local(c)[0] == Muted(n.local(c)[0], s)
    ensures s !in n.actor(c).servers || n.actor(c).deaf
  {}

  /** The heads are the same, and it is not the failure. */
  lemma ResponseMasks(n: Net, m: Net, c: Addr, s: Addr, x: Addr, v: Votes)
    requires Masks(n, m, c, s) && n.local(x) != [] && m.local(x) != [] && m.local(x)[0] == n.local(x)[0]
    requires x == c && s in n.actor(c).servers && !n.actor(c).deaf ==> !FailureOf(n.local(c)[0], s)
    ensures var r := n.local(x)[0];
            Masks(ReceiveResponse(PopResponse(n, x), x, r, v), ReceiveResponse(PopResponse(m, x), x, r, v), c, s)
  {
    hide Masks, Store, OnLinkResponse, OnUnlinkResponse, Fewer, FailureOf;
    SameActors(n, m, c, s);
    PopResponseMasks(n, m, c, s, x);
    var a, n1, m1 := n.actor(x), PopResponse(n, x), PopResponse(m, x);
    match n.local(x)[0]
    case LinkResponse(server, _, ok) =>
      OnLinkResponseFewer(a, server, ok, v);
      StoreMasks(n1, m1, c, s, x, OnLinkResponse(a, server, ok, v));
    case UnlinkResponse(client, ok) =>
      OnUnlinkResponseFewer(a, client, ok, v);
      StoreMasks(n1, m1, c, s, x, OnUnlinkResponse(a, client, ok, v));
  }

  lemma DeliverResponseMasks(n: Net, m: Net, c: Addr, s: Addr, x: Addr, v: Votes)
    requires Masks(n, m, c, s)
    ensures Masks(Step(n, DeliverResponse(x, v)), Step(m, DeliverResponse(x, v)), c, s)
  {
    hide Masks, ReceiveResponse, PopResponse, Muted;
    SameActors(n, m, c, s);
    if n.local(x) != [] {
      if x == c && n.local(c)[0] != m.local(c)[0] {
        DifferenceMasks(n, m, c, s, v);
      } else if x == c && !n.actor(c).deaf && FailureOf(n.local(c)[0], s) {
        FailureMasks(n, m, c, s, v);
      } else {
        ResponseMasks(n, m, c, s, x, v);
      }
    }
  }

  lemma PollMasks(n: Net, m: Net, c: Addr, s: Addr, e: Event)
    requires Masks(n, m, c, s) && PollsOnly(e)
    ensures Masks(Step(n, e), Step(m, e), c, s)
  {
    hide Masks, Step, Store, AfterPoll, Follows;
    var a := n.actor(e.at);
    SameActors(n, m, c, s);
    AfterPollFollows(a, e);
    FollowsFewer(a, a, AfterPoll(a, e));
    StoreMasks(n, m, c, s, e.at, AfterPoll(a, e));
    PollStores(n, e);
    PollStores(m, e);
  }

  /** A fresh call to `s` finds no success of it, so the boxes are the same. */
  lemma AskLinkMasks(n: Net, m: Net, c: Addr, s: Addr, x: Addr, y: Addr, oo: bool)
    requires Masks(n, m, c, s) && Fresh(n, x, y)
    ensures Masks(Step(n, AskLink(x, y, oo)), Step(m, AskLink(x, y, oo)), c, s)
  {
    hide Front, Store, Link, Muted;
    var a' := Link(n.actor(x), y, oo);
    StoreAlike(n, m, c, s, x, a');
    StoredActor(n, x, a', c);
    StoredActor(m, x, a', c);
    LinkServers(n.actor(x), y, oo);
    if x == c && y == s { FreshFront(n, m, c, s); }
  }

  lemma StoredActor(n: Net, x: Addr, a': Actor, y: Addr)
    ensures var a1 := Store(n, x, a').actor(y);
            && a1.servers == (if y == x then a'.servers else n.actor(y).servers)
            && a1.deaf == (if y == x then a'.deaf else n.actor(y).deaf)
    ensures Store(n, x, a').local == n.local
  {}

  lemma LinkServers(a: Actor, server: Addr, oo: bool)
    ensures Link(a, server, oo).servers.Keys == a.servers.Keys + {server} && Link(a, server, oo).deaf == a.deaf
  {
    hide PostAll;
  }

  lemma FreshFront(n: Net, m: Net, c: Addr, s: Addr)
    requires Alike(n, m, c, s) && Fresh(n, c, s)
    ensures Front(n.local(c), m.local(c), s)
  {
    forall i | 0 <= i < |n.local(c)| ensures n.local(c)[i] == m.local(c)[i] {
      assert n.local(c)[i] in n.local(c);
    }
  }

  lemma StepMasks(n: Net, m: Net, c: Addr, s: Addr, e: Event)
    requires Masks(n, m, c, s) && (e.AskLink? ==> Fresh(n, e.client, e.server))
    ensures Masks(Step(n, e), Step(m, e), c, s)
  {
    if PollsOnly(e) {
      PollMasks(n, m, c, s, e);
    } else if e.AskLink? {
      AskLinkMasks(n, m, c, s, e.client, e.server, e.operationalOnly);
    } else if e.DeliverResponse? {
      DeliverResponseMasks(n, m, c, s, e.at, e.votes);
    } else {
      OtherMasks(n, m, c, s, e);
    }
  }

  lemma OtherMasks(n: Net, m: Net, c: Addr, s: Addr, e: Event)
    requires Masks(n, m, c, s) && !PollsOnly(e) && !e.AskLink? && !e.DeliverResponse?
    ensures Masks(Step(n, e), Step(m, e), c, s)
  {
    hide Masks, Store, Pop, PopResponse, Receive, ReceiveResponse, ConcludeLink, ConcludeUnlink, ForgetLink, Fewer;
    SameActors(n, m, c, s);
    if e.Deliver? {
      if n.chan(e.from, e.to) != [] {
        PopMasks(n, m, c, s, e.from, e.to);
        ReceiveMasks(Pop(n, e.from, e.to), Pop(m, e.from, e.to), c, s, e.from, e.to, n.chan(e.from, e.to)[0], e.keep,
                     e.votes);
      }
    } else if e.LinkTimeout? {
      if e.rid in n.actor(e.at).linkRequests {
        ConcludeLinkMasks(n, m, c, s, e.at, n.actor(e.at).linkRequests[e.rid], e.rid, false);
      }
    } else if e.UnlinkTimeout? {
      ConcludeUnlinkMasks(n, m, c, s, e.at, e.client, false);
    } else if e.ForgetHeld? {
      ForgetLinkFewer(n.actor(e.at), e.server, e.votes);
      StoreMasks(n, m, c, s, e.at, ForgetLink(n.actor(e.at), e.server, e.votes));
    } else if e.Lose? {
      if n.chan(e.from, e.to) != [] { PopMasks(n, m, c, s, e.from, e.to); }
    } else if n.local(e.at) != [] && !n.local(e.at)[0].LinkResponse? {
      PopResponseMasks(n, m, c, s, e.at);
    }
  }

  /** A call that is fresh in `n` is fresh in `m`. */
  lemma MaskedFresh(n: Net, m: Net, c: Addr, s: Addr, x: Addr, y: Addr)
    requires Masks(n, m, c, s) && Fresh(n, x, y)
    ensures Fresh(m, x, y)
  {
    forall r | r in m.local(x) && r.LinkResponse? && r.ok ensures r.server != y {
      var i :| 0 <= i < |m.local(x)| && m.local(x)[i] == r;
      assert n.local(x)[i] == r && r in n.local(x);
    }
  }

  lemma {:induction false} RunMasks(n: Net, m: Net, c: Addr, s: Addr, es: seq<Event>)
    requires Masks(n, m, c, s) && Careful(n, es)
    ensures Careful(m, es) && Masks(Run(n, es), Run(m, es), c, s)
    decreases es
  {
    hide Masks, Step, Fresh;
    if es != [] {
      if es[0].AskLink? { MaskedFresh(n, m, c, s, es[0].client, es[0].server); }
      StepMasks(n, m, c, s, es[0]);
      RunMasks(Step(n, es[0]), Step(m, es[0]), c, s, es[1..]);
    }
  }

  // ---------------------------------------------------------------- the first response

  /** Response `k` in the queue of `c` is the first of `s`, and it reports success. */
  ghost predicate StaleAt(n: Net, c: Addr, s: Addr, k: nat) {
    && k < |n.local(c)| && SuccessOf(n.local(c)[k], s)
    && (forall j :: 0 <= j < k && n.local(c)[j].LinkResponse? ==> n.local(c)[j].server != s)
  }

  /** The next response of `s` that `c` will hear is an old success. */
  ghost predicate StaleFirst(n: Net, c: Addr, s: Addr) {
    !n.actor(c).deaf && exists k: nat :: StaleAt(n, c, s, k)
  }

  /** The net with every waiting success of `s` turned into a failure. */
  ghost function Mute(n: Net, c: Addr, s: Addr): Net {
    n.(local := x => if x == c then seq(|n.local(c)|, i requires 0 <= i < |n.local(c)| => Muted(n.local(c)[i], s))
                     else n.local(x))
  }

  lemma {:induction false} FirstOf(n: Net, c: Addr, s: Addr, i: nat) returns (k: nat)
    requires i < |n.local(c)| && n.local(c)[i].LinkResponse? && n.local(c)[i].server == s
    ensures k <= i && n.local(c)[k].LinkResponse? && n.local(c)[k].server == s
    ensures forall j :: 0 <= j < k && n.local(c)[j].LinkResponse? ==> n.local(c)[j].server != s
    decreases i
  {
    if j :| 0 <= j < i && n.local(c)[j].LinkResponse? && n.local(c)[j].server == s {
      k := FirstOf(n, c, s, j);
    } else {
      k := i;
    }
  }

  lemma MuteMasks(n: Net, c: Addr, s: Addr)
    requires !StaleFirst(n, c, s)
    ensures Alike(n, Mute(n, c, s), c, s)
    ensures !n.actor(c).deaf ==> Front(n.local(c), Mute(n, c, s).local(c), s)
  {
    var box, box' := n.local(c), Mute(n, c, s).local(c);
    if !n.actor(c).deaf {
      forall i | 0 <= i < |box| && box[i] != box'[i] ensures exists j :: 0 <= j < i && FailureOf(box[j], s) {
        var k := FirstOf(n, c, s, i);
        assert !StaleAt(n, c, s, k);
        assert FailureOf(box[k], s);
      }
    }
  }

  lemma MuteInv(n: Net, c: Addr, s: Addr)
    requires Inv(n)
    ensures Inv(Mute(n, c, s))
  {
    var m := Mute(n, c, s);
    forall x ensures ActorInv(m.actor(x)) {
      assert ActorInv(n.actor(x));
    }
    forall p, q ensures Pair(Between(m, p, q), p, q) {
      assert Pair(Between(n, p, q), p, q);
      MutedBox(n, c, s, p);
      MutedBox(n, c, s, q);
      FewerSuccesses(Between(n, p, q), Between(m, p, q), p, q);
    }
  }

  lemma MutedBox(n: Net, c: Addr, s: Addr, x: Addr)
    ensures forall r :: r in Mute(n, c, s).local(x) && (r.LinkResponse? ==> r.ok) ==> r in n.local(x)
    ensures forall r :: r in Mute(n, c, s).local(c) ==> !SuccessOf(r, s)
  {
    var m := Mute(n, c, s);
    assert forall i :: 0 <= i < |n.local(c)| ==> m.local(c)[i] == Muted(n.local(c)[i], s);
    forall r | r in m.local(c) ensures !SuccessOf(r, s) && ((r.LinkResponse? ==> r.ok) ==> r in n.local(c)) {
      var i :| 0 <= i < |m.local(c)| && m.local(c)[i] == r;
      assert n.local(c)[i] in n.local(c);
    }
  }

  lemma FewerSuccesses(v: View, v': View, c: Addr, s: Addr)
    requires Pair(v, c, s) && v' == v.(clientBox := v'.clientBox, serverBox := v'.serverBox)
    requires forall r :: r in v'.clientBox && (r.LinkResponse? ==> r.ok) ==> r in v.clientBox
    requires forall r :: r in v'.serverBox && (r.LinkResponse? ==> r.ok) ==> r in v.serverBox
    ensures Pair(v', c, s)
  {
    assert SuccessWaits(v', s) ==> SuccessWaits(v, s);
    assert Secure(v, c) ==> Secure(v', c);
  }

  /** Unless the next response of `s` that `c` will hear is a success, every careful run after
      a call of `link` has the actors of a run in which the invariant holds. */
  lemma HeardFailureIsSafe(n: Net, c: Addr, s: Addr, oo: bool, es: seq<Event>) returns (m: Net)
    requires Inv(n) && s !in n.actor(c).servers && !StaleFirst(n, c, s)
    requires forall id :: id in n.actor(c).linkRequests ==> n.actor(c).linkRequests[id] != s
    requires Careful(Step(n, AskLink(c, s, oo)), es)
    ensures Inv(m) && forall x :: m.actor(x) == Run(Step(n, AskLink(c, s, oo)), es).actor(x)
  {
    hide Inv, Front, Store, Link, Careful, Run, Muted, StaleFirst;
    var n1, m0 := Step(n, AskLink(c, s, oo)), Mute(n, c, s);
    var a' := Link(n.actor(c), s, oo);
    var m1 := Store(m0, c, a');
    MuteMasks(n, c, s);
    StoreAlike(n, m0, c, s, c, a');
    StoredActor(n, c, a', c);
    StoredActor(m0, c, a', c);
    LinkServers(n.actor(c), s, oo);
    MuteInv(n, c, s);
    MutedBox(n, c, s, c);
    LinkKeeps(m0, c, s, oo);
    RunMasks(n1, m1, c, s, es);
    RunKeeps(m1, es);
    m := Run(m1, es);
  }
}
