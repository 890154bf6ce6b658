/** `child_manager_plugin_t` as an object: its handlers change `actors_map` in place and are
    proved to compute the functions of module Children. */
module ChildManager {
  import opened Sets
  import opened AddressMapping
  import opened Children

  lemma RequestsIgnoreLife(s: State)
    ensures RequestAll(s.(life := ShuttingDown)) == RequestAll(s).(life := ShuttingDown)
  {
    assert AllUnasked(s.(life := ShuttingDown)) == AllUnasked(s);
  }

  function UnaskedAmong(was: State, done: set<Addr>): set<Addr> {
    set c | c in done && Unasked(was, c)
  }

  /** The loop of `request_shutdown` has dealt with `done`. */
  ghost predicate HalfAsked(was: State, actors: map<Addr, Asked>, requests: multiset<Addr>, done: set<Addr>) {
    && actors == (map c | c in was.actors :: if c in done && Unasked(was, c) then Sent else was.actors[c])
    && requests == was.log.requests + multiset(UnaskedAmong(was, done))
  }

  lemma NoneDone(was: State)
    ensures HalfAsked(was, was.actors, was.log.requests, {})
  {
    assert UnaskedAmong(was, {}) == {};
  }

  lemma OneMoreDone(was: State, actors: map<Addr, Asked>, requests: multiset<Addr>, done: set<Addr>, c: Addr)
    requires HalfAsked(was, actors, requests, done) && c in was.actors && c !in done
    ensures c in actors && actors[c] == was.actors[c]
    ensures if c != was.self && actors[c] == None
            then HalfAsked(was, actors[c := Sent], requests + multiset{c}, done + {c})
            else HalfAsked(was, actors, requests, done + {c})
  {
    assert UnaskedAmong(was, done + {c}) == UnaskedAmong(was, done) + if Unasked(was, c) then {c} else {};
  }

  lemma AllDone(was: State, actors: map<Addr, Asked>, requests: multiset<Addr>)
    requires HalfAsked(was, actors, requests, was.actors.Keys)
    ensures RequestAll(was) == was.(actors := actors, log := was.log.(requests := requests))
  {
    assert UnaskedAmong(was, was.actors.Keys) == AllUnasked(was);
  }

  class Manager {
    const self: Addr
    const hasParent: bool
    var life: Life
    var actorsMap: map<Addr, Asked>
    const addressMapping: Mapping
    var unsubscribing: set<Point>
    var shutdownReaction: bool
    var requests: multiset<Addr>
    ghost var created: set<Addr>
    ghost var late: set<Addr>
    ghost var answers: multiset<Addr>
    ghost var removals: multiset<Addr>

    ghost function Abs(): State
      reads this, addressMapping
    {
      State(self, hasParent, life, actorsMap, addressMapping.actorMap, unsubscribing, shutdownReaction,
        Log(created, late, requests, answers, removals))
    }

    constructor (self: Addr, hasParent: bool)
      ensures Abs() == Initially(self, hasParent) && fresh(addressMapping)
    {
      this.self, this.hasParent := self, hasParent;
      life, actorsMap, unsubscribing, shutdownReaction := Running, map[self := None], {}, true;
      requests, created, late, answers, removals := multiset{}, {}, {}, multiset{}, multiset{};
      addressMapping := new Mapping();
    }

    method CreateChild(child: Addr)
      requires child != self && child !in created
      modifies this`actorsMap, this`created, this`late
      ensures Abs() == OnCreate(old(Abs()), child)
    {
      actorsMap := actorsMap[child := None];
      created := created + {child};
      if !shutdownReaction { late := late + {child}; }
    }

    /** Sends a child its shutdown request, unless that has been done. */
    method RequestShutdown(child: Addr)
      requires child in actorsMap && child != self
      modifies this`actorsMap, this`requests
      ensures Abs() == RequestOne(old(Abs()), child)
    {
      if actorsMap[child] == None {
        requests := requests + multiset{child};
        actorsMap := actorsMap[child := Sent];
      }
    }

    method RequestShutdownOfAll()
      requires self in actorsMap && actorsMap[self] != None
      modifies this`actorsMap, this`requests
      ensures Abs() == RequestAll(old(Abs()))
    {
      hide HalfAsked, RequestAll, AllUnasked;
      ghost var was := Abs();
      ghost var done: set<Addr> := {};
      NoneDone(was);
      var todo := actorsMap.Keys;
      while todo != {}
        invariant todo <= was.actors.Keys && done == was.actors.Keys - todo
        invariant HalfAsked(was, actorsMap, requests, done)
        decreases todo
        modifies this`actorsMap, this`requests
      {
        ghost var some := Member(todo);
        var it :| it in todo;
        OneMoreDone(was, actorsMap, requests, done, it);
        if it != self && actorsMap[it] == None {
          requests := requests + multiset{it};
          actorsMap := actorsMap[it := Sent];
        }
        todo, done := todo - {it}, done + {it};
      }
      assert done == was.actors.Keys;
      AllDone(was, actorsMap, requests);
    }

    method HandleShutdown() returns (agreed: bool)
      requires self in actorsMap
      modifies this`actorsMap, this`requests
      ensures Abs() == RequestAll(Confirm(old(Abs()), self)) && (agreed <==> |actorsMap| == 1)
    {
      actorsMap := actorsMap[self := Confirmed];
      RequestShutdownOfAll();
      agreed := |actorsMap| == 1;
    }

    /** What the plugins polled later do. */
    method ContinueWithRest(v: Votes)
      modifies this`unsubscribing, this`life
      ensures Abs() == PollRest(old(Abs()), v)
    {
      if v.unsubscribes {
        unsubscribing := unsubscribing + AllPoints(addressMapping.actorMap);
      } else if v.rest && addressMapping.actorMap == map[] {
        life := ShutDown;
      }
    }

    method ShutdownContinue(v: Votes)
      requires shutdownReaction ==> self in actorsMap
      modifies this
      ensures Abs() == Poll(old(Abs()), v)
    {
      if life == ShuttingDown && v.reached {
        if shutdownReaction {
          var agreed := HandleShutdown();
          if !agreed {
            return;
          }
          shutdownReaction := false;
        }
        ContinueWithRest(v);
      }
    }

    /** A supervisor without parent does not send itself a request. */
    method StartOwnShutdown(v: Votes)
      requires self in actorsMap
      modifies this
      ensures Abs() == ShutdownSelf(old(Abs()), v) && (self in actorsMap)
    {
      if life != ShuttingDown {
        hide RequestAll, Poll;
        ghost var was := Abs();
        actorsMap := actorsMap[self := Confirmed];
        life := ShuttingDown;
        RequestShutdownOfAll();
        RequestsIgnoreLife(Confirm(was, self));
        ghost var asked := Abs();
        PollKeepsActors(asked, v);
        ShutdownContinue(v);
        assert Abs().actors.Keys == asked.actors.Keys;
      }
    }

    method OnShutdownTrigger(source: Addr, v: Votes)
      requires source in actorsMap && self in actorsMap
      modifies this
      ensures Abs() == OnTrigger(old(Abs()), source, v)
    {
      if actorsMap[source] != None {
        return;
      }
      if source != self {
        RequestShutdown(source);
      } else if hasParent {
        actorsMap := actorsMap[self := Sent];
      } else {
        StartOwnShutdown(v);
        actorsMap := actorsMap[self := Sent];
      }
    }

    method RemoveChild(child: Addr)
      requires child in actorsMap
      modifies this`actorsMap, this`removals
      ensures Abs() == Dropped(old(Abs()), child)
    {
      actorsMap := actorsMap - {child};
      removals := removals + multiset{child};
    }

    /** `each_subscription` with the action of `on_shutdown_confirm`. */
    method UnsubscribeEach(points: Points)
      modifies this`unsubscribing
      ensures unsubscribing == old(unsubscribing) + set t | t in points :: points[t]
    {
      ghost var done: set<int> := {};
      var todo := points.Keys;
      while todo != {}
        invariant done !! todo && done + todo == points.Keys
        invariant unsubscribing == old(unsubscribing) + set t | t in done :: points[t]
        decreases todo
        modifies this`unsubscribing
      {
        ghost var some := Member(todo);
        var it :| it in todo;
        ghost var before := set t | t in done :: points[t];
        unsubscribing := unsubscribing + {points[it]};
        todo, done := todo - {it}, done + {it};
        assert (set t | t in done :: points[t]) == before + {points[it]};
      }
      assert done == points.Keys;
    }

    method OnShutdownConfirm(source: Addr)
      requires answers[source] < requests[source] && source in actorsMap
      modifies this
      ensures Abs() == OnAnswer(old(Abs()), source)
    {
      answers := answers + multiset{source};
      actorsMap := actorsMap[source := Confirmed];
      if source in addressMapping.actorMap {
        UnsubscribeEach(addressMapping.actorMap[source]);
      } else {
        RemoveChild(source);
      }
    }

    method HandleUnsubscription(point: Point)
      requires point in unsubscribing && Tidy(addressMapping.actorMap) && point.owner in addressMapping.actorMap
      modifies this, addressMapping
      ensures Abs() == OnUnsubscribed(old(Abs()), point)
    {
      unsubscribing := unsubscribing - {point};
      addressMapping.RemovePoint(point);
      if point.owner !in addressMapping.actorMap && point.owner in actorsMap {
        RemoveChild(point.owner);
      }
    }

    method Deactivate()
      requires !shutdownReaction && (|actorsMap| == 1 ==> self in actorsMap)
      modifies this
      ensures Abs() == OnDeactivate(old(Abs()))
    {
      if addressMapping.actorMap == map[] {
        if |actorsMap| == 1 {
          RemoveChild(self);
        }
      }
    }

    method MapPoint(child: Addr, kind: int, point: Point)
      requires point.owner == child && forall q :: q in AllPoints(addressMapping.actorMap) ==> !Same(q, point)
      modifies addressMapping
      ensures Abs() == OnMap(old(Abs()), child, kind, point)
    {
      addressMapping.SetPoint(child, kind, point);
    }
  }
}
