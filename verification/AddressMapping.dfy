/** The addresses a supervisor has set up for the responses to its actors' requests:
    `address_mapping_t`, a map from actors to their points by message type. */
module AddressMapping {
  import opened Sets

  type Actor = int
  type Type = int

  /** A subscription point: handler and address identify it, `owner` is the requesting actor. */
  datatype Point = Point(owner: Actor, handler: int, address: int)

  datatype Mapped = Nowhere | Somewhere(address: int)

  type Points = map<Type, Point>

  function PointsOf(m: map<Actor, Points>, a: Actor): Points {
    if a in m then m[a] else map[]
  }

  function Set(m: map<Actor, Points>, a: Actor, t: Type, p: Point): map<Actor, Points> {
    m[a := if t in PointsOf(m, a) then PointsOf(m, a) else PointsOf(m, a)[t := p]]
  }

  predicate Same(p: Point, q: Point) {
    p.handler == q.handler && p.address == q.address
  }

  function Others(points: Points, p: Point): Points {
    map t | t in points && !Same(points[t], p) :: points[t]
  }

  /** Without the point; an actor that has none left is dropped. */
  function Remove(m: map<Actor, Points>, p: Point): map<Actor, Points> {
    if p.owner !in m then m
    else if Others(m[p.owner], p) == map[] then m - {p.owner}
    else m[p.owner := Others(m[p.owner], p)]
  }

  predicate Has(m: map<Actor, Points>, p: Point) {
    p.owner in m && exists t :: t in m[p.owner] && m[p.owner][t] == p
  }

  /** No actor is kept without points, points are kept with their owners, and no point twice. */
  ghost predicate Tidy(m: map<Actor, Points>) {
    && (forall a :: a in m ==> m[a] != map[])
    && (forall a, t :: a in m && t in m[a] ==> m[a][t].owner == a)
    && (forall a, t, u :: a in m && t in m[a] && u in m[a] && Same(m[a][t], m[a][u]) ==> t == u)
  }

  predicate IsNew(m: map<Actor, Points>, p: Point) {
    forall a, t :: a in m && t in m[a] ==> !Same(m[a][t], p)
  }

  lemma SetKeepsTidy(m: map<Actor, Points>, a: Actor, t: Type, p: Point)
    requires Tidy(m) && p.owner == a && IsNew(m, p)
    ensures Tidy(Set(m, a, t, p))
  {
    assert t in Set(m, a, t, p)[a];
  }

  lemma RemoveKeepsTidy(m: map<Actor, Points>, p: Point)
    requires Tidy(m)
    ensures Tidy(Remove(m, p))
  {}

  /** Exactly the given point goes; every other point stays where it was. */
  lemma RemoveIsExact(m: map<Actor, Points>, p: Point, q: Point)
    requires Tidy(m) && Has(m, p)
    ensures Has(Remove(m, p), q) <==> Has(m, q) && q != p
  {
    var u :| u in m[p.owner] && m[p.owner][u] == p;
    var m' := Remove(m, p);
    if Has(m, q) && q != p {
      var t :| t in m[q.owner] && m[q.owner][t] == q;
      if q.owner == p.owner {
        assert t in Others(m[p.owner], p);
        assert t in m'[q.owner] && m'[q.owner][t] == q;
      } else {
        assert t in m'[q.owner] && m'[q.owner][t] == q;
      }
    }
    if Has(m', q) {
      var t :| t in m'[q.owner] && m'[q.owner][t] == q;
      assert t in m[q.owner] && m[q.owner][t] == q;
    }
  }

  /** An actor has subscriptions exactly as long as it has a point. */
  lemma SubscriptionsArePoints(m: map<Actor, Points>, a: Actor)
    requires Tidy(m)
    ensures a in m <==> exists p :: Has(m, p) && p.owner == a
  {
    if a in m {
      ghost var some := Member(m[a].Keys);
      assert some in m[a];
      assert Has(m, m[a][some]);
    }
  }

  /** Setting a new point up and removing it again changes nothing, if its type was free. */
  lemma SetThenRemove(m: map<Actor, Points>, a: Actor, t: Type, p: Point)
    requires Tidy(m) && p.owner == a && IsNew(m, p) && t !in PointsOf(m, a)
    ensures Remove(Set(m, a, t, p), p) == m
  {
    var points := PointsOf(m, a);
    forall u | u in points ensures !Same(points[u], p) {
      assert m[a][u] == points[u];
    }
    assert Others(points[t := p], p) == points;
    if a !in m {
      assert Set(m, a, t, p) - {a} == m;
    } else {
      assert Set(m, a, t, p)[a := points] == m;
    }
  }

  lemma OneSame(m: map<Actor, Points>, a: Actor, p: Point, t: Type)
    requires Tidy(m) && a in m && t in m[a] && Same(m[a][t], p)
    ensures Others(m[a], p) == m[a] - {t}
  {
    forall u | u in m[a] && u != t ensures !Same(m[a][u], p) {
      assert !Same(m[a][t], m[a][u]);
    }
  }

  lemma NoneSame(points: Points, p: Point)
    requires forall t :: t in points ==> !Same(points[t], p)
    ensures Others(points, p) == points
  {
    forall t | t in points ensures t in Others(points, p) {
      assert !Same(points[t], p);
    }
  }

  class Mapping {
    var actorMap: map<Actor, Points>

    constructor ()
      ensures actorMap == map[]
    {
      actorMap := map[];
    }

    method SetPoint(a: Actor, t: Type, p: Point)
      modifies this
      ensures actorMap == Set(old(actorMap), a, t, p)
    {
      var pointMap := if a in actorMap then actorMap[a] else map[];
      if t !in pointMap {
        pointMap := pointMap[t := p];
      }
      actorMap := actorMap[a := pointMap];
    }

    method GetMappedAddress(a: Actor, t: Type) returns (r: Mapped)
      ensures r == if t in PointsOf(actorMap, a) then Somewhere(actorMap[a][t].address) else Nowhere
    {
      if a !in actorMap {
        return Nowhere;
      }
      if t !in actorMap[a] {
        return Nowhere;
      }
      return Somewhere(actorMap[a][t].address);
    }

    method RemovePoint(p: Point)
      requires Tidy(actorMap) && p.owner in actorMap
      modifies this
      ensures actorMap == Remove(old(actorMap), p)
    {
      var subs := actorMap[p.owner];
      var todo := subs.Keys;
      while todo != {}
        invariant actorMap == old(actorMap) && subs == actorMap[p.owner] && todo <= subs.Keys
        invariant forall t :: t in subs && t !in todo ==> !Same(subs[t], p)
        decreases todo
      {
        ghost var some := Member(todo);
        var it :| it in todo;
        if Same(subs[it], p) {
          OneSame(actorMap, p.owner, p, it);
          subs := subs - {it};
          break;
        }
        todo := todo - {it};
      }
      if todo == {} {
        NoneSame(subs, p);
      }
      if subs == map[] {
        actorMap := actorMap - {p.owner};
      } else {
        actorMap := actorMap[p.owner := subs];
      }
    }

    method HasSubscriptions(a: Actor) returns (has: bool)
      requires Tidy(actorMap)
      ensures has <==> exists p :: Has(actorMap, p) && p.owner == a
    {
      SubscriptionsArePoints(actorMap, a);
      has := a in actorMap;
    }
  }
}
