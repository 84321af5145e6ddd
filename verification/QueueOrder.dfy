/** The order of the waiting queue: a Redis sorted set, by score and then by member. */
module QueueOrder {
  import opened Domain

  type Queue = map<RequestId, int>

  predicate Before(q: Queue, a: RequestId, b: RequestId)
    requires a in q && b in q
  {
    q[a] < q[b] || (q[a] == q[b] && a < b)
  }

  /** `r` is the head of `w`: every other member comes after it. */
  predicate IsLeast(q: Queue, w: set<RequestId>, r: RequestId)
    requires w <= q.Keys
  {
    r in w && forall x | x in w && x != r :: Before(q, r, x)
  }

  lemma SomeMember<T>(w: set<T>) returns (x: T)
    requires w != {}
    ensures x in w
  {
    x :| x in w;
  }

  lemma LeastExists(q: Queue, w: set<RequestId>) returns (r: RequestId)
    requires w <= q.Keys && w != {}
    ensures IsLeast(q, w, r)
    decreases w
  {
    var x := SomeMember(w);
    if w == {x} {
      r := x;
    } else {
      var m := LeastExists(q, w - {x});
      if Before(q, x, m) {
        r := x;
        forall y | y in w && y != x ensures Before(q, x, y) {
          if y != m {
            assert y in w - {x};
            assert Before(q, m, y);
          }
        }
      } else {
        r := m;
      }
    }
  }

  lemma LeastUnique(q: Queue, w: set<RequestId>, a: RequestId, b: RequestId)
    requires w <= q.Keys && IsLeast(q, w, a) && IsLeast(q, w, b)
    ensures a == b
  {
  }

  ghost function Least(q: Queue, w: set<RequestId>): (r: RequestId)
    requires w <= q.Keys && w != {}
    ensures IsLeast(q, w, r)
  {
    assert exists r :: IsLeast(q, w, r) by { var r := LeastExists(q, w); }
    var r :| IsLeast(q, w, r);
    r
  }
}
