/**
 * The bounded replay guard of the journal App.
 *
 * An ordered dictionary from request ID to request identity, bounded by `limit` entries.  A second
 * claim of a remembered ID is refused unless it is idempotent and carries the same identity, in
 * which case the entry becomes the newest one; a first claim evicts the oldest entry on overflow.
 */
module ReplayGuards {
  import opened Basics

  /** The ordered dictionary: its keys, newest first, and the identity stored for each. */
  datatype Guard<K, V> = Guard(order: seq<K>, entries: map<K, V>)

  datatype Claim<K, V> = Claim(id: K, identity: V, idempotent: bool)

  function Empty<K, V>(): Guard<K, V> {
    Guard([], map[])
  }

  ghost predicate WellFormed<K, V>(g: Guard<K, V>) {
    Distinct(g.order) && g.entries.Keys == Elements(g.order)
  }

  /** The first position of an element. */
  function Index<K(==)>(s: seq<K>, x: K): (i: nat)
    requires x in s
    ensures i < |s| && s[i] == x
    ensures forall j :: 0 <= j < i ==> s[j] != x
  {
    if s[0] == x then 0
    else
      assert s == [s[0]] + s[1..];
      1 + Index(s[1..], x)
  }

  function Remove<K(==)>(s: seq<K>, x: K): seq<K> {
    if x in s then s[..Index(s, x)] + s[Index(s, x) + 1..] else s
  }

  predicate Accepts<K(==), V(==)>(g: Guard<K, V>, c: Claim<K, V>) {
    c.id !in g.entries || (c.idempotent && g.entries[c.id] == c.identity)
  }

  /** One claim, whether it is accepted or refused. */
  function After<K(==), V(==)>(g: Guard<K, V>, limit: nat, c: Claim<K, V>): Guard<K, V> {
    if !Accepts(g, c) then g
    else if c.id in g.entries then Guard([c.id] + Remove(g.order, c.id), g.entries)
    else
      var order := [c.id] + g.order;
      var entries := g.entries[c.id := c.identity];
      if |order| <= limit then Guard(order, entries)
      else Guard(order[..|order| - 1], entries - {order[|order| - 1]})
  }

  /** The guard as the App mutates it. */
  class ReplayGuard<K(==), V(==)> {
    const limit: nat
    var order: seq<K>
    var entries: map<K, V>

    ghost function State(): Guard<K, V>
      reads this
    {
      Guard(order, entries)
    }

    constructor (limit: nat)
      ensures this.limit == limit && State() == Empty()
    {
      this.limit := limit;
      order, entries := [], map[];
    }

    method TryClaim(id: K, identity: V, idempotent: bool) returns (accepted: bool)
      requires WellFormed(State())
      modifies this
      ensures accepted == old(Accepts(State(), Claim(id, identity, idempotent)))
      ensures State() == old(After(State(), limit, Claim(id, identity, idempotent)))
      ensures WellFormed(State())
    {
      AfterWellFormed(State(), limit, Claim(id, identity, idempotent));
      if id in entries {
        if !idempotent || entries[id] != identity {
          return false;
        }
        order := [id] + Remove(order, id);
        return true;
      }
      entries := entries[id := identity];
      order := [id] + order;
      if |order| > limit {
        entries := entries - {order[|order| - 1]};
        order := order[..|order| - 1];
      }
      return true;
    }
  }

  lemma RemoveElements<K>(s: seq<K>, x: K)
    requires Distinct(s)
    ensures Distinct(Remove(s, x))
    ensures Elements(Remove(s, x)) == Elements(s) - {x}
  {
    if x in s {
      var i := Index(s, x);
      var front, back := s[..i], s[i + 1..];
      assert s == front + [x] + back;
      ElementsConcat(front, [x]);
      ElementsConcat(front + [x], back);
      ElementsConcat(front, back);
      assert x !in back by {
        assert forall j :: 0 <= j < |back| ==> back[j] == s[i + 1 + j];
      }
    }
  }

  lemma AfterWellFormed<K, V>(g: Guard<K, V>, limit: nat, c: Claim<K, V>)
    requires WellFormed(g)
    ensures WellFormed(After(g, limit, c))
  {
    if Accepts(g, c) && c.id in g.entries {
      RemoveElements(g.order, c.id);
      ElementsConcat([c.id], Remove(g.order, c.id));
    } else if Accepts(g, c) {
      var order := [c.id] + g.order;
      ElementsConcat([c.id], g.order);
      assert Distinct(order);
      var front, last := order[..|order| - 1], order[|order| - 1];
      ElementsConcat(front, [last]);
      assert order == front + [last];
      assert last !in front;
    }
  }

  /* ---------- what a whole run of claims remembers ---------- */

  function Run<K(==), V(==)>(limit: nat, claims: seq<Claim<K, V>>): Guard<K, V> {
    if claims == [] then Empty()
    else After(Run(limit, claims[..|claims| - 1]), limit, claims[|claims| - 1])
  }

  predicate AcceptedAt<K(==), V(==)>(limit: nat, claims: seq<Claim<K, V>>, i: nat)
    requires i < |claims|
  {
    Accepts(Run(limit, claims[..i]), claims[i])
  }

  /** The IDs of the accepted claims of a run, in order and with repetitions. */
  function Accepted<K(==), V(==)>(limit: nat, claims: seq<Claim<K, V>>): seq<K> {
    if claims == [] then []
    else
      var n := |claims| - 1;
      var earlier := Accepted(limit, claims[..n]);
      if AcceptedAt(limit, claims, n) then earlier + [claims[n].id] else earlier
  }

  /** Reference: the distinct IDs of a history, those with the latest occurrence first. */
  function ByRecency<K(==)>(h: seq<K>): seq<K> {
    if h == [] then []
    else [h[|h| - 1]] + Remove(ByRecency(h[..|h| - 1]), h[|h| - 1])
  }

  /** The first `n` elements, or all of them. */
  function Take<K>(s: seq<K>, n: nat): seq<K> {
    if |s| <= n then s else s[..n]
  }

  /** Reference: the IDs claimed after the latest claim of `x`. */
  ghost function Since<K>(h: seq<K>, x: K): set<K> {
    if h == [] || h[|h| - 1] == x then {} else Since(h[..|h| - 1], x) + {h[|h| - 1]}
  }

  lemma {:induction false} ByRecencyDistinct<K>(h: seq<K>)
    ensures Distinct(ByRecency(h))
    ensures Elements(ByRecency(h)) == Elements(h)
  {
    if h != [] {
      var n := |h| - 1;
      var d := ByRecency(h[..n]);
      ByRecencyDistinct(h[..n]);
      RemoveElements(d, h[n]);
      assert h == h[..n] + [h[n]];
      ElementsConcat(h[..n], [h[n]]);
      ElementsConcat([h[n]], Remove(d, h[n]));
      assert h[n] !in Remove(d, h[n]);
    }
  }

  /** The position of an element within a prefix that contains it. */
  lemma IndexInPrefix<K>(d: seq<K>, x: K, n: nat)
    requires n <= |d|
    ensures x in d[..n] <==> x in d && Index(d, x) < n
    ensures x in d[..n] ==> Index(d[..n], x) == Index(d, x)
  {
    var p := d[..n];
    assert forall j :: 0 <= j < n ==> p[j] == d[j];
    if x in p {
      IndexIs(d, x, Index(p, x));
    }
  }

  lemma IndexIs<K>(s: seq<K>, x: K, i: nat)
    requires i < |s| && s[i] == x && forall j :: 0 <= j < i ==> s[j] != x
    ensures Index(s, x) == i
  {
  }

  lemma TakeConcat<K>(a: seq<K>, b: seq<K>, n: nat)
    requires |a| <= n <= |a| + |b|
    ensures (a + b)[..n] == a + b[..n - |a|]
  {
  }

  /** Keeping the first `n - 1` of a sequence without its element `k`. */
  lemma TakeWithout<K>(d: seq<K>, k: nat, n: nat)
    requires 1 <= n < |d| && k < |d|
    ensures k < n ==> (d[..k] + d[k + 1..])[..n - 1] == d[..n][..k] + d[..n][k + 1..]
    ensures k >= n ==> (d[..k] + d[k + 1..])[..n - 1] == d[..n][..n - 1]
  {
    if k < n {
      TakeConcat(d[..k], d[k + 1..], n - 1);
      assert d[k + 1..][..n - 1 - k] == d[..n][k + 1..];
      assert d[..k] == d[..n][..k];
    } else {
      assert (d[..k] + d[k + 1..])[..n - 1] == d[..n - 1];
    }
  }

  /** Moving an element to the front commutes with keeping the first `n`. */
  lemma TakeStep<K>(d: seq<K>, x: K, n: nat)
    requires n >= 1
    ensures Take([x] + Remove(d, x), n) == Take([x] + Remove(Take(d, n), x), n)
  {
    if |d| > n {
      IndexInPrefix(d, x, n);
      TakeConcat([x], Remove(d, x), n);
      if x in d {
        TakeWithout(d, Index(d, x), n);
      } else {
        assert d[..n - 1] == d[..n][..n - 1];
      }
      if x !in d[..n] {
        TakeConcat([x], d[..n], n);
      }
    }
  }

  lemma AcceptedStep<K, V>(g: Guard<K, V>, limit: nat, c: Claim<K, V>, h: seq<K>)
    requires limit >= 1 && WellFormed(g) && Accepts(g, c) && |g.order| <= limit
    requires g.order == Take(ByRecency(h), limit)
    ensures After(g, limit, c).order == Take(ByRecency(h + [c.id]), limit)
  {
    TakeStep(ByRecency(h), c.id, limit);
    assert (h + [c.id])[..|h|] == h;
    assert c.id in g.entries <==> c.id in g.order;
  }

  /**
   * The guard holds exactly the most recently claimed request IDs, up to its limit and in order of
   * their latest accepted claim.
   */
  lemma {:induction false} HoldsTheMostRecent<K, V>(limit: nat, claims: seq<Claim<K, V>>)
    requires limit >= 1
    ensures WellFormed(Run(limit, claims))
    ensures Run(limit, claims).order == Take(ByRecency(Accepted(limit, claims)), limit)
  {
    if claims != [] {
      var n := |claims| - 1;
      HoldsTheMostRecent(limit, claims[..n]);
      var g, c := Run(limit, claims[..n]), claims[n];
      AfterWellFormed(g, limit, c);
      if Accepts(g, c) {
        AcceptedStep(g, limit, c, Accepted(limit, claims[..n]));
      }
    }
  }

  /** The IDs before `x` in the recency order are exactly those claimed since `x`. */
  lemma {:induction false} SinceIsAhead<K>(h: seq<K>, x: K)
    requires x in h
    ensures x in ByRecency(h)
    ensures Elements(ByRecency(h)[..Index(ByRecency(h), x)]) == Since(h, x)
  {
    var n := |h| - 1;
    var d, y := ByRecency(h[..n]), h[n];
    assert h == h[..n] + [y];
    if y != x {
      SinceIsAhead(h[..n], x);
      AheadAfterMove(d, x, y);
    }
  }

  lemma {:induction false} AheadAfterMove<K>(d: seq<K>, x: K, y: K)
    requires x in d && x != y
    ensures x in [y] + Remove(d, y)
    ensures Elements(([y] + Remove(d, y))[..Index([y] + Remove(d, y), x)])
            == Elements(d[..Index(d, x)]) + {y}
  {
    var r := Remove(d, y);
    assert x in r by {
      if y in d {
        assert d == d[..Index(d, y)] + [y] + d[Index(d, y) + 1..];
      }
    }
    assert ([y] + r)[1..] == r;
    var k := Index(r, x);
    assert ([y] + r)[..1 + k] == [y] + r[..k];
    ElementsConcat([y], r[..k]);
    AheadAfterRemove(d, x, y);
  }

  /** Removing an element that comes after `x` leaves what is ahead of `x`. */
  lemma RemoveBehind<K>(d: seq<K>, x: K, k: nat)
    requires x in d && Index(d, x) < k < |d|
    ensures var r := d[..k] + d[k + 1..];
            x in r && r[..Index(r, x)] == d[..Index(d, x)]
  {
    var r, i := d[..k] + d[k + 1..], Index(d, x);
    assert r[..i] == d[..i] && r[i] == x;
    assert forall j :: 0 <= j < i ==> r[j] == d[j];
    IndexIs(r, x, i);
  }

  /** Removing an element ahead of `x` takes only that one out of what is ahead. */
  lemma RemoveAhead<K>(d: seq<K>, x: K, k: nat)
    requires x in d && k < Index(d, x)
    ensures var r := d[..k] + d[k + 1..];
            x in r && r[..Index(r, x)] == d[..k] + d[k + 1..Index(d, x)]
  {
    var r, i := d[..k] + d[k + 1..], Index(d, x);
    assert r[i - 1] == x;
    assert forall j :: 0 <= j < i - 1 ==> r[j] == d[if j < k then j else j + 1];
    IndexIs(r, x, i - 1);
    assert r[..i - 1] == d[..k] + d[k + 1..i];
  }

  lemma WithoutMiddle<K>(front: seq<K>, y: K, back: seq<K>)
    ensures Elements(front + back) + {y} == Elements(front + [y] + back) + {y}
  {
    ElementsConcat(front, [y]);
    ElementsConcat(front + [y], back);
    ElementsConcat(front, back);
  }

  lemma SplitAt<K>(d: seq<K>, k: nat, i: nat)
    requires k < i <= |d|
    ensures d[..i] == d[..k] + [d[k]] + d[k + 1..i]
  {
  }

  lemma AheadAfterRemove<K>(d: seq<K>, x: K, y: K)
    requires x in d && x != y && x in Remove(d, y)
    ensures Elements(Remove(d, y)[..Index(Remove(d, y), x)]) + {y} == Elements(d[..Index(d, x)]) + {y}
  {
    hide Elements, Index;
    var i := Index(d, x);
    if y in d {
      var k := Index(d, y);
      if k < i {
        RemoveAhead(d, x, k);
        SplitAt(d, k, i);
        WithoutMiddle(d[..k], y, d[k + 1..i]);
      } else {
        RemoveBehind(d, x, k);
      }
    }
  }

  /** Reference: the identity of the latest accepted claim of `id` in a run. */
  function LastIdentity<K(==), V(==)>(limit: nat, claims: seq<Claim<K, V>>, id: K): Option<V> {
    if claims == [] then None
    else
      var n := |claims| - 1;
      if AcceptedAt(limit, claims, n) && claims[n].id == id then Some(claims[n].identity)
      else LastIdentity(limit, claims[..n], id)
  }

  /** A remembered ID is held with the identity of its latest accepted claim. */
  lemma {:induction false} HoldsTheLastIdentity<K, V>(limit: nat, claims: seq<Claim<K, V>>, id: K)
    requires id in Run(limit, claims).entries
    ensures LastIdentity(limit, claims, id) == Some(Run(limit, claims).entries[id])
  {
    if claims != [] {
      var n := |claims| - 1;
      if !(AcceptedAt(limit, claims, n) && claims[n].id == id) {
        HoldsTheLastIdentity(limit, claims[..n], id);
      }
    }
  }

  /** An ID is remembered exactly when it was accepted and fewer than `limit` distinct IDs have been accepted since. */
  lemma RememberedExactlyWhileRecent<K, V>(limit: nat, claims: seq<Claim<K, V>>, id: K)
    requires limit >= 1
    ensures var h := Accepted(limit, claims);
            id in Run(limit, claims).entries <==> id in h && |Since(h, id)| < limit
  {
    var h := Accepted(limit, claims);
    HoldsTheMostRecent(limit, claims);
    assert id in Run(limit, claims).entries <==> id in Take(ByRecency(h), limit);
    ByRecencyDistinct(h);
    if id in h {
      SinceIsAhead(h, id);
      InTake(ByRecency(h), id, limit);
    }
  }

  /**
   * A claim is refused exactly when its ID was accepted before, fewer than `limit` distinct IDs have
   * been accepted since, and it is not an idempotent claim that repeats the identity of the latest
   * accepted one.
   */
  lemma RefusedExactlyWhileRecent<K, V>(limit: nat, claims: seq<Claim<K, V>>, c: Claim<K, V>)
    requires limit >= 1
    ensures var h := Accepted(limit, claims);
            !Accepts(Run(limit, claims), c) <==>
              && c.id in h && |Since(h, c.id)| < limit
              && !(c.idempotent && LastIdentity(limit, claims, c.id) == Some(c.identity))
  {
    RememberedExactlyWhileRecent(limit, claims, c.id);
    if c.id in Run(limit, claims).entries {
      HoldsTheLastIdentity(limit, claims, c.id);
    }
  }

  lemma InTake<K>(d: seq<K>, x: K, n: nat)
    requires Distinct(d) && x in d
    ensures x in Take(d, n) <==> |Elements(d[..Index(d, x)])| < n
  {
    DistinctCount(d[..Index(d, x)]);
    if |d| > n {
      IndexInPrefix(d, x, n);
    }
  }

  /** The IDs accepted at positions `lo <= k < hi` of a run. */
  ghost function AcceptedIn<K, V>(limit: nat, claims: seq<Claim<K, V>>, lo: nat, hi: nat): set<K>
    requires hi <= |claims|
  {
    set k | lo <= k < hi && AcceptedAt(limit, claims, k) :: claims[k].id
  }

  lemma AcceptedInPrefix<K, V>(limit: nat, claims: seq<Claim<K, V>>, lo: nat, n: nat)
    requires n <= |claims|
    ensures AcceptedIn(limit, claims[..n], lo, n) == AcceptedIn(limit, claims, lo, n)
  {
    forall k | 0 <= k < n ensures claims[..n][..k] == claims[..k] && claims[..n][k] == claims[k] {
    }
  }

  lemma {:induction false} SinceWithinRun<K, V>(limit: nat, claims: seq<Claim<K, V>>, i: nat)
    requires i < |claims| && AcceptedAt(limit, claims, i)
    ensures claims[i].id in Accepted(limit, claims)
    ensures Since(Accepted(limit, claims), claims[i].id)
            <= AcceptedIn(limit, claims, i + 1, |claims|) - {claims[i].id}
  {
    hide Run, Accepts;
    var n := |claims| - 1;
    var h, x := Accepted(limit, claims[..n]), claims[i].id;
    if i < n {
      assert claims[..n][..i] == claims[..i];
      SinceWithinRun(limit, claims[..n], i);
      AcceptedInPrefix(limit, claims, i + 1, n);
    }
    if AcceptedAt(limit, claims, n) {
      assert (h + [claims[n].id])[..|h|] == h;
      if i < n && claims[n].id != x {
        assert claims[n].id in AcceptedIn(limit, claims, i + 1, |claims|);
      }
    }
  }

  /**
   * A non-idempotent ID, once accepted, is accepted again only after at least `limit` other
   * distinct IDs were accepted in between.
   */
  lemma ReclaimNeedsLimitOthers<K, V>(limit: nat, claims: seq<Claim<K, V>>, i: nat, j: nat)
    requires limit >= 1 && i < j < |claims|
    requires claims[i].id == claims[j].id && !claims[j].idempotent
    requires AcceptedAt(limit, claims, i) && AcceptedAt(limit, claims, j)
    ensures |AcceptedIn(limit, claims, i + 1, j) - {claims[i].id}| >= limit
  {
    var before := claims[..j];
    assert before[..i] == claims[..i];
    RefusedExactlyWhileRecent(limit, before, claims[j]);
    SinceWithinRun(limit, before, i);
    AcceptedInPrefix(limit, claims, i + 1, j);
    SubsetCount(Since(Accepted(limit, before), claims[i].id),
                AcceptedIn(limit, claims, i + 1, j) - {claims[i].id});
  }

  lemma {:induction false} SubsetCount<T>(a: set<T>, b: set<T>)
    requires a <= b
    ensures |a| <= |b|
  {
    assert b == a + (b - a);
  }
}
