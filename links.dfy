/**
 * Which particles `bindParticles` joins with a line: for each particle `i` in storage order,
 * every particle `k` (itself included) whose distance from it is at most the bind distance,
 * in storage order. Distances are compared squared, which is the same test as comparing the
 * Euclidean length: `sqrt(q) <= d` holds exactly when `0 <= d` and `q <= d * d`.
 */
module Links {

  datatype Point = Point(x: real, y: real)

  /** Squared length of the vector from `c` to `p`. */
  function SqDist(p: Point, c: Point): real {
    (p.x - c.x) * (p.x - c.x) + (p.y - c.y) * (p.y - c.y)
  }

  /** The filter's test: the vector from `c` to `p` is no longer than `d`. */
  predicate Within(p: Point, c: Point, d: real) {
    0.0 <= d && SqDist(p, c) <= d * d
  }

  lemma SqDistSymmetric(p: Point, c: Point)
    ensures SqDist(p, c) == SqDist(c, p)
  {
    assert (p.x - c.x) * (p.x - c.x) == (c.x - p.x) * (c.x - p.x);
    assert (p.y - c.y) * (p.y - c.y) == (c.y - p.y) * (c.y - p.y);
  }

  /** `s.filter(...)` around centre `c`: the indices of the points within `d` of it, in storage order. */
  function Neighbours(ps: seq<Point>, c: Point, d: real): (r: seq<nat>)
    ensures |r| <= |ps|
    decreases |ps|
  {
    if ps == [] then []
    else Neighbours(ps[..|ps| - 1], c, d) + (if Within(ps[|ps| - 1], c, d) then [|ps| - 1] else [])
  }

  /** Every index the filter keeps is an index of the sequence. */
  lemma {:induction false} NeighboursBelow(ps: seq<Point>, c: Point, d: real)
    ensures forall a :: 0 <= a < |Neighbours(ps, c, d)| ==> Neighbours(ps, c, d)[a] < |ps|
    decreases |ps|
  {
    if ps != [] {
      NeighboursBelow(ps[..|ps| - 1], c, d);
    }
  }

  /** The filter keeps index `k` exactly when the point there is within `d` of the centre. */
  lemma {:induction false} NeighboursMember(ps: seq<Point>, c: Point, d: real, k: nat)
    ensures k in Neighbours(ps, c, d) <==> k < |ps| && Within(ps[k], c, d)
    decreases |ps|
  {
    if ps != [] {
      var n := |ps| - 1;
      NeighboursMember(ps[..n], c, d, k);
      NeighboursBelow(ps[..n], c, d);
      if k < n {
        assert ps[..n][k] == ps[k];
      }
    }
  }

  /** Strictly increasing. */
  predicate Increasing(ks: seq<nat>) {
    forall a, b :: 0 <= a < b < |ks| ==> ks[a] < ks[b]
  }

  /** The filter keeps indices in increasing order. */
  lemma {:induction false} NeighboursIncreasing(ps: seq<Point>, c: Point, d: real)
    ensures Increasing(Neighbours(ps, c, d))
    decreases |ps|
  {
    if ps != [] {
      NeighboursIncreasing(ps[..|ps| - 1], c, d);
      NeighboursBelow(ps[..|ps| - 1], c, d);
    }
  }

  /** The lines drawn from particle `i`: one to each of its neighbours, in order. */
  function Pairs(i: nat, ks: seq<nat>): seq<(nat, nat)> {
    seq(|ks|, j requires 0 <= j < |ks| => (i, ks[j]))
  }

  /** The inner loop draws a line from `i` to each listed neighbour and to nothing else. */
  lemma PairsMembers(i: nat, ks: seq<nat>, a: nat, k: nat)
    ensures (a, k) in Pairs(i, ks) <==> a == i && k in ks
  {
    var r := Pairs(i, ks);
    if (a, k) in r {
      var j :| 0 <= j < |r| && r[j] == (a, k);
      assert ks[j] in ks;
    }
    if a == i && k in ks {
      var j :| 0 <= j < |ks| && ks[j] == k;
      assert r[j] == (a, k);
    }
  }

  /** Each particle's neighbour list, in storage order: the filter `bindParticles` runs for every particle. */
  function Rows(ps: seq<Point>, d: real): seq<seq<nat>> {
    seq(|ps|, i requires 0 <= i < |ps| => Neighbours(ps, ps[i], d))
  }

  /** The lines drawn by the first `n` rounds of the outer loop, given every particle's neighbour list. */
  function LinksUpTo(rows: seq<seq<nat>>, n: nat): (r: seq<(nat, nat)>)
    requires n <= |rows|
    // every line drawn so far starts at a particle of an earlier round
    ensures forall a :: 0 <= a < |r| ==> r[a].0 < n
    decreases n
  {
    if n == 0 then [] else LinksUpTo(rows, n - 1) + Pairs(n - 1, rows[n - 1])
  }

  /** Every line `bindParticles(d)` draws, as ordered pairs of storage indices. */
  function AllLinks(ps: seq<Point>, d: real): (r: seq<(nat, nat)>)
    ensures forall a :: 0 <= a < |r| ==> r[a].0 < |ps|
  {
    LinksUpTo(Rows(ps, d), |ps|)
  }

  /** After `n` rounds of the outer loop, `(i, k)` has been drawn exactly when `i < n` and `k` is on `i`'s neighbour list. */
  lemma {:induction false} LinksUpToSpec(rows: seq<seq<nat>>, n: nat, i: nat, k: nat)
    requires n <= |rows|
    ensures (i, k) in LinksUpTo(rows, n) <==> i < n && k in rows[i]
    decreases n
  {
    if n > 0 {
      LinksUpToSpec(rows, n - 1, i, k);
      PairsMembers(n - 1, rows[n - 1], i, k);
    }
  }

  /** The link condition: an ordered pair is drawn exactly when both are stored and they are at most `d` apart. */
  lemma LinkedIff(ps: seq<Point>, d: real, i: nat, k: nat)
    ensures (i, k) in AllLinks(ps, d) <==>
            i < |ps| && k < |ps| && 0.0 <= d && SqDist(ps[i], ps[k]) <= d * d
  {
    LinksUpToSpec(Rows(ps, d), |ps|, i, k);
    if i < |ps| {
      NeighboursMember(ps, ps[i], d, k);
      if k < |ps| {
        SqDistSymmetric(ps[i], ps[k]);
      }
    }
  }

  /** Links come in both directions, so each linked pair of distinct particles is drawn twice. */
  lemma LinksSymmetric(ps: seq<Point>, d: real, i: nat, k: nat)
    ensures (i, k) in AllLinks(ps, d) <==> (k, i) in AllLinks(ps, d)
  {
    LinkedIff(ps, d, i, k);
    LinkedIff(ps, d, k, i);
    if i < |ps| && k < |ps| {
      SqDistSymmetric(ps[i], ps[k]);
    }
  }

  /** With a non-negative bind distance every particle is linked to itself. */
  lemma SelfLinked(ps: seq<Point>, d: real, i: nat)
    requires i < |ps| && 0.0 <= d
    ensures (i, i) in AllLinks(ps, d)
  {
    LinkedIff(ps, d, i, i);
    assert SqDist(ps[i], ps[i]) == 0.0;
  }

  /** No entries repeat. */
  predicate NoRepeats<T(==)>(s: seq<T>) {
    forall a, b :: 0 <= a < b < |s| ==> s[a] != s[b]
  }

  /** When every neighbour list is strictly increasing, the first `n` rounds never draw the same ordered pair twice. */
  lemma {:induction false} LinksUpToNoRepeats(rows: seq<seq<nat>>, n: nat)
    requires n <= |rows|
    requires forall i :: 0 <= i < n ==> Increasing(rows[i])
    ensures NoRepeats(LinksUpTo(rows, n))
    decreases n
  {
    if n > 0 {
      LinksUpToNoRepeats(rows, n - 1);
      var front := LinksUpTo(rows, n - 1);
      var ks := rows[n - 1];
      var tail := Pairs(n - 1, ks);
      var all := front + tail;
      forall a, b | 0 <= a < b < |all|
        ensures all[a] != all[b]
      {
        if b < |front| {
        } else if a >= |front| {
          assert tail[a - |front|].1 == ks[a - |front|] < ks[b - |front|] == tail[b - |front|].1;
        } else {
          assert all[a].0 < n - 1 == all[b].0;
        }
      }
    }
  }

  /** Every linked pair is drawn exactly once in each direction: no line is repeated. */
  lemma LinksNoRepeats(ps: seq<Point>, d: real)
    ensures NoRepeats(AllLinks(ps, d))
  {
    var rows := Rows(ps, d);
    forall i | 0 <= i < |ps|
      ensures Increasing(rows[i])
    {
      NeighboursIncreasing(ps, ps[i], d);
    }
    LinksUpToNoRepeats(rows, |ps|);
  }
}
