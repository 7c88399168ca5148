/** Rule-based placement: filter, score, stable descending sort, slice. */
module Placement {
  import opened Types

  /** Python's xs[:r] for any integer r. */
  function SliceTo<T>(xs: seq<T>, r: int): (ys: seq<T>)
    ensures 0 <= r <= |xs| ==> |ys| == r
    ensures ys <= xs
  {
    if r >= |xs| then xs
    else if r >= 0 then xs[..r]
    else if |xs| + r >= 0 then xs[..|xs| + r]
    else []
  }

  function Insert<T>(xs: seq<T>, x: T, key: T -> real): seq<T> {
    if xs == [] || key(xs[0]) < key(x) then [x] + xs
    else [xs[0]] + Insert(xs[1..], x, key)
  }

  /** sorted(xs, key=key, reverse=True): descending, equal keys kept in list order. */
  function StableSort<T>(xs: seq<T>, key: T -> real): seq<T> {
    if xs == [] then [] else Insert(StableSort(xs[..|xs| - 1], key), xs[|xs| - 1], key)
  }

  ghost predicate Descending<T>(xs: seq<T>, key: T -> real) {
    forall i, j :: 0 <= i < j < |xs| ==> key(xs[i]) >= key(xs[j])
  }

  lemma {:induction false} InsertIs<T>(xs: seq<T>, x: T, key: T -> real, y: T)
    ensures |Insert(xs, x, key)| == |xs| + 1
    ensures y in Insert(xs, x, key) <==> y in xs || y == x
  {
    if xs != [] && !(key(xs[0]) < key(x)) {
      InsertIs(xs[1..], x, key, y);
      assert y in xs <==> y == xs[0] || y in xs[1..];
    }
  }

  lemma {:induction false} InsertDescending<T>(xs: seq<T>, x: T, key: T -> real)
    requires Descending(xs, key)
    ensures Descending(Insert(xs, x, key), key)
  {
    if xs != [] && !(key(xs[0]) < key(x)) {
      InsertDescending(xs[1..], x, key);
      var zs := Insert(xs[1..], x, key);
      forall j | 0 <= j < |zs| ensures key(xs[0]) >= key(zs[j]) {
        InsertIs(xs[1..], x, key, zs[j]);
      }
    }
  }

  lemma {:induction false} InsertDistinct<T>(xs: seq<T>, x: T, key: T -> real)
    requires Distinct(xs) && x !in xs
    ensures Distinct(Insert(xs, x, key))
  {
    if xs != [] && !(key(xs[0]) < key(x)) {
      InsertDistinct(xs[1..], x, key);
      InsertIs(xs[1..], x, key, xs[0]);
    }
  }

  /** The elements of xs whose key is v, in list order. */
  function Ties<T>(xs: seq<T>, key: T -> real, v: real): seq<T> {
    Filter(xs, e => key(e) == v)
  }

  lemma TiesAppend<T>(xs: seq<T>, ys: seq<T>, key: T -> real, v: real)
    ensures Ties(xs + ys, key, v) == Ties(xs, key, v) + Ties(ys, key, v)
  {
    FilterAppend(xs, ys, e => key(e) == v);
  }

  lemma {:induction false} InsertStable<T>(xs: seq<T>, x: T, key: T -> real, v: real)
    requires Descending(xs, key)
    ensures Ties(Insert(xs, x, key), key, v) == Ties(xs, key, v) + Ties([x], key, v)
  {
    if xs == [] || key(xs[0]) < key(x) {
      TiesAppend([x], xs, key, v);
      if v == key(x) && Ties(xs, key, v) != [] {
        FilterIn(xs, e => key(e) == v, Ties(xs, key, v)[0]);
      }
    } else {
      InsertStable(xs[1..], x, key, v);
      TiesAppend([xs[0]], Insert(xs[1..], x, key), key, v);
      TiesAppend([xs[0]], xs[1..], key, v);
      assert xs == [xs[0]] + xs[1..];
    }
  }

  /** The sort keeps the elements and puts them in descending order. */
  lemma {:induction false} StableSortIs<T>(xs: seq<T>, key: T -> real, y: T)
    ensures Descending(StableSort(xs, key), key)
    ensures |StableSort(xs, key)| == |xs|
    ensures y in StableSort(xs, key) <==> y in xs
    ensures Distinct(xs) ==> Distinct(StableSort(xs, key))
  {
    if xs != [] {
      var init, last := xs[..|xs| - 1], xs[|xs| - 1];
      assert y in xs <==> y in init || y == last;
      StableSortIs(init, key, y);
      InsertIs(StableSort(init, key), last, key, y);
      InsertDescending(StableSort(init, key), last, key);
      if Distinct(xs) {
        StableSortIs(init, key, last);
        InsertDistinct(StableSort(init, key), last, key);
      }
    }
  }

  /** Equal keys keep their list order. */
  lemma {:induction false} StableSortStable<T>(xs: seq<T>, key: T -> real, v: real)
    ensures Ties(StableSort(xs, key), key, v) == Ties(xs, key, v)
  {
    if xs != [] {
      var init, last := xs[..|xs| - 1], xs[|xs| - 1];
      assert xs == init + [last];
      StableSortStable(init, key, v);
      StableSortIs(init, key, last);
      InsertStable(StableSort(init, key), last, key, v);
      TiesAppend(init, [last], key, v);
    }
  }

  function Score(n: Node): real {
    var free := if n.total > 0 then n.avail as real / n.total as real else 1.0;
    (n.avail as real / 1024.0 / 1024.0) * 0.7 + (free * 100.0) * 0.3
  }

  function Candidates(size: nat, available: seq<NodeRow>, excluded: set<Id>): seq<NodeRow> {
    Filter(available, (r: NodeRow) => r.node.status.Online? && r.id !in excluded && r.node.avail >= size)
  }

  /** None is InsufficientNodesError. */
  function Select(size: nat, available: seq<NodeRow>, rf: int, excluded: set<Id>): Option<seq<NodeRow>> {
    var cands := Candidates(size, available, excluded);
    if cands == [] then None
    else if |cands| < rf then Some(cands)
    else Some(SliceTo(StableSort(cands, ByScore), rf))
  }

  ghost predicate Eligible(size: nat, available: seq<NodeRow>, excluded: set<Id>, r: NodeRow) {
    r in available && r.node.status.Online? && r.id !in excluded && r.node.avail >= size
  }

  /** How many nodes a request for rf replicas gets out of m eligible ones, for every integer rf. */
  function Quota(m: nat, rf: int): nat {
    if rf >= m then m else if rf >= 0 then rf else if m + rf >= 0 then m + rf else 0
  }

  ghost predicate DistinctIds(rows: seq<NodeRow>) {
    forall i, j :: 0 <= i < j < |rows| ==> rows[i].id != rows[j].id
  }

  function ByScore(r: NodeRow): real {
    Score(r.node)
  }

  lemma CandidatesAreEligible(size: nat, available: seq<NodeRow>, excluded: set<Id>, r: NodeRow)
    ensures r in Candidates(size, available, excluded) <==> Eligible(size, available, excluded, r)
  {
    FilterIn(available, (r: NodeRow) => r.node.status.Online? && r.id !in excluded && r.node.avail >= size, r);
  }

  /** Selection refuses exactly when no node is eligible; otherwise it takes Quota-many distinct nodes. */
  lemma SelectTakes(size: nat, available: seq<NodeRow>, rf: int, excluded: set<Id>)
    requires DistinctIds(available)
    ensures Select(size, available, rf, excluded).None? <==> forall r :: !Eligible(size, available, excluded, r)
    ensures Select(size, available, rf, excluded).Some? ==>
              var picked := Select(size, available, rf, excluded).value;
              && |picked| == Quota(|Candidates(size, available, excluded)|, rf)
              && DistinctIds(picked)
              && (forall r :: r in picked ==> Eligible(size, available, excluded, r))
  {
    var cands := Candidates(size, available, excluded);
    forall r ensures r in cands <==> Eligible(size, available, excluded, r) {
      CandidatesAreEligible(size, available, excluded, r);
    }
    if cands != [] {
      assert cands[0] in cands;
      FilterDistinct(available, (r: NodeRow) => r.node.status.Online? && r.id !in excluded && r.node.avail >= size);
      var picked := Select(size, available, rf, excluded).value;
      forall r ensures r in picked ==> r in cands {
        StableSortIs(cands, ByScore, r);
      }
      StableSortIs(cands, ByScore, cands[0]);
      forall i, j | 0 <= i < j < |picked| ensures picked[i].id != picked[j].id {
        assert picked[i] in picked && picked[j] in picked;
        assert picked[i] in available && picked[j] in available;
      }
    }
  }

  /** No eligible node left out has a higher score than one taken. */
  lemma SelectIsOptimal(size: nat, available: seq<NodeRow>, rf: int, excluded: set<Id>, u: NodeRow, v: NodeRow)
    requires Select(size, available, rf, excluded).Some?
    requires Eligible(size, available, excluded, u) && u !in Select(size, available, rf, excluded).value
    requires v in Select(size, available, rf, excluded).value
    ensures Score(v.node) >= Score(u.node)
  {
    var cands := Candidates(size, available, excluded);
    CandidatesAreEligible(size, available, excluded, u);
    StableSortIs(cands, ByScore, u);
    var all, picked := StableSort(cands, ByScore), Select(size, available, rf, excluded).value;
    var rest := all[|picked|..];
    assert all == picked + rest;
    var i :| 0 <= i < |rest| && rest[i] == u;
    var j :| 0 <= j < |picked| && picked[j] == v;
    assert ByScore(all[j]) >= ByScore(all[|picked| + i]);
  }

  /** Of equally scored eligible nodes, those taken are the first ones in the list, in list order. */
  lemma SelectIsStable(size: nat, available: seq<NodeRow>, rf: int, excluded: set<Id>, v: real)
    requires Select(size, available, rf, excluded).Some?
    ensures Ties(Select(size, available, rf, excluded).value, ByScore, v)
            <= Ties(Candidates(size, available, excluded), ByScore, v)
  {
    var cands := Candidates(size, available, excluded);
    if |cands| >= rf {
      var all := StableSort(cands, ByScore);
      var picked := SliceTo(all, rf);
      StableSortStable(cands, ByScore, v);
      assert all == picked + all[|picked|..];
      TiesAppend(picked, all[|picked|..], ByScore, v);
    }
  }

  // ---------- the weights, over whole numbers ----------

  /** 0.7 for each MiB free and 30 for the free share, over the least denominator: bytes free and a positive total. */
  function Weight(avail: int, total: int): int {
    avail * (7 * total + 314572800)
  }

  /** v ranks no lower than u. A node without a positive total counts as wholly free. */
  ghost predicate Ranks(v: Node, u: Node) {
    if v.total > 0 && u.total > 0 then Weight(v.avail, v.total) * u.total >= Weight(u.avail, u.total) * v.total
    else if v.total > 0 then Weight(v.avail, v.total) >= (7 * u.avail + 314572800) * v.total
    else if u.total > 0 then (7 * v.avail + 314572800) * u.total >= Weight(u.avail, u.total)
    else v.avail >= u.avail
  }

  lemma RealTimes(a: int, b: int)
    ensures (a * b) as real == a as real * b as real
  {}

  /** A tenth of a millionth of the score, as a fraction. */
  lemma ScoreTimes(n: Node)
    ensures n.total > 0 ==> Score(n) * 10485760.0 * n.total as real == Weight(n.avail, n.total) as real
    ensures n.total <= 0 ==> Score(n) * 10485760.0 == (7 * n.avail + 314572800) as real
  {
    if n.total > 0 {
      var a, t := n.avail as real, n.total as real;
      var q := a / t;
      assert Score(n) * 10485760.0 == 7.0 * a + 314572800.0 * q;
      assert q * t == a;
      Spread(7.0 * a, 314572800.0 * q, t);
      Regroup(314572800.0, q, t);
      RealTimes(n.avail, 7 * n.total + 314572800);
      RealTimes(7, n.total);
      Spread(7.0 * t, 314572800.0, a);
      Regroup(7.0, a, t);
    }
  }

  lemma Spread(x: real, y: real, t: real)
    ensures (x + y) * t == x * t + y * t
  {}

  lemma Regroup(c: real, q: real, t: real)
    ensures c * q * t == c * (q * t)
  {}

  lemma Scaled(x: real, y: real, c: real)
    requires c > 0.0
    ensures x >= y <==> x * c >= y * c
  {
    Spread(x, -y, c);
    assert x > y ==> (x - y) * c > 0.0;
    assert x < y ==> (y - x) * c > 0.0;
  }

  /** A node's rank as a fraction. */
  function Numerator(n: Node): int {
    if n.total > 0 then Weight(n.avail, n.total) else 7 * n.avail + 314572800
  }

  function Denominator(n: Node): int {
    if n.total > 0 then n.total else 1
  }

  lemma ScoreIs(n: Node)
    ensures Denominator(n) > 0 && Score(n) * 10485760.0 * Denominator(n) as real == Numerator(n) as real
  {
    hide Score, Weight;
    ScoreTimes(n);
  }

  lemma RanksCases(v: Node, u: Node)
    ensures Ranks(v, u) <==> Numerator(v) * Denominator(u) >= Numerator(u) * Denominator(v)
  {
    hide Weight;
  }

  lemma RanksIs(v: Node, u: Node)
    ensures Score(v) >= Score(u) <==> Ranks(v, u)
  {
    hide Score, Ranks, Numerator, Denominator;
    ScoreIs(v);
    ScoreIs(u);
    RanksCases(v, u);
    Scaled(Score(v), Score(u), 10485760.0);
    CrossScaled(Score(v) * 10485760.0, Score(u) * 10485760.0, Denominator(v), Denominator(u), Numerator(v),
                Numerator(u));
  }

  /** Comparing two fractions is comparing their cross products. */
  lemma CrossScaled(x: real, y: real, a: int, b: int, p: int, q: int)
    requires a > 0 && b > 0 && x * a as real == p as real && y * b as real == q as real
    ensures x >= y <==> p * b >= q * a
  {
    var ra, rb := a as real, b as real;
    Scaled(x, y, ra);
    Scaled(x * ra, y * ra, rb);
    Swap(y, ra, rb);
    RealTimes(p, b);
    RealTimes(q, a);
  }

  lemma Swap(x: real, a: real, b: real)
    ensures x * a * b == x * b * a
  {}

  lemma RanksItself(v: Node)
    ensures Ranks(v, v)
  {}

  /** The whole of a selection: it refuses exactly when no listed node is ONLINE, allowed and has room; otherwise it
      takes as many of those as asked for, Python's slice deciding for a negative number; none left out outranks one
      taken, and unless all are taken unsorted, they are in rank order. */
  lemma SelectIs(size: nat, available: seq<NodeRow>, rf: int, excluded: set<Id>)
    requires DistinctIds(available)
    ensures var fit := set r | r in available && r.node.status.Online? && r.id !in excluded && r.node.avail >= size;
            match Select(size, available, rf, excluded)
            case None => fit == {}
            case Some(picked) =>
              && fit != {} && DistinctIds(picked) && (forall r :: r in picked ==> r in fit)
              && (rf >= |fit| ==> |picked| == |fit|)
              && (0 <= rf < |fit| ==> |picked| == rf)
              && (rf < 0 ==> |picked| == if |fit| + rf >= 0 then |fit| + rf else 0)
              && (forall u, v :: v in picked && u in fit && u !in picked ==> Ranks(v.node, u.node))
              && (rf <= |fit| ==> forall i, j :: 0 <= i < j < |picked| ==> Ranks(picked[i].node, picked[j].node))
  {
    var fit := set r | r in available && r.node.status.Online? && r.id !in excluded && r.node.avail >= size;
    var cands := Candidates(size, available, excluded);
    forall r ensures r in cands <==> r in fit {
      CandidatesAreEligible(size, available, excluded, r);
    }
    SelectTakes(size, available, rf, excluded);
    FilterDistinct(available, (r: NodeRow) => r.node.status.Online? && r.id !in excluded && r.node.avail >= size);
    DistinctSize(cands);
    assert Elements(cands) == fit;
    if cands != [] {
      assert cands[0] in fit;
      SelectRanks(size, available, rf, excluded);
    }
  }

  lemma SelectRanks(size: nat, available: seq<NodeRow>, rf: int, excluded: set<Id>)
    requires Select(size, available, rf, excluded).Some?
    ensures var picked := Select(size, available, rf, excluded).value;
            && (|Candidates(size, available, excluded)| >= rf ==>
                  forall i, j :: 0 <= i < j < |picked| ==> Ranks(picked[i].node, picked[j].node))
            && forall u, v :: v in picked && u !in picked && Eligible(size, available, excluded, u) ==>
                 Ranks(v.node, u.node)
  {
    var picked, cands := Select(size, available, rf, excluded).value, Candidates(size, available, excluded);
    forall i, j | |cands| >= rf && 0 <= i < j < |picked| ensures Ranks(picked[i].node, picked[j].node) {
      StableSortIs(cands, ByScore, picked[0]);
      assert ByScore(picked[i]) >= ByScore(picked[j]);
      RanksIs(picked[i].node, picked[j].node);
    }
    forall u, v | v in picked && u !in picked && Eligible(size, available, excluded, u) ensures Ranks(v.node, u.node) {
      SelectIsOptimal(size, available, rf, excluded, u, v);
      RanksIs(v.node, u.node);
    }
  }

  lemma {:induction false} FilterOrder<T>(xs: seq<T>, p: T -> bool, a: nat, b: nat) returns (i: nat, j: nat)
    requires a < b < |xs| && p(xs[a]) && p(xs[b])
    ensures i < j < |Filter(xs, p)| && Filter(xs, p)[i] == xs[a] && Filter(xs, p)[j] == xs[b]
  {
    var rest := Filter(xs[1..], p);
    if a > 0 {
      i, j := FilterOrder(xs[1..], p, a - 1, b - 1);
      if p(xs[0]) {
        i, j := i + 1, j + 1;
      }
    } else {
      FilterIn(xs[1..], p, xs[b]);
      assert xs[1..][b - 1] == xs[b];
      var l :| 0 <= l < |rest| && rest[l] == xs[b];
      i, j := 0, l + 1;
    }
  }

  /** Of two equally ranked nodes with room the one listed first is taken if the other is. */
  lemma SelectBreaksTies(size: nat, available: seq<NodeRow>, rf: int, excluded: set<Id>, a: nat, b: nat)
    requires Select(size, available, rf, excluded).Some? && DistinctIds(available)
    requires a < b < |available| && available[b] in Select(size, available, rf, excluded).value
    requires available[a].node.status.Online? && available[a].id !in excluded && available[a].node.avail >= size
    requires Ranks(available[a].node, available[b].node) && Ranks(available[b].node, available[a].node)
    ensures available[a] in Select(size, available, rf, excluded).value
  {
    var picked, cands := Select(size, available, rf, excluded).value, Candidates(size, available, excluded);
    var p := (r: NodeRow) => r.node.status.Online? && r.id !in excluded && r.node.avail >= size;
    var v := Score(available[b].node);
    var tied := (r: NodeRow) => ByScore(r) == v;
    SelectTakes(size, available, rf, excluded);
    RanksIs(available[a].node, available[b].node);
    RanksIs(available[b].node, available[a].node);
    var i, j := FilterOrder(available, p, a, b);
    i, j := FilterOrder(cands, tied, i, j);
    TiesAre(cands, tied, v);
    TiesAre(picked, tied, v);
    SelectIsStable(size, available, rf, excluded, v);
    FilterDistinct(available, p);
    FilterDistinct(cands, tied);
    FilterIn(picked, tied, available[b]);
    var l :| 0 <= l < |Filter(picked, tied)| && Filter(picked, tied)[l] == available[b];
    assert l == j;
    FilterIn(picked, tied, Filter(picked, tied)[i]);
  }

  lemma {:induction false} TiesAre(xs: seq<NodeRow>, tied: NodeRow -> bool, v: real)
    requires forall r :: tied(r) <==> ByScore(r) == v
    ensures Ties(xs, ByScore, v) == Filter(xs, tied)
  {
    if xs != [] {
      TiesAre(xs[1..], tied, v);
    }
  }

  /** With equal positive capacity the score order is the free-space order. */
  lemma ScoreOrdersBySpace(a: Node, b: Node)
    requires a.total == b.total > 0
    ensures Score(a) < Score(b) <==> a.avail < b.avail
  {}
}
