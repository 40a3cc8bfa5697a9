/**
  The ranking step of the `/recommend` handler: sort the scored catalog by
  descending score and keep the first `k` entries.

  The handler sorts with `Array.prototype.sort`, which ECMAScript 2019 and later
  require to be stable (section 22.1.3.27 of ECMA-262, 10th edition), so entries
  with equal scores keep their catalog order. The model sorts catalog positions
  `0 .. n-1` by a stable insertion sort keyed by the sums of each entry's
  similarity, using the square-root-free comparison of module Similarity.
 */
module Ranking {
  import opened Similarity

  function Min(a: nat, b: nat): nat {
    if a <= b then a else b
  }

  /** Every element of `l` is a position of `keys`. */
  predicate Valid(keys: seq<Sim>, l: seq<nat>) {
    forall k :: 0 <= k < |l| ==> l[k] < |keys|
  }

  /** Position `i` ranks ahead of position `j`: a strictly higher score, or an
      equal score and an earlier catalog position. */
  predicate Before(keys: seq<Sim>, i: nat, j: nat)
    requires i < |keys| && j < |keys|
  {
    Greater(keys[i], keys[j]) || (!Greater(keys[j], keys[i]) && i < j)
  }

  /** `l` lists positions in ranking order. */
  predicate Ranked(keys: seq<Sim>, l: seq<nat>)
    requires Valid(keys, l)
  {
    forall i, j :: 0 <= i < j < |l| ==> Before(keys, l[i], l[j])
  }

  /** Positions listed in strictly increasing order, as the catalog is. */
  predicate Increasing(l: seq<nat>) {
    forall i, j :: 0 <= i < j < |l| ==> l[i] < l[j]
  }

  /** The positions `0 .. n-1` in catalog order. */
  function Positions(n: nat): (r: seq<nat>)
    ensures |r| == n
    ensures forall i :: 0 <= i < n ==> r[i] == i
  {
    seq(n, i requires 0 <= i => i)
  }

  /** Inserts `x` after every element that scores at least as high as it. */
  function Insert(keys: seq<Sim>, x: nat, l: seq<nat>): (r: seq<nat>)
    requires x < |keys| && Valid(keys, l)
    ensures multiset(r) == multiset(l) + multiset{x}
    ensures |r| == |l| + 1
    ensures Valid(keys, r)
    decreases |l|
  {
    if l == [] || Greater(keys[x], keys[l[0]]) then [x] + l
    else
      assert l == [l[0]] + l[1..];
      [l[0]] + Insert(keys, x, l[1..])
  }

  /** Stable insertion sort: each element is inserted into the sorted prefix
      before it. */
  function Sort(keys: seq<Sim>, l: seq<nat>): (r: seq<nat>)
    requires Valid(keys, l)
    ensures multiset(r) == multiset(l)
    ensures |r| == |l|
    ensures Valid(keys, r)
    decreases |l|
  {
    if l == [] then []
    else
      assert l == l[..|l| - 1] + [l[|l| - 1]];
      Insert(keys, l[|l| - 1], Sort(keys, l[..|l| - 1]))
  }

  /** A strictly higher score stays ahead of anything ranked after its successor. */
  lemma GreaterThenBefore(keys: seq<Sim>, x: nat, y: nat, z: nat)
    requires x < |keys| && y < |keys| && z < |keys|
    requires Greater(keys[x], keys[y])
    requires Before(keys, y, z)
    ensures Greater(keys[x], keys[z])
  {
    OrderIsSquaredOrder(keys[x], keys[y]);
    OrderIsSquaredOrder(keys[y], keys[z]);
    OrderIsSquaredOrder(keys[z], keys[y]);
    OrderIsSquaredOrder(keys[x], keys[z]);
  }

  lemma MultisetMember(l: seq<nat>, y: nat) returns (m: nat)
    requires y in multiset(l)
    ensures m < |l| && l[m] == y
  {
    assert y in l;
    m :| 0 <= m < |l| && l[m] == y;
  }

  /** Prepending a position that ranks ahead of every element keeps a list ranked. */
  lemma ConsRanked(keys: seq<Sim>, a: nat, l: seq<nat>)
    requires a < |keys| && Valid(keys, l) && Ranked(keys, l)
    requires forall j :: 0 <= j < |l| ==> Before(keys, a, l[j])
    ensures Valid(keys, [a] + l) && Ranked(keys, [a] + l)
  {
    var r := [a] + l;
    forall i, j | 0 <= i < j < |r| ensures Before(keys, r[i], r[j]) {
      assert r[j] == l[j - 1];
      if i > 0 {
        assert r[i] == l[i - 1];
      }
    }
  }

  /** The tail of a ranked list is ranked. */
  lemma TailRanked(keys: seq<Sim>, l: seq<nat>)
    requires Valid(keys, l) && Ranked(keys, l) && l != []
    ensures Valid(keys, l[1..]) && Ranked(keys, l[1..])
  {
    var tail := l[1..];
    forall i, j | 0 <= i < j < |tail| ensures Before(keys, tail[i], tail[j]) {
      assert tail[i] == l[i + 1] && tail[j] == l[j + 1];
    }
  }

  /** Inserting a later catalog position into a ranked list keeps it ranked. */
  lemma {:induction false} InsertRanked(keys: seq<Sim>, x: nat, l: seq<nat>)
    requires x < |keys| && Valid(keys, l)
    requires Ranked(keys, l)
    requires forall k :: 0 <= k < |l| ==> l[k] < x
    ensures Ranked(keys, Insert(keys, x, l))
    decreases |l|
  {
    if l == [] {
    } else if Greater(keys[x], keys[l[0]]) {
      forall j | 0 <= j < |l| ensures Before(keys, x, l[j]) {
        if j > 0 {
          GreaterThenBefore(keys, x, l[0], l[j]);
        }
      }
      ConsRanked(keys, x, l);
    } else {
      var tail := l[1..];
      TailRanked(keys, l);
      InsertRanked(keys, x, tail);
      var rest := Insert(keys, x, tail);
      forall j | 0 <= j < |rest| ensures Before(keys, l[0], rest[j]) {
        assert rest[j] in multiset(rest);
        if rest[j] != x {
          var m := MultisetMember(tail, rest[j]);
          assert Before(keys, l[0], l[m + 1]);
        }
      }
      ConsRanked(keys, l[0], rest);
    }
  }

  /** Sorting catalog positions given in increasing order ranks them. */
  lemma {:induction false} SortRanked(keys: seq<Sim>, l: seq<nat>)
    requires Valid(keys, l) && Increasing(l)
    ensures Ranked(keys, Sort(keys, l))
    decreases |l|
  {
    if l != [] {
      var n := |l| - 1;
      var prefix := l[..n];
      SortRanked(keys, prefix);
      var sorted := Sort(keys, prefix);
      forall k | 0 <= k < |sorted| ensures sorted[k] < l[n] {
        assert sorted[k] in multiset(sorted);
        var m := MultisetMember(prefix, sorted[k]);
        assert l[m] == sorted[k];
      }
      InsertRanked(keys, l[n], sorted);
    }
  }

  /** Ranked positions are distinct and ordered by non-increasing score, with
      equal scores in catalog order. */
  lemma RankedOrder(keys: seq<Sim>, r: seq<nat>)
    requires Valid(keys, r) && Ranked(keys, r)
    ensures forall i, j :: 0 <= i < j < |r| ==> r[i] != r[j]
    ensures forall i, j :: 0 <= i < j < |r| ==> AtLeast(keys[r[i]], keys[r[j]])
    ensures forall i, j :: 0 <= i < j < |r| && AtLeast(keys[r[j]], keys[r[i]]) ==> r[i] < r[j]
  {
    forall i, j | 0 <= i < j < |r|
      ensures r[i] != r[j] && AtLeast(keys[r[i]], keys[r[j]])
      ensures AtLeast(keys[r[j]], keys[r[i]]) ==> r[i] < r[j]
    {
      assert Before(keys, r[i], r[j]);
    }
  }

  /** A position missing from a prefix of a ranked permutation of all positions
      is ranked after every position in the prefix. */
  lemma PrefixDominates(keys: seq<Sim>, sorted: seq<nat>, m: nat, x: nat)
    requires Valid(keys, sorted) && Ranked(keys, sorted)
    requires multiset(sorted) == multiset(Positions(|keys|))
    requires m <= |sorted| && x < |keys| && x !in sorted[..m]
    ensures forall i :: 0 <= i < m ==> Before(keys, sorted[i], x)
  {
    var all := Positions(|keys|);
    assert all[x] == x;
    assert x in multiset(sorted);
    var p := MultisetMember(sorted, x);
    assert m <= p by {
      assert forall i :: 0 <= i < m ==> sorted[..m][i] == sorted[i];
    }
  }

  /** `r` is a top-`k` list for `keys`: `min(k, n)` distinct positions in ranking
      order, none of the positions left out ranking ahead of a listed one. */
  predicate TopOf(keys: seq<Sim>, k: nat, r: seq<nat>) {
    && |r| == Min(k, |keys|)
    && (forall i :: 0 <= i < |r| ==> r[i] < |keys|)
    // no position is listed twice
    && (forall i, j :: 0 <= i < j < |r| ==> r[i] != r[j])
    // non-increasing score
    && (forall i, j :: 0 <= i < j < |r| ==> AtLeast(keys[r[i]], keys[r[j]]))
    // equal scores keep catalog order
    && (forall i, j :: 0 <= i < j < |r| && AtLeast(keys[r[j]], keys[r[i]]) ==> r[i] < r[j])
    // every position left out scores no higher than any listed one, and on a tie comes later
    && (forall x, i :: 0 <= x < |keys| && x !in r && 0 <= i < |r| ==>
          AtLeast(keys[r[i]], keys[x]) && (AtLeast(keys[x], keys[r[i]]) ==> r[i] < x))
  }

  /** The first `min(k, n)` entries of a ranked permutation of all positions form
      a top-`k` list. */
  lemma RankedPrefixIsTop(keys: seq<Sim>, sorted: seq<nat>, k: nat)
    requires Valid(keys, sorted) && Ranked(keys, sorted)
    requires |sorted| == |keys|
    requires multiset(sorted) == multiset(Positions(|keys|))
    ensures TopOf(keys, k, sorted[..Min(k, |keys|)])
  {
    var m := Min(k, |keys|);
    var r := sorted[..m];
    assert Ranked(keys, r) by {
      forall i, j | 0 <= i < j < |r| ensures Before(keys, r[i], r[j]) {
        assert r[i] == sorted[i] && r[j] == sorted[j];
      }
    }
    RankedOrder(keys, r);
    forall x, i | 0 <= x < |keys| && x !in r && 0 <= i < |r|
      ensures AtLeast(keys[r[i]], keys[x]) && (AtLeast(keys[x], keys[r[i]]) ==> r[i] < x)
    {
      PrefixDominates(keys, sorted, m, x);
      assert Before(keys, r[i], x);
    }
  }

  /** The first `k` catalog positions in ranking order. */
  function Top(keys: seq<Sim>, k: nat): (r: seq<nat>)
    ensures TopOf(keys, k, r)
  {
    var all := Positions(|keys|);
    var sorted := Sort(keys, all);
    SortRanked(keys, all);
    RankedPrefixIsTop(keys, sorted, k);
    sorted[..Min(k, |keys|)]
  }

  /** In a top-`k` list, a listed position ranks ahead of every position that is
      listed later or not listed at all. */
  lemma TopOfBefore(keys: seq<Sim>, k: nat, r: seq<nat>, i: nat, y: nat)
    requires TopOf(keys, k, r)
    requires i < |r| && y < |keys| && y != r[i]
    requires forall j :: 0 <= j <= i ==> r[j] != y
    ensures Before(keys, r[i], y)
  {
    if y in r {
      var j :| 0 <= j < |r| && r[j] == y;
      assert i < j;
    }
  }

  /** A top-`k` list is unique: `Top` is the only list meeting `TopOf`. */
  lemma TopUnique(keys: seq<Sim>, k: nat, r: seq<nat>)
    requires TopOf(keys, k, r)
    ensures r == Top(keys, k)
  {
    var t := Top(keys, k);
    forall i | 0 <= i < |r| ensures r[i] == t[i] {
      TopAgreesUpTo(keys, k, r, t, i);
    }
  }

  lemma {:induction false} TopAgreesUpTo(keys: seq<Sim>, k: nat, r: seq<nat>, t: seq<nat>, n: nat)
    requires TopOf(keys, k, r) && TopOf(keys, k, t)
    requires n < |r|
    ensures forall i :: 0 <= i <= n ==> r[i] == t[i]
    decreases n
  {
    if n > 0 {
      TopAgreesUpTo(keys, k, r, t, n - 1);
    }
    TopAgreesAt(keys, k, r, t, n);
  }

  /** Two top-`k` lists that agree before position `n` agree at `n`. */
  lemma TopAgreesAt(keys: seq<Sim>, k: nat, r: seq<nat>, t: seq<nat>, n: nat)
    requires TopOf(keys, k, r) && TopOf(keys, k, t)
    requires n < |r|
    requires forall i :: 0 <= i < n ==> r[i] == t[i]
    ensures r[n] == t[n]
  {
    if r[n] != t[n] {
      forall j | 0 <= j <= n ensures r[j] != t[n] {
        if j < n {
          assert r[j] == t[j];
        }
      }
      forall j | 0 <= j <= n ensures t[j] != r[n] {
        if j < n {
          assert t[j] == r[j];
        }
      }
      TopOfBefore(keys, k, r, n, t[n]);
      TopOfBefore(keys, k, t, n, r[n]);
      assert false;
    }
  }
}
