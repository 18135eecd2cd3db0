/** The array operations the screens apply to their record lists:
    `filter`, a `map` that rewrites only the selected records, and a
    `reduce` that adds up one numeric field. */
module Records {

  /** `r` is an order-preserving subsequence of `s`: `s` with some elements
      left out and the rest in their original order. */
  predicate IsSubsequence<T(==)>(r: seq<T>, s: seq<T>)
    decreases |s|
  {
    r == [] ||
    (s != [] && ((r[0] == s[0] && IsSubsequence(r[1..], s[1..])) || IsSubsequence(r, s[1..])))
  }

  /** The only subsequence of `[a, b]` that holds `b` and never `a` is `[b]`. */
  lemma SubsequenceOfPair<T>(r: seq<T>, a: T, b: T)
    requires IsSubsequence(r, [a, b])
    requires b in r
    requires forall k :: 0 <= k < |r| ==> r[k] != a
    ensures r == [b]
  {
    assert r != [] && r[0] != a;
    assert [a, b][1..] == [b];
    assert IsSubsequence(r, [b]);
    assert [b][1..] == [];
    if IsSubsequence(r, []) {
      assert false;
    }
    assert r[0] == b && IsSubsequence(r[1..], []);
  }

  /** `s.filter(keep)`. */
  function Filter<T(==)>(s: seq<T>, keep: T -> bool): (r: seq<T>)
    ensures |r| <= |s|
    ensures forall i :: 0 <= i < |r| ==> r[i] in s && keep(r[i])
    ensures forall i :: 0 <= i < |s| && keep(s[i]) ==> s[i] in r
    ensures IsSubsequence(r, s)
    ensures forall i :: 0 <= i < |s| ==> multiset(r)[s[i]] == if keep(s[i]) then multiset(s)[s[i]] else 0
  {
    if s == [] then []
    else
      assert s == [s[0]] + s[1..];
      if keep(s[0]) then [s[0]] + Filter(s[1..], keep)
      else Filter(s[1..], keep)
  }

  /** A filter that keeps every element returns the list itself. */
  lemma {:induction false} FilterKeepsAll<T>(s: seq<T>, keep: T -> bool)
    requires forall i :: 0 <= i < |s| ==> keep(s[i])
    ensures Filter(s, keep) == s
  {
    if s != [] {
      FilterKeepsAll(s[1..], keep);
    }
  }

  /** A filter that keeps nothing returns the empty list. */
  lemma FilterKeepsNone<T>(s: seq<T>, keep: T -> bool)
    requires forall i :: 0 <= i < |s| ==> !keep(s[i])
    ensures Filter(s, keep) == []
  {
  }

  /** `s.map(x => sel(x) ? f(x) : x)`. */
  function MapWhere<T>(s: seq<T>, sel: T -> bool, f: T -> T): (r: seq<T>)
    ensures |r| == |s|
    ensures forall i :: 0 <= i < |s| ==> r[i] == if sel(s[i]) then f(s[i]) else s[i]
  {
    if s == [] then [] else [if sel(s[0]) then f(s[0]) else s[0]] + MapWhere(s[1..], sel, f)
  }

  /** A `map` that selects nothing returns the list itself. */
  lemma MapWhereNoneSelected<T>(s: seq<T>, sel: T -> bool, f: T -> T)
    requires forall i :: 0 <= i < |s| ==> !sel(s[i])
    ensures MapWhere(s, sel, f) == s
  {
  }

  /** `s.reduce((total, x) => total + amountOf(x), 0)`. */
  function SumOf<T>(s: seq<T>, amountOf: T -> int): (r: int)
    ensures (forall i :: 0 <= i < |s| ==> amountOf(s[i]) >= 0) ==> r >= 0
    ensures (forall i :: 0 <= i < |s| ==> amountOf(s[i]) == 0) ==> r == 0
  {
    if s == [] then 0 else SumOf(s[..|s| - 1], amountOf) + amountOf(s[|s| - 1])
  }

  /** The total of a concatenation is the sum of the two totals. */
  lemma {:induction false} SumOfConcat<T>(a: seq<T>, b: seq<T>, amountOf: T -> int)
    ensures SumOf(a + b, amountOf) == SumOf(a, amountOf) + SumOf(b, amountOf)
    decreases |b|
  {
    if b == [] {
      assert a + b == a;
    } else {
      SumOfConcat(a, b[..|b| - 1], amountOf);
      assert (a + b)[..|a + b| - 1] == a + b[..|b| - 1];
    }
  }

  /** The total of the kept elements, in one pass from the front. */
  function SumWhere<T>(s: seq<T>, keep: T -> bool, amountOf: T -> int): int
  {
    if s == [] then 0
    else (if keep(s[0]) then amountOf(s[0]) else 0) + SumWhere(s[1..], keep, amountOf)
  }

  /** Filtering and then reducing adds up exactly the kept elements. */
  lemma {:induction false} SumOfFilter<T>(s: seq<T>, keep: T -> bool, amountOf: T -> int)
    ensures SumOf(Filter(s, keep), amountOf) == SumWhere(s, keep, amountOf)
  {
    if s != [] {
      SumOfFilter(s[1..], keep, amountOf);
      if keep(s[0]) {
        SumOfConcat([s[0]], Filter(s[1..], keep), amountOf);
        assert SumOf([s[0]], amountOf) == amountOf(s[0]) by {
          assert [s[0]][..0] == [];
        }
      }
    }
  }

  /** No two records share an id. */
  predicate UniqueIds<T>(s: seq<T>, idOf: T -> int) {
    forall i, j :: 0 <= i < |s| && 0 <= j < |s| && idOf(s[i]) == idOf(s[j]) ==> i == j
  }

  /** Removing records keeps the remaining ids unique. */
  lemma {:induction false} FilterKeepsUniqueIds<T>(s: seq<T>, keep: T -> bool, idOf: T -> int)
    requires UniqueIds(s, idOf)
    ensures UniqueIds(Filter(s, keep), idOf)
  {
    if s != [] {
      var rest := s[1..];
      assert UniqueIds(rest, idOf) by {
        forall i, j | 0 <= i < |rest| && 0 <= j < |rest| && idOf(rest[i]) == idOf(rest[j])
          ensures i == j
        {
          assert s[i + 1] == rest[i] && s[j + 1] == rest[j];
        }
      }
      FilterKeepsUniqueIds(rest, keep, idOf);
      if keep(s[0]) {
        var r := Filter(s, keep);
        var tail := Filter(rest, keep);
        assert r == [s[0]] + tail;
        forall k | 0 <= k < |tail| ensures idOf(tail[k]) != idOf(s[0]) {
          assert tail[k] in rest;
          var m :| 0 <= m < |rest| && rest[m] == tail[k];
          assert s[m + 1] == tail[k];
        }
        forall i, j | 0 <= i < |r| && 0 <= j < |r| && idOf(r[i]) == idOf(r[j])
          ensures i == j
        {
          if i > 0 && j > 0 {
            assert r[i] == tail[i - 1] && r[j] == tail[j - 1];
          }
        }
      }
    }
  }

  /** A `map` whose rewrites keep each record's id keeps the ids unique. */
  lemma MapWhereKeepsUniqueIds<T>(s: seq<T>, sel: T -> bool, f: T -> T, idOf: T -> int)
    requires UniqueIds(s, idOf)
    requires forall i :: 0 <= i < |s| && sel(s[i]) ==> idOf(f(s[i])) == idOf(s[i])
    ensures UniqueIds(MapWhere(s, sel, f), idOf)
  {
    var r := MapWhere(s, sel, f);
    assert forall i :: 0 <= i < |s| ==> idOf(r[i]) == idOf(s[i]);
  }

  /** `s.map(y => idOf(y) === idOf(x) ? x : y)`: every record with `x`'s id
      replaced by `x`, the others kept. */
  function ReplaceById<T>(s: seq<T>, idOf: T -> int, x: T): (r: seq<T>)
    ensures |r| == |s|
    ensures forall i :: 0 <= i < |s| && idOf(s[i]) == idOf(x) ==> r[i] == x
    ensures forall i :: 0 <= i < |s| && idOf(s[i]) != idOf(x) ==> r[i] == s[i]
  {
    MapWhere(s, (y: T) => idOf(y) == idOf(x), (y: T) => x)
  }

  /** Replacing by id keeps every position's id, so unique ids stay unique. */
  lemma ReplaceByIdKeepsUniqueIds<T>(s: seq<T>, idOf: T -> int, x: T)
    requires UniqueIds(s, idOf)
    ensures UniqueIds(ReplaceById(s, idOf, x), idOf)
  {
    var r := ReplaceById(s, idOf, x);
    assert forall i :: 0 <= i < |s| ==> idOf(r[i]) == idOf(s[i]);
  }

  /** `s.filter(y => idOf(y) !== id)`: the records with another id, in order. */
  function RemoveById<T(==)>(s: seq<T>, idOf: T -> int, id: int): (r: seq<T>)
    ensures forall k :: 0 <= k < |r| ==> r[k] in s && idOf(r[k]) != id
    ensures forall k :: 0 <= k < |s| && idOf(s[k]) != id ==> s[k] in r
    ensures IsSubsequence(r, s)
    ensures (forall k :: 0 <= k < |s| ==> idOf(s[k]) != id) ==> r == s
    ensures forall k :: 0 <= k < |s| ==> multiset(r)[s[k]] == if idOf(s[k]) != id then multiset(s)[s[k]] else 0
  {
    var keep := (y: T) => idOf(y) != id;
    var r := Filter(s, keep);
    assert (forall k :: 0 <= k < |s| ==> idOf(s[k]) != id) ==> r == s by {
      if forall k :: 0 <= k < |s| ==> idOf(s[k]) != id {
        FilterKeepsAll(s, keep);
      }
    }
    r
  }

  /** Removing by id keeps unique ids unique. */
  lemma RemoveByIdKeepsUniqueIds<T>(s: seq<T>, idOf: T -> int, id: int)
    requires UniqueIds(s, idOf)
    ensures UniqueIds(RemoveById(s, idOf, id), idOf)
  {
    FilterKeepsUniqueIds(s, (y: T) => idOf(y) != id, idOf);
  }
}
