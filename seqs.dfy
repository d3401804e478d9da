/** The sequence operations the pipeline is built from: boolean-mask
    filtering, `drop_duplicates` keeping the first row of each key, and
    counting the rows that satisfy a condition. */
module Seqs {

  /** `xs` is obtained from `ys` by deleting elements; order is kept. */
  ghost predicate IsSubsequence<T>(xs: seq<T>, ys: seq<T>)
    decreases |ys|
  {
    xs == [] ||
    (ys != [] &&
     ((xs[0] == ys[0] && IsSubsequence(xs[1..], ys[1..])) || IsSubsequence(xs, ys[1..])))
  }

  lemma {:induction false} SubsequenceTransitive<T>(a: seq<T>, b: seq<T>, c: seq<T>)
    requires IsSubsequence(a, b) && IsSubsequence(b, c)
    ensures IsSubsequence(a, c)
    decreases |c|
  {
    if a != [] {
      if IsSubsequence(b, c[1..]) {
        SubsequenceTransitive(a, b, c[1..]);
      } else if a[0] == b[0] && IsSubsequence(a[1..], b[1..]) {
        SubsequenceTransitive(a[1..], b[1..], c[1..]);
      } else {
        SubsequenceTransitive(a, b[1..], c[1..]);
      }
    }
  }

  lemma {:induction false} SubsequenceMembers<T>(xs: seq<T>, ys: seq<T>)
    requires IsSubsequence(xs, ys)
    ensures |xs| <= |ys|
    ensures forall x | x in xs :: x in ys
    decreases |ys|
  {
    if xs != [] {
      if xs[0] == ys[0] && IsSubsequence(xs[1..], ys[1..]) {
        SubsequenceMembers(xs[1..], ys[1..]);
        assert forall x | x in xs :: x == xs[0] || x in xs[1..];
      } else {
        SubsequenceMembers(xs, ys[1..]);
      }
    }
  }

  lemma SeqAppendAssoc<T>(a: seq<T>, b: seq<T>, c: seq<T>)
    ensures a + (b + c) == (a + b) + c
  {
  }

  /** `df[mask]`: the rows that satisfy `p`, in their original order. */
  function Filter<T>(xs: seq<T>, p: T -> bool): (r: seq<T>)
    ensures IsSubsequence(r, xs)
    ensures forall x | x in r :: x in xs && p(x)
    ensures forall x | x in xs && p(x) :: x in r
  {
    if xs == [] then []
    else if p(xs[0]) then [xs[0]] + Filter(xs[1..], p)
    else Filter(xs[1..], p)
  }

  /** A filter that every row passes removes nothing. */
  lemma {:induction false} FilterKeepsAll<T>(xs: seq<T>, p: T -> bool)
    requires forall x | x in xs :: p(x)
    ensures Filter(xs, p) == xs
  {
    if xs != [] {
      assert forall x | x in xs[1..] :: x in xs;
      FilterKeepsAll(xs[1..], p);
    }
  }

  /** Two filters in a row keep exactly the rows that pass both. */
  lemma {:induction false} FilterFilter<T>(xs: seq<T>, p: T -> bool, q: T -> bool, both: T -> bool)
    requires forall x :: both(x) == (p(x) && q(x))
    ensures Filter(Filter(xs, p), q) == Filter(xs, both)
  {
    if xs != [] {
      FilterFilter(xs[1..], p, q, both);
      if p(xs[0]) {
        assert ([xs[0]] + Filter(xs[1..], p))[1..] == Filter(xs[1..], p);
      }
    }
  }

  /** Filtering one more row at the end adds that row or nothing. */
  lemma {:induction false} FilterSnoc<T>(xs: seq<T>, x: T, p: T -> bool)
    ensures Filter(xs + [x], p) == Filter(xs, p) + (if p(x) then [x] else [])
  {
    if xs == [] {
      assert xs + [x] == [x];
      assert [x][1..] == [];
    } else {
      assert (xs + [x])[0] == xs[0];
      assert (xs + [x])[1..] == xs[1..] + [x];
      FilterSnoc(xs[1..], x, p);
    }
  }

  /** `COUNT(*) ... WHERE p`: the number of rows that satisfy `p`. */
  function Count<T>(xs: seq<T>, p: T -> bool): (c: nat)
    ensures c <= |xs|
    ensures c > 0 <==> exists x | x in xs :: p(x)
  {
    var r := Filter(xs, p);
    SubsequenceMembers(r, xs);
    assert r != [] ==> r[0] in r;
    |r|
  }

  /** The set of keys that occur in `xs`. */
  function KeySet<T(==)>(xs: seq<T>, key: T -> int): set<int> {
    set x | x in xs :: key(x)
  }

  /** No two rows share a key. */
  predicate UniqueBy<T>(xs: seq<T>, key: T -> int) {
    forall i, j | 0 <= i < j < |xs| :: key(xs[i]) != key(xs[j])
  }

  lemma UniqueByTail<T>(xs: seq<T>, key: T -> int)
    requires xs != [] && UniqueBy(xs, key)
    ensures UniqueBy(xs[1..], key)
    ensures forall x | x in xs[1..] :: key(x) != key(xs[0])
  {
    forall x | x in xs[1..] ensures key(x) != key(xs[0]) {
      var j :| 0 <= j < |xs[1..]| && xs[1..][j] == x;
      assert xs[j + 1] == x;
    }
    forall i, j | 0 <= i < j < |xs[1..]| ensures key(xs[1..][i]) != key(xs[1..][j]) {
      assert xs[1..][i] == xs[i + 1] && xs[1..][j] == xs[j + 1];
    }
  }

  /** The first row of `xs` whose key is `k`. */
  function FirstWithKey<T>(xs: seq<T>, key: T -> int, k: int): (x: T)
    requires k in KeySet(xs, key)
    ensures x in xs && key(x) == k
  {
    if key(xs[0]) == k then xs[0]
    else
      assert k in KeySet(xs[1..], key) by {
        var y :| y in xs && key(y) == k;
        assert y != xs[0] && y in xs[1..];
      }
      FirstWithKey(xs[1..], key, k)
  }

  /** The position of the first row of `xs` whose key is `k`. */
  function FirstIndex<T>(xs: seq<T>, key: T -> int, k: int): (i: nat)
    requires k in KeySet(xs, key)
    ensures i < |xs| && key(xs[i]) == k
    ensures forall j | 0 <= j < i :: key(xs[j]) != k
  {
    if key(xs[0]) == k then 0
    else
      assert k in KeySet(xs[1..], key) by {
        var y :| y in xs && key(y) == k;
        assert y != xs[0] && y in xs[1..];
      }
      var i := 1 + FirstIndex(xs[1..], key, k);
      assert forall j | 1 <= j < i :: xs[j] == xs[1..][j - 1];
      i
  }

  /** The rows of `r` come in the order in which their keys first occur in `xs`. */
  predicate InFirstOrder<T(==)>(r: seq<T>, xs: seq<T>, key: T -> int) {
    forall i, j | 0 <= i < j < |r| ::
      key(r[i]) in KeySet(xs, key) && key(r[j]) in KeySet(xs, key) &&
      FirstIndex(xs, key, key(r[i])) < FirstIndex(xs, key, key(r[j]))
  }

  /** Keep-first de-duplication of `xs`, ignoring every row whose key is in
      `seen` or was already kept. */
  function DedupFrom<T>(xs: seq<T>, key: T -> int, seen: set<int>): (r: seq<T>)
    ensures |r| <= |xs|
  {
    if xs == [] then []
    else if key(xs[0]) in seen then DedupFrom(xs[1..], key, seen)
    else [xs[0]] + DedupFrom(xs[1..], key, seen + {key(xs[0])})
  }

  lemma {:induction false} DedupFromSubsequence<T>(xs: seq<T>, key: T -> int, seen: set<int>)
    ensures IsSubsequence(DedupFrom(xs, key, seen), xs)
    decreases |xs|
  {
    if xs != [] {
      var k := key(xs[0]);
      if k in seen {
        DedupFromSubsequence(xs[1..], key, seen);
      } else {
        var r := DedupFrom(xs, key, seen);
        DedupFromSubsequence(xs[1..], key, seen + {k});
        assert r[0] == xs[0] && r[1..] == DedupFrom(xs[1..], key, seen + {k});
      }
    }
  }

  /** What is kept avoids `seen` and holds each key once. */
  lemma {:induction false} DedupFromMembers<T>(xs: seq<T>, key: T -> int, seen: set<int>)
    ensures forall x | x in DedupFrom(xs, key, seen) :: key(x) !in seen && x in xs
    ensures UniqueBy(DedupFrom(xs, key, seen), key)
    decreases |xs|
  {
    if xs != [] {
      var k := key(xs[0]);
      if k in seen {
        DedupFromMembers(xs[1..], key, seen);
        assert forall x | x in xs[1..] :: x in xs;
      } else {
        var rest := DedupFrom(xs[1..], key, seen + {k});
        var r := [xs[0]] + rest;
        DedupFromMembers(xs[1..], key, seen + {k});
        assert forall x | x in xs[1..] :: x in xs;
        assert forall x | x in r :: x == xs[0] || x in rest;
        forall i, j | 0 <= i < j < |r| ensures key(r[i]) != key(r[j]) {
          assert r[j] == rest[j - 1];
          if i > 0 {
            assert r[i] == rest[i - 1];
          }
        }
      }
    }
  }

  lemma {:induction false} DedupFromKeys<T>(xs: seq<T>, key: T -> int, seen: set<int>)
    ensures KeySet(DedupFrom(xs, key, seen), key) == KeySet(xs, key) - seen
    decreases |xs|
  {
    if xs != [] {
      var k := key(xs[0]);
      assert KeySet(xs, key) == {k} + KeySet(xs[1..], key) by {
        assert forall x | x in xs :: x == xs[0] || x in xs[1..];
      }
      if k in seen {
        DedupFromKeys(xs[1..], key, seen);
      } else {
        var rest := DedupFrom(xs[1..], key, seen + {k});
        DedupFromKeys(xs[1..], key, seen + {k});
        assert KeySet([xs[0]] + rest, key) == {k} + KeySet(rest, key) by {
          assert forall x | x in [xs[0]] + rest :: x == xs[0] || x in rest;
        }
      }
    }
  }

  /** Every row kept is the first row of `xs` with its key. */
  lemma {:induction false} DedupFromFirst<T>(xs: seq<T>, key: T -> int, seen: set<int>)
    ensures forall x | x in DedupFrom(xs, key, seen) ::
      key(x) in KeySet(xs, key) && x == FirstWithKey(xs, key, key(x))
    decreases |xs|
  {
    if xs != [] {
      var k := key(xs[0]);
      assert forall x | x in xs[1..] :: x in xs;
      if k in seen {
        DedupFromFirst(xs[1..], key, seen);
        DedupFromMembers(xs[1..], key, seen);
      } else {
        var rest := DedupFrom(xs[1..], key, seen + {k});
        DedupFromFirst(xs[1..], key, seen + {k});
        DedupFromMembers(xs[1..], key, seen + {k});
        assert forall x | x in [xs[0]] + rest :: x == xs[0] || x in rest;
      }
    }
  }

  /** The rows kept come in the order in which their keys first occur. */
  lemma {:induction false} DedupFromOrder<T>(xs: seq<T>, key: T -> int, seen: set<int>)
    ensures InFirstOrder(DedupFrom(xs, key, seen), xs, key)
    decreases |xs|
  {
    if xs != [] {
      var k := key(xs[0]);
      var seen' := seen + {k};
      var rest := DedupFrom(xs[1..], key, seen');
      if k in seen {
        assert seen' == seen;
      }
      DedupFromOrder(xs[1..], key, seen');
      DedupFromMembers(xs[1..], key, seen');
      OrderInTail(rest, xs, key);
      if k !in seen {
        OrderCons(rest, xs, key);
      }
    }
  }

  /** Rows from the tail of `xs` whose keys differ from the head's keep
      their relative order, each key occurring one place later in `xs`. */
  lemma OrderInTail<T>(rest: seq<T>, xs: seq<T>, key: T -> int)
    requires xs != [] && InFirstOrder(rest, xs[1..], key)
    requires forall x | x in rest :: key(x) != key(xs[0]) && x in xs[1..]
    ensures forall x | x in rest ::
      key(x) in KeySet(xs, key) && FirstIndex(xs, key, key(x)) > 0
    ensures InFirstOrder(rest, xs, key)
  {
    forall x | x in rest
      ensures key(x) in KeySet(xs, key)
      ensures FirstIndex(xs, key, key(x)) == 1 + FirstIndex(xs[1..], key, key(x))
    {
      assert key(x) in KeySet(xs[1..], key);
      FirstIndexTail(xs, key, key(x));
    }
    forall i, j | 0 <= i < j < |rest|
      ensures key(rest[i]) in KeySet(xs, key) && key(rest[j]) in KeySet(xs, key)
      ensures FirstIndex(xs, key, key(rest[i])) < FirstIndex(xs, key, key(rest[j]))
    {
      assert rest[i] in rest && rest[j] in rest;
    }
  }

  /** Putting the head of `xs` in front keeps the order. */
  lemma OrderCons<T>(rest: seq<T>, xs: seq<T>, key: T -> int)
    requires xs != [] && InFirstOrder(rest, xs, key)
    requires forall x | x in rest :: key(x) in KeySet(xs, key) && FirstIndex(xs, key, key(x)) > 0
    ensures InFirstOrder([xs[0]] + rest, xs, key)
  {
    var r := [xs[0]] + rest;
    forall i, j | 0 <= i < j < |r|
      ensures key(r[i]) in KeySet(xs, key) && key(r[j]) in KeySet(xs, key)
      ensures FirstIndex(xs, key, key(r[i])) < FirstIndex(xs, key, key(r[j]))
    {
      if i == 0 {
        HeadFirst(xs, key, rest[j - 1]);
      } else {
        OrderAt(rest, xs, key, i - 1, j - 1);
      }
    }
  }

  /** The head of `xs` comes before every key first seen later. */
  lemma HeadFirst<T>(xs: seq<T>, key: T -> int, y: T)
    requires xs != [] && key(y) in KeySet(xs, key) && FirstIndex(xs, key, key(y)) > 0
    ensures key(xs[0]) in KeySet(xs, key)
    ensures FirstIndex(xs, key, key(xs[0])) < FirstIndex(xs, key, key(y))
  {
    assert xs[0] in xs;
  }

  /** One pair of `InFirstOrder(rest, xs, key)`. */
  lemma OrderAt<T>(rest: seq<T>, xs: seq<T>, key: T -> int, i: nat, j: nat)
    requires InFirstOrder(rest, xs, key) && i < j < |rest|
    ensures key(rest[i]) in KeySet(xs, key) && key(rest[j]) in KeySet(xs, key)
    ensures FirstIndex(xs, key, key(rest[i])) < FirstIndex(xs, key, key(rest[j]))
  {
  }

  lemma FirstIndexTail<T>(xs: seq<T>, key: T -> int, k: int)
    requires xs != [] && key(xs[0]) != k && k in KeySet(xs[1..], key)
    ensures k in KeySet(xs, key)
    ensures FirstIndex(xs, key, k) == 1 + FirstIndex(xs[1..], key, k)
  {
    var y :| y in xs[1..] && key(y) == k;
    assert y in xs;
  }

  /** `drop_duplicates(subset=[key])`: the first row of every key, in order. */
  function DropDuplicates<T>(xs: seq<T>, key: T -> int): (r: seq<T>)
    ensures IsSubsequence(r, xs)
    ensures UniqueBy(r, key)
    ensures KeySet(r, key) == KeySet(xs, key)
    ensures forall x | x in r :: x in xs && x == FirstWithKey(xs, key, key(x))
    ensures InFirstOrder(r, xs, key)
  {
    DedupFromSubsequence(xs, key, {});
    DedupFromMembers(xs, key, {});
    DedupFromKeys(xs, key, {});
    DedupFromFirst(xs, key, {});
    DedupFromOrder(xs, key, {});
    DedupFrom(xs, key, {})
  }

  lemma {:induction false} DedupFromUnique<T>(xs: seq<T>, key: T -> int, seen: set<int>)
    requires UniqueBy(xs, key)
    requires forall x | x in xs :: key(x) !in seen
    ensures DedupFrom(xs, key, seen) == xs
  {
    if xs != [] {
      var k := key(xs[0]);
      UniqueByTail(xs, key);
      assert forall x | x in xs[1..] :: x in xs;
      DedupFromUnique(xs[1..], key, seen + {k});
    }
  }

  /** De-duplicating rows whose keys are already unique changes nothing, so
      `drop_duplicates` is idempotent. */
  lemma DropDuplicatesOfUnique<T>(xs: seq<T>, key: T -> int)
    requires UniqueBy(xs, key)
    ensures DropDuplicates(xs, key) == xs
  {
    DedupFromUnique(xs, key, {});
  }

  lemma DropDuplicatesIdempotent<T>(xs: seq<T>, key: T -> int)
    ensures DropDuplicates(DropDuplicates(xs, key), key) == DropDuplicates(xs, key)
  {
    DropDuplicatesOfUnique(DropDuplicates(xs, key), key);
  }

  /** `SELECT DISTINCT`: the distinct values of `xs` in order of first occurrence. */
  function Distinct(xs: seq<int>): (r: seq<int>)
    ensures forall i, j | 0 <= i < j < |r| :: r[i] != r[j]
    ensures forall x :: x in r <==> x in xs
  {
    var r := DropDuplicates(xs, x => x);
    assert forall x | x in xs :: x in KeySet(xs, x => x);
    assert forall x | x in r :: x in KeySet(r, x => x);
    r
  }

  /** The first `n` of distinct values are distinct values of the whole. */
  lemma TakeDistinct(xs: seq<int>, n: nat)
    requires forall i, j | 0 <= i < j < |xs| :: xs[i] != xs[j]
    ensures forall i, j | 0 <= i < j < |Take(xs, n)| :: Take(xs, n)[i] != Take(xs, n)[j]
    ensures forall k | k in Take(xs, n) :: k in xs
  {
    var r := Take(xs, n);
    assert forall i | 0 <= i < |r| :: r[i] == xs[i];
  }

  /** `LIMIT n`: the first `n` elements, or all of them when there are fewer. */
  function Take<T>(xs: seq<T>, n: nat): (r: seq<T>)
    ensures |r| == if |xs| <= n then |xs| else n
    ensures |xs| <= n ==> r == xs
    ensures r == xs[..|r|]
  {
    if |xs| <= n then xs else xs[..n]
  }
}
