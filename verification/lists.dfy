/** Removing entries by id, the one list operation every "delete" of the
    store shares: keep exactly the entries whose id differs, in order. */
module Lists {

  /** The entries of `xs` whose id (as read by `idOf`) differs from `id`,
      in their original order. */
  function Without<T>(xs: seq<T>, id: string, idOf: T -> string): (r: seq<T>)
    ensures |r| <= |xs|
    ensures forall i :: 0 <= i < |r| ==> r[i] in xs && idOf(r[i]) != id
    ensures forall i :: 0 <= i < |xs| && idOf(xs[i]) != id ==> xs[i] in r
  {
    if |xs| == 0 then []
    else
      var rest := Without(xs[1..], id, idOf);
      if idOf(xs[0]) == id then rest else [xs[0]] + rest
  }

  /** No entry of `xs` carries `id`. */
  predicate Absent<T>(xs: seq<T>, id: string, idOf: T -> string) {
    forall i :: 0 <= i < |xs| ==> idOf(xs[i]) != id
  }

  /** Exactly one entry, the one at `k`, carries `id`. */
  predicate UniqueAt<T>(xs: seq<T>, k: int, id: string, idOf: T -> string) {
    && 0 <= k < |xs|
    && idOf(xs[k]) == id
    && forall i :: 0 <= i < |xs| && i != k ==> idOf(xs[i]) != id
  }

  /** Removing from a concatenation removes from each part: the kept
      entries stay in their original relative order. */
  lemma {:induction false} WithoutAppend<T>(a: seq<T>, b: seq<T>, id: string, idOf: T -> string)
    ensures Without(a + b, id, idOf) == Without(a, id, idOf) + Without(b, id, idOf)
  {
    if |a| == 0 {
      assert a + b == b;
    } else {
      assert (a + b)[1..] == a[1..] + b;
      WithoutAppend(a[1..], b, id, idOf);
    }
  }

  /** Removing an id that no entry carries changes nothing. */
  lemma {:induction false} WithoutAbsent<T>(xs: seq<T>, id: string, idOf: T -> string)
    requires Absent(xs, id, idOf)
    ensures Without(xs, id, idOf) == xs
  {
    if |xs| > 0 {
      assert Absent(xs[1..], id, idOf) by {
        forall i | 0 <= i < |xs[1..]| ensures idOf(xs[1..][i]) != id {
          assert xs[1..][i] == xs[i + 1];
        }
      }
      WithoutAbsent(xs[1..], id, idOf);
      assert xs == [xs[0]] + xs[1..];
    }
  }

  /** Removing the same id twice is the same as removing it once. */
  lemma WithoutIdempotent<T>(xs: seq<T>, id: string, idOf: T -> string)
    ensures Without(Without(xs, id, idOf), id, idOf) == Without(xs, id, idOf)
  {
    var r := Without(xs, id, idOf);
    WithoutAbsent(r, id, idOf);
  }

  /** Removing an id carried by exactly one entry drops exactly that entry. */
  lemma WithoutUnique<T>(xs: seq<T>, k: int, id: string, idOf: T -> string)
    requires UniqueAt(xs, k, id, idOf)
    ensures Without(xs, id, idOf) == xs[..k] + xs[k + 1..]
  {
    assert xs == xs[..k] + ([xs[k]] + xs[k + 1..]);
    WithoutAppend(xs[..k], [xs[k]] + xs[k + 1..], id, idOf);
    WithoutAppend([xs[k]], xs[k + 1..], id, idOf);
    assert Absent(xs[..k], id, idOf) by {
      forall i | 0 <= i < k ensures idOf(xs[..k][i]) != id {
        assert xs[..k][i] == xs[i];
      }
    }
    var tail := xs[k + 1..];
    assert Absent(tail, id, idOf) by {
      forall i | 0 <= i < |tail| ensures idOf(tail[i]) != id {
        assert tail[i] == xs[k + 1 + i];
      }
    }
    WithoutAbsent(xs[..k], id, idOf);
    WithoutAbsent(xs[k + 1..], id, idOf);
    assert Without([xs[k]], id, idOf) == [] by {
      assert [xs[k]][1..] == [];
    }
  }

  /** Regrouping a concatenation; a helper for sequences of large elements,
      where the solver does not find it unaided. */
  lemma AppendAssoc<T>(a: seq<T>, b: seq<T>, c: seq<T>)
    ensures a + b + c == a + (b + c)
  {
  }

  /** No value occurs twice. */
  predicate Distinct<T(==)>(xs: seq<T>) {
    forall i, j :: 0 <= i < j < |xs| ==> xs[i] != xs[j]
  }

  lemma {:induction false} DistinctCount<T>(xs: seq<T>)
    requires Distinct(xs)
    ensures forall v :: multiset(xs)[v] <= 1
  {
    if |xs| > 0 {
      var tail := xs[1..];
      assert Distinct(tail) by {
        forall i, j | 0 <= i < j < |tail| ensures tail[i] != tail[j] {
          assert tail[i] == xs[i + 1] && tail[j] == xs[j + 1];
        }
      }
      DistinctCount(tail);
      assert xs == [xs[0]] + tail;
      assert xs[0] !in tail by {
        forall k | 0 <= k < |tail| ensures tail[k] != xs[0] {
          assert tail[k] == xs[k + 1];
        }
      }
    }
  }

  /** A value found at two positions is counted twice. */
  lemma CountTwoPositions<T>(ys: seq<T>, i: int, j: int)
    requires 0 <= i < j < |ys|
    ensures multiset(ys)[ys[i]] >= if ys[i] == ys[j] then 2 else 1
  {
    assert ys == ys[..j] + ys[j..];
    assert ys[i] in ys[..j];
    assert ys[j] in ys[j..];
  }

  /** A rearrangement of a sequence without repetitions has none either. */
  lemma DistinctPermutation<T>(xs: seq<T>, ys: seq<T>)
    requires Distinct(xs) && multiset(xs) == multiset(ys)
    ensures Distinct(ys)
  {
    DistinctCount(xs);
    forall i, j | 0 <= i < j < |ys| ensures ys[i] != ys[j] {
      CountTwoPositions(ys, i, j);
    }
  }
}
