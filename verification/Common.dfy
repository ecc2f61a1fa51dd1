/** Result types and facts about filtered sequences that several modules use. */
module Common {
  datatype Option<+T> = None | Some(value: T)

  datatype Result<+T> = Ok(value: T) | Err(why: string)

  /** No element occurs twice. */
  ghost predicate Distinct<T>(s: seq<T>) {
    forall i, j :: 0 <= i < j < |s| ==> s[i] != s[j]
  }

  function Elems<T>(s: seq<T>): set<T> {
    set x | x in s
  }

  /** The elements of s that are not in gone, in order. */
  function Without<T(==)>(s: seq<T>, gone: set<T>): seq<T> {
    if s == [] then []
    else if s[0] in gone then Without(s[1..], gone)
    else [s[0]] + Without(s[1..], gone)
  }

  /** The elements of s that are in keep, in order. */
  function Within<T(==)>(s: seq<T>, keep: set<T>): seq<T> {
    if s == [] then []
    else if s[0] in keep then [s[0]] + Within(s[1..], keep)
    else Within(s[1..], keep)
  }

  lemma WithoutMembers<T>(s: seq<T>, gone: set<T>)
    ensures forall x :: x in Without(s, gone) <==> x in s && x !in gone
  {
  }

  lemma WithinMembers<T>(s: seq<T>, keep: set<T>)
    ensures forall x :: x in Within(s, keep) <==> x in s && x in keep
  {
  }

  lemma WithoutDistinct<T>(s: seq<T>, gone: set<T>)
    requires Distinct(s)
    ensures Distinct(Without(s, gone))
  {
    if s != [] {
      WithoutDistinct(s[1..], gone);
      WithoutMembers(s[1..], gone);
    }
  }

  lemma WithinDistinct<T>(s: seq<T>, keep: set<T>)
    requires Distinct(s)
    ensures Distinct(Within(s, keep))
  {
    if s != [] {
      WithinDistinct(s[1..], keep);
      WithinMembers(s[1..], keep);
    }
  }

  /** Elements i and j of part stand in whole in that order. */
  ghost predicate Ordered<T>(part: seq<T>, whole: seq<T>, i: nat, j: nat)
    requires i < |part| && j < |part|
  {
    exists a, b | 0 <= a < b < |whole| :: whole[a] == part[i] && whole[b] == part[j]
  }

  lemma OrderedTail<T>(part: seq<T>, whole: seq<T>, i: nat, j: nat)
    requires whole != [] && i < |part| && j < |part| && Ordered(part, whole[1..], i, j)
    ensures Ordered(part, whole, i, j)
  {
    var a, b :| 0 <= a < b < |whole[1..]| && whole[1..][a] == part[i] && whole[1..][b] == part[j];
    assert whole[a + 1] == part[i] && whole[b + 1] == part[j];
  }

  lemma {:induction false} WithinAt<T>(s: seq<T>, keep: set<T>, i: nat)
    requires i < |Within(s, keep)|
    ensures exists a | 0 <= a < |s| :: s[a] == Within(s, keep)[i]
  {
    if s[0] in keep && i == 0 {
      assert s[0] == Within(s, keep)[0];
    } else {
      var k := if s[0] in keep then i - 1 else i;
      WithinAt(s[1..], keep, k);
      var a :| 0 <= a < |s[1..]| && s[1..][a] == Within(s[1..], keep)[k];
      assert s[a + 1] == Within(s, keep)[i];
    }
  }

  /** Filtering keeps the order. */
  lemma {:induction false} WithinOrdered<T>(s: seq<T>, keep: set<T>, i: nat, j: nat)
    requires i < j < |Within(s, keep)|
    ensures Ordered(Within(s, keep), s, i, j)
  {
    var r, rest := Within(s, keep), Within(s[1..], keep);
    if s[0] !in keep {
      WithinOrdered(s[1..], keep, i, j);
      OrderedTail(r, s, i, j);
    } else if i > 0 {
      WithinOrdered(s[1..], keep, i - 1, j - 1);
      var a, b :| 0 <= a < b < |s[1..]| && s[1..][a] == rest[i - 1] && s[1..][b] == rest[j - 1];
      assert s[a + 1] == r[i] && s[b + 1] == r[j];
    } else {
      WithinAt(s[1..], keep, j - 1);
      var b :| 0 <= b < |s[1..]| && s[1..][b] == rest[j - 1];
      assert s[0] == r[0] && s[b + 1] == r[j];
    }
  }

  lemma {:induction false} WithoutOrdered<T>(s: seq<T>, gone: set<T>, i: nat, j: nat)
    requires i < j < |Without(s, gone)|
    ensures Ordered(Without(s, gone), s, i, j)
  {
    WithoutIsWithin(s, gone, Elems(s) - gone);
    WithinOrdered(s, Elems(s) - gone, i, j);
  }

  lemma {:induction false} WithoutIsWithin<T>(s: seq<T>, gone: set<T>, keep: set<T>)
    requires forall x | x in s :: x in keep <==> x !in gone
    ensures Without(s, gone) == Within(s, keep)
  {
    if s != [] {
      WithoutIsWithin(s[1..], gone, keep);
    }
  }

  lemma WithoutTwice<T>(s: seq<T>, a: set<T>, b: set<T>)
    ensures Without(Without(s, a), b) == Without(s, a + b)
  {
  }

  lemma WithoutNone<T>(s: seq<T>)
    ensures Without(s, {}) == s
  {
  }

  /** A sequence with no repeats has as many elements as its element set. */
  lemma {:induction false} DistinctCard<T>(s: seq<T>)
    requires Distinct(s)
    ensures |Elems(s)| == |s|
  {
    if s != [] {
      var n := |s| - 1;
      DistinctCard(s[..n]);
      assert Elems(s) == Elems(s[..n]) + {s[n]};
      assert s[n] !in Elems(s[..n]);
    }
  }

  lemma DistinctConcat<T>(a: seq<T>, b: seq<T>)
    requires Distinct(a) && Distinct(b) && forall x | x in a :: x !in b
    ensures Distinct(a + b)
  {
    forall i, j | 0 <= i < j < |a + b| ensures (a + b)[i] != (a + b)[j] {
      if i < |a| <= j {
        assert a[i] in a && b[j - |a|] in b;
      }
    }
  }

  lemma SubsetCard<T>(a: set<T>, b: set<T>)
    requires a <= b
    ensures |a| <= |b|
  {
    assert b == a + (b - a);
  }
}
