/** Sequences used as the application's collections: JavaScript `Set`s (which
    keep insertion order) as duplicate-free sequences, `Array.prototype.filter`
    by a key, and "keeps relative order" as the subsequence relation. */
module Collections {

  import opened Wrappers

  predicate Distinct<T(==)>(s: seq<T>) {
    forall i, j :: 0 <= i < j < |s| ==> s[i] != s[j]
  }

  /** `a` is `b` with some elements left out, the rest in the same order. */
  predicate IsSubsequence<T(==)>(a: seq<T>, b: seq<T>)
    decreases |b|
  {
    if |a| == 0 then true
    else if |b| == 0 then false
    else if a[0] == b[0] then IsSubsequence(a[1..], b[1..])
    else IsSubsequence(a, b[1..])
  }

  lemma {:induction false} SubsequenceRefl<T>(a: seq<T>)
    ensures IsSubsequence(a, a)
    decreases |a|
  {
    if |a| > 0 {
      SubsequenceRefl(a[1..]);
    }
  }

  lemma {:induction false} SubsequenceSnocRight<T>(a: seq<T>, b: seq<T>, x: T)
    requires IsSubsequence(a, b)
    ensures IsSubsequence(a, b + [x])
    decreases |b|
  {
    if |a| > 0 && |b| > 0 {
      assert (b + [x])[1..] == b[1..] + [x];
      if a[0] == b[0] {
        SubsequenceSnocRight(a[1..], b[1..], x);
      } else {
        SubsequenceSnocRight(a, b[1..], x);
      }
    }
  }

  lemma {:induction false} SubsequenceSnocBoth<T>(a: seq<T>, b: seq<T>, x: T)
    requires IsSubsequence(a, b)
    ensures IsSubsequence(a + [x], b + [x])
    decreases |b|
  {
    if |a| == 0 {
      if |b| == 0 {
        assert IsSubsequence([x][1..], [x][1..]);
      } else {
        assert a + [x] == [x];
        SubsequenceOfEmptyPlus(b, x);
      }
    } else {
      assert (a + [x])[1..] == a[1..] + [x];
      assert (b + [x])[1..] == b[1..] + [x];
      if a[0] == b[0] {
        SubsequenceSnocBoth(a[1..], b[1..], x);
      } else {
        SubsequenceSnocBoth(a, b[1..], x);
      }
    }
  }

  lemma {:induction false} SubsequenceOfEmptyPlus<T>(b: seq<T>, x: T)
    ensures IsSubsequence([x], b + [x])
    decreases |b|
  {
    if |b| == 0 {
      assert IsSubsequence([x][1..], [x][1..]);
    } else if b[0] == x {
      assert IsSubsequence([x][1..], (b + [x])[1..]);
    } else {
      assert (b + [x])[1..] == b[1..] + [x];
      SubsequenceOfEmptyPlus(b[1..], x);
    }
  }

  lemma {:induction false} SubsequenceElements<T>(a: seq<T>, b: seq<T>, x: T)
    requires IsSubsequence(a, b) && x in a
    ensures x in b
    decreases |b|
  {
    if a[0] == b[0] {
      if x != a[0] {
        assert x in a[1..];
        SubsequenceElements(a[1..], b[1..], x);
      }
    } else {
      SubsequenceElements(a, b[1..], x);
    }
  }

  // ---------------------------------------------------------------------
  // JavaScript Set: `new Set(xs)`, `has`, `add`, `delete`.

  /** `new Set(xs)` iterated in order: each element once, at its first occurrence. */
  function Dedup<T(==, !new)>(xs: seq<T>): (r: seq<T>)
    ensures Distinct(r)
    ensures forall x :: x in r <==> x in xs
    ensures IsSubsequence(r, xs)
    decreases |xs|
  {
    if |xs| == 0 then []
    else
      var d := Dedup(xs[..|xs| - 1]);
      var last := xs[|xs| - 1];
      assert xs == xs[..|xs| - 1] + [last];
      if last in d then
        SubsequenceSnocRight(d, xs[..|xs| - 1], last);
        d
      else
        SubsequenceSnocBoth(d, xs[..|xs| - 1], last);
        d + [last]
  }

  /** Adding an element at the end of the input is `set.add` on the result. */
  lemma DedupSnoc<T(!new)>(xs: seq<T>, x: T)
    ensures Dedup(xs + [x]) == SetAdd(Dedup(xs), x)
  {
    assert (xs + [x])[..|xs|] == xs;
  }

  /** A duplicate-free sequence is its own `new Set(...)`. */
  lemma {:induction false} DedupOfDistinct<T(!new)>(xs: seq<T>)
    requires Distinct(xs)
    ensures Dedup(xs) == xs
    decreases |xs|
  {
    if |xs| > 0 {
      var init := xs[..|xs| - 1];
      assert Distinct(init);
      DedupOfDistinct(init);
      assert xs[|xs| - 1] !in init;
      assert init + [xs[|xs| - 1]] == xs;
    }
  }

  /** `set.add(x)`: appended at the end unless already present. */
  function SetAdd<T(==)>(s: seq<T>, x: T): seq<T> {
    if x in s then s else s + [x]
  }

  /** `set.delete(x)`. */
  function SetDelete<T(==, !new)>(s: seq<T>, x: T): (r: seq<T>)
    ensures forall y :: y in r <==> y in s && y != x
    ensures x !in s ==> r == s
    decreases |s|
  {
    if |s| == 0 then []
    else
      var rest := SetDelete(s[1..], x);
      assert s == [s[0]] + s[1..];
      if s[0] == x then rest else [s[0]] + rest
  }

  /** Deleting keeps the other elements in order, each still once. */
  lemma {:induction false} SetDeleteKeepsOrder<T(!new)>(s: seq<T>, x: T)
    ensures IsSubsequence(SetDelete(s, x), s)
    ensures Distinct(s) ==> Distinct(SetDelete(s, x))
    decreases |s|
  {
    if |s| > 0 {
      var rest := SetDelete(s[1..], x);
      SetDeleteKeepsOrder(s[1..], x);
      if s[0] == x {
        SubsequenceSnocLeftSkip(rest, s);
      } else {
        assert ([s[0]] + rest)[1..] == rest;
        if Distinct(s) {
          assert s[0] !in s[1..];
          assert Distinct(s[1..]);
          assert s[0] !in rest;
        }
      }
    }
  }

  /** Deleting the element just added at the end restores the sequence. */
  lemma {:induction false} SetDeleteSnoc<T(!new)>(s: seq<T>, x: T)
    requires x !in s
    ensures SetDelete(s + [x], x) == s
    decreases |s|
  {
    if |s| == 0 {
      assert [x][1..] == [];
    } else {
      assert (s + [x])[1..] == s[1..] + [x];
      SetDeleteSnoc(s[1..], x);
      assert [s[0]] + s[1..] == s;
    }
  }

  lemma {:induction false} SubsequenceSnocLeftSkip<T>(a: seq<T>, s: seq<T>)
    requires |s| > 0 && IsSubsequence(a, s[1..])
    ensures IsSubsequence(a, s)
    decreases |s|, 0
  {
    if |a| > 0 && a[0] == s[0] {
      SubsequenceTail(a, s[1..]);
    }
  }

  lemma {:induction false} SubsequenceTail<T>(a: seq<T>, b: seq<T>)
    requires |a| > 0 && IsSubsequence(a, b)
    ensures IsSubsequence(a[1..], b)
    decreases |b|, 1
  {
    if a[0] == b[0] {
      SubsequenceSnocLeftSkip(a[1..], b);
    } else {
      SubsequenceTail(a, b[1..]);
      SubsequenceSnocLeftSkip(a[1..], b);
    }
  }

  /** The prefix one element longer. */
  lemma PrefixSnoc<T>(s: seq<T>, i: nat)
    requires i < |s|
    ensures s[..i + 1] == s[..i] + [s[i]]
  {
  }

  // ---------------------------------------------------------------------
  // `xs.map(key)`

  /** The keys of the elements, in order. */
  function KeysOf<T, K>(xs: seq<T>, key: T -> K): (r: seq<K>)
    ensures |r| == |xs|
    ensures forall i :: 0 <= i < |xs| ==> r[i] == key(xs[i])
    decreases |xs|
  {
    if |xs| == 0 then [] else KeysOf(xs[..|xs| - 1], key) + [key(xs[|xs| - 1])]
  }

  lemma KeysOfSnoc<T, K>(xs: seq<T>, x: T, key: T -> K)
    ensures KeysOf(xs + [x], key) == KeysOf(xs, key) + [key(x)]
  {
    assert (xs + [x])[..|xs|] == xs;
  }

  lemma KeysOfIn<T, K>(xs: seq<T>, key: T -> K, k: K)
    ensures k in KeysOf(xs, key) <==> exists i :: 0 <= i < |xs| && key(xs[i]) == k
  {
    if k in KeysOf(xs, key) {
      var i :| 0 <= i < |xs| && KeysOf(xs, key)[i] == k;
    }
  }

  // ---------------------------------------------------------------------
  // `xs.filter(x => key(x) !== k)`

  /** The elements whose key is not `k`, in their original order. */
  function RemoveKey<T(==), K(==)>(xs: seq<T>, key: T -> K, k: K): (r: seq<T>)
    ensures forall i :: 0 <= i < |r| ==> key(r[i]) != k
    ensures IsSubsequence(r, xs)
    decreases |xs|
  {
    if |xs| == 0 then []
    else
      var rest := RemoveKey(xs[1..], key, k);
      assert xs == [xs[0]] + xs[1..];
      if key(xs[0]) == k then
        SubsequenceSnocLeftSkip(rest, xs);
        rest
      else
        assert ([xs[0]] + rest)[1..] == rest;
        [xs[0]] + rest
  }

  /** Every element with another key is kept as often as it occurs, and
      nothing is added. */
  lemma {:induction false} RemoveKeyKeeps<T, K>(xs: seq<T>, key: T -> K, k: K)
    ensures forall x :: key(x) != k ==> multiset(RemoveKey(xs, key, k))[x] == multiset(xs)[x]
    ensures multiset(RemoveKey(xs, key, k)) <= multiset(xs)
    decreases |xs|
  {
    if |xs| > 0 {
      RemoveKeyKeeps(xs[1..], key, k);
      assert xs == [xs[0]] + xs[1..];
    }
  }

  /** Removing a key that no element has changes nothing. */
  lemma {:induction false} RemoveAbsentKey<T, K>(xs: seq<T>, key: T -> K, k: K)
    requires forall i :: 0 <= i < |xs| ==> key(xs[i]) != k
    ensures RemoveKey(xs, key, k) == xs
    decreases |xs|
  {
    if |xs| > 0 {
      RemoveAbsentKey(xs[1..], key, k);
    }
  }

  /** Removing the same key twice is removing it once. */
  lemma RemoveKeyIdempotent<T, K>(xs: seq<T>, key: T -> K, k: K)
    ensures RemoveKey(RemoveKey(xs, key, k), key, k) == RemoveKey(xs, key, k)
  {
    RemoveAbsentKey(RemoveKey(xs, key, k), key, k);
  }

  // ---------------------------------------------------------------------
  // `xs.find(x => key(x) === k)`

  /** The index of the first element with key `k`, if any. */
  function FindIndex<T, K(==)>(xs: seq<T>, key: T -> K, k: K): (r: Option<nat>)
    ensures r.Some? ==> r.value < |xs| && key(xs[r.value]) == k
    ensures r.Some? ==> forall j :: 0 <= j < r.value ==> key(xs[j]) != k
    ensures r.None? ==> forall i :: 0 <= i < |xs| ==> key(xs[i]) != k
    decreases |xs|
  {
    if |xs| == 0 then None
    else if key(xs[0]) == k then Some(0)
    else
      match FindIndex(xs[1..], key, k)
      case None => None
      case Some(i) => Some(i + 1)
  }

  /** Searching a longer list finds the same element, or else the new last one. */
  lemma {:induction false} FindIndexSnoc<T, K>(xs: seq<T>, x: T, key: T -> K, k: K)
    ensures FindIndex(xs + [x], key, k)
            == if FindIndex(xs, key, k).Some? then FindIndex(xs, key, k)
               else if key(x) == k then Some(|xs|) else None
    decreases |xs|
  {
    if |xs| > 0 && key(xs[0]) != k {
      assert (xs + [x])[1..] == xs[1..] + [x];
      FindIndexSnoc(xs[1..], x, key, k);
    }
  }

  /** The first element with key `k`, if any. */
  function FindKey<T, K(==)>(xs: seq<T>, key: T -> K, k: K): Option<T> {
    match FindIndex(xs, key, k)
    case None => None
    case Some(i) => Some(xs[i])
  }
}
