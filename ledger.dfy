/** Sums of amounts over rows, as the application's `reduce((sum, r) => sum + r.x, 0)`
    calls compute them, and sums restricted to the rows booked against one key
    (a user id, a category name, a date). */
module Ledger {

  import opened Collections

  /** `rows.reduce((sum, r) => sum + amount(r), 0)`, folded from the left. */
  function Total<T>(rows: seq<T>, amount: T -> real): real
    decreases |rows|
  {
    if |rows| == 0 then 0.0
    else Total(rows[..|rows| - 1], amount) + amount(rows[|rows| - 1])
  }

  /** One more row adds its amount. */
  lemma TotalSnoc<T>(rows: seq<T>, x: T, amount: T -> real)
    ensures Total(rows + [x], amount) == Total(rows, amount) + amount(x)
  {
    assert (rows + [x])[..|rows|] == rows;
  }

  /** The sum of the amounts of the rows whose key is `k`. */
  function SumFor<T, K(==)>(rows: seq<T>, key: T -> K, amount: T -> real, k: K): real
    decreases |rows|
  {
    if |rows| == 0 then 0.0
    else
      SumFor(rows[..|rows| - 1], key, amount, k)
      + (if key(rows[|rows| - 1]) == k then amount(rows[|rows| - 1]) else 0.0)
  }

  /** `rows.filter(r => key(r) === k)`, the rows a query restricted to one key returns. */
  function Where<T, K(==)>(rows: seq<T>, key: T -> K, k: K): (r: seq<T>)
    ensures forall i :: 0 <= i < |r| ==> key(r[i]) == k
    ensures multiset(r) <= multiset(rows)
    decreases |rows|
  {
    if |rows| == 0 then []
    else
      var init := Where(rows[..|rows| - 1], key, k);
      assert rows == rows[..|rows| - 1] + [rows[|rows| - 1]];
      if key(rows[|rows| - 1]) == k then init + [rows[|rows| - 1]] else init
  }

  /** Summing the rows a key filter keeps is summing what is booked against the key. */
  lemma {:induction false} TotalOfWhere<T, K>(rows: seq<T>, key: T -> K, amount: T -> real, k: K)
    ensures Total(Where(rows, key, k), amount) == SumFor(rows, key, amount, k)
    decreases |rows|
  {
    if |rows| > 0 {
      var init := rows[..|rows| - 1];
      TotalOfWhere(init, key, amount, k);
      var w := Where(init, key, k);
      if key(rows[|rows| - 1]) == k {
        assert (w + [rows[|rows| - 1]])[..|w|] == w;
      }
    }
  }

  /** The sum, over a list of keys, of what is booked against each. */
  function SumOverKeys<T, K(==)>(rows: seq<T>, key: T -> K, amount: T -> real, keys: seq<K>): real
    decreases |keys|
  {
    if |keys| == 0 then 0.0
    else SumOverKeys(rows, key, amount, keys[..|keys| - 1]) + SumFor(rows, key, amount, keys[|keys| - 1])
  }

  lemma {:induction false} TotalAppend<T>(a: seq<T>, b: seq<T>, amount: T -> real)
    ensures Total(a + b, amount) == Total(a, amount) + Total(b, amount)
    decreases |b|
  {
    if |b| == 0 {
      assert a + b == a;
    } else {
      assert (a + b)[..|a + b| - 1] == a + b[..|b| - 1];
      TotalAppend(a, b[..|b| - 1], amount);
    }
  }

  lemma {:induction false} SumForAppend<T, K>(a: seq<T>, b: seq<T>, key: T -> K, amount: T -> real, k: K)
    ensures SumFor(a + b, key, amount, k) == SumFor(a, key, amount, k) + SumFor(b, key, amount, k)
    decreases |b|
  {
    if |b| == 0 {
      assert a + b == a;
    } else {
      assert (a + b)[..|a + b| - 1] == a + b[..|b| - 1];
      SumForAppend(a, b[..|b| - 1], key, amount, k);
    }
  }

  /** Nothing is booked against a key no row carries. */
  lemma {:induction false} SumForAbsent<T, K>(rows: seq<T>, key: T -> K, amount: T -> real, k: K)
    requires forall i :: 0 <= i < |rows| ==> key(rows[i]) != k
    ensures SumFor(rows, key, amount, k) == 0.0
    decreases |rows|
  {
    if |rows| > 0 {
      SumForAbsent(rows[..|rows| - 1], key, amount, k);
    }
  }

  /** Without a key filter every row counts. */
  lemma {:induction false} SumForAll<T, K>(rows: seq<T>, key: T -> K, amount: T -> real, k: K)
    requires forall i :: 0 <= i < |rows| ==> key(rows[i]) == k
    ensures SumFor(rows, key, amount, k) == Total(rows, amount)
    decreases |rows|
  {
    if |rows| > 0 {
      SumForAll(rows[..|rows| - 1], key, amount, k);
    }
  }

  /** The sum booked against a key does not depend on the order of the rows. */
  lemma {:induction false} SumForPermutation<T, K>(a: seq<T>, b: seq<T>, key: T -> K, amount: T -> real, k: K)
    requires multiset(a) == multiset(b)
    ensures SumFor(a, key, amount, k) == SumFor(b, key, amount, k)
    decreases |a|
  {
    if |a| == 0 {
      assert |b| == |multiset(b)| == 0;
    } else {
      var x := a[|a| - 1];
      var init := a[..|a| - 1];
      assert a == init + [x];
      assert x in multiset(b);
      var j :| 0 <= j < |b| && b[j] == x;
      var rest := b[..j] + b[j + 1..];
      assert b == b[..j] + [x] + b[j + 1..];
      assert multiset(b) == multiset(b[..j]) + multiset([x]) + multiset(b[j + 1..]);
      assert multiset(a) == multiset(init) + multiset([x]);
      assert multiset(rest) == multiset(b[..j]) + multiset(b[j + 1..]);
      assert multiset(init) == multiset(a) - multiset([x]);
      assert multiset(rest) == multiset(b) - multiset([x]);
      SumForPermutation(init, rest, key, amount, k);
      SumForAppend(b[..j], b[j + 1..], key, amount, k);
      SumForAppend(b[..j] + [x], b[j + 1..], key, amount, k);
      SumForAppend(b[..j], [x], key, amount, k);
      assert [x][..0] == [];
    }
  }

  /** The total does not depend on the order of the rows. */
  lemma {:induction false} TotalPermutation<T>(a: seq<T>, b: seq<T>, amount: T -> real)
    requires multiset(a) == multiset(b)
    ensures Total(a, amount) == Total(b, amount)
    decreases |a|
  {
    if |a| == 0 {
      assert |b| == |multiset(b)| == 0;
    } else {
      var x := a[|a| - 1];
      var init := a[..|a| - 1];
      assert a == init + [x];
      assert x in multiset(b);
      var j :| 0 <= j < |b| && b[j] == x;
      var rest := b[..j] + b[j + 1..];
      assert b == b[..j] + [x] + b[j + 1..];
      assert multiset(b) == multiset(b[..j]) + multiset([x]) + multiset(b[j + 1..]);
      assert multiset(a) == multiset(init) + multiset([x]);
      assert multiset(rest) == multiset(b[..j]) + multiset(b[j + 1..]);
      assert multiset(init) == multiset(a) - multiset([x]);
      assert multiset(rest) == multiset(b) - multiset([x]);
      TotalPermutation(init, rest, amount);
      TotalAppend(b[..j], b[j + 1..], amount);
      TotalAppend(b[..j] + [x], b[j + 1..], amount);
      TotalAppend(b[..j], [x], amount);
      assert [x][..0] == [];
    }
  }

  lemma {:induction false} SumOverKeysSnoc<T, K>(rows: seq<T>, r: T, key: T -> K, amount: T -> real, keys: seq<K>)
    requires Distinct(keys)
    ensures SumOverKeys(rows + [r], key, amount, keys)
            == SumOverKeys(rows, key, amount, keys) + (if key(r) in keys then amount(r) else 0.0)
    decreases |keys|
  {
    assert (rows + [r])[..|rows + [r]| - 1] == rows;
    if |keys| > 0 {
      var init := keys[..|keys| - 1];
      assert Distinct(init);
      SumOverKeysSnoc(rows, r, key, amount, init);
      assert key(r) in keys <==> key(r) in init || key(r) == keys[|keys| - 1];
      assert key(r) == keys[|keys| - 1] ==> key(r) !in init;
    }
  }

  /** Booking every row against exactly one of a list of distinct keys
      loses nothing and counts nothing twice: the per-key sums add up to the total. */
  lemma {:induction false} PartitionTotal<T, K>(rows: seq<T>, key: T -> K, amount: T -> real, keys: seq<K>)
    requires Distinct(keys)
    requires forall i :: 0 <= i < |rows| ==> key(rows[i]) in keys
    ensures SumOverKeys(rows, key, amount, keys) == Total(rows, amount)
    decreases |rows|
  {
    if |rows| == 0 {
      SumOverKeysEmpty(key, amount, keys);
    } else {
      var init := rows[..|rows| - 1];
      PartitionTotal(init, key, amount, keys);
      assert init + [rows[|rows| - 1]] == rows;
      SumOverKeysSnoc(init, rows[|rows| - 1], key, amount, keys);
    }
  }

  lemma {:induction false} SumOverKeysEmpty<T, K>(key: T -> K, amount: T -> real, keys: seq<K>)
    ensures SumOverKeys([], key, amount, keys) == 0.0
    decreases |keys|
  {
    if |keys| > 0 {
      SumOverKeysEmpty(key, amount, keys[..|keys| - 1]);
    }
  }

  /** Summing a projection of mapped rows is summing the composed projection. */
  lemma {:induction false} TotalMap<T, U>(xs: seq<T>, ys: seq<U>, f: T -> real, g: U -> real)
    requires |xs| == |ys|
    requires forall i :: 0 <= i < |xs| ==> g(ys[i]) == f(xs[i])
    ensures Total(ys, g) == Total(xs, f)
    decreases |xs|
  {
    if |xs| > 0 {
      TotalMap(xs[..|xs| - 1], ys[..|ys| - 1], f, g);
    }
  }

  /** `n` equal amounts add up to `n` times the amount. */
  lemma {:induction false} TotalConst<T>(xs: seq<T>, f: T -> real, c: real)
    requires forall i :: 0 <= i < |xs| ==> f(xs[i]) == c
    ensures Total(xs, f) == |xs| as real * c
    decreases |xs|
  {
    if |xs| > 0 {
      TotalConst(xs[..|xs| - 1], f, c);
    }
  }

  /** Scaling every amount by `c` scales the total by `c`. */
  lemma {:induction false} TotalScaled<T>(xs: seq<T>, f: T -> real, g: T -> real, c: real)
    requires forall i :: 0 <= i < |xs| ==> g(xs[i]) == c * f(xs[i])
    ensures Total(xs, g) == c * Total(xs, f)
    decreases |xs|
  {
    if |xs| > 0 {
      TotalScaled(xs[..|xs| - 1], f, g, c);
    }
  }

  /** A list with one entry per key, each carrying what is booked against its
      key, sums to the sum over the keys. */
  lemma {:induction false} TotalOverKeys<T, K, U>(rows: seq<T>, key: T -> K, amount: T -> real, keys: seq<K>,
                                                  entries: seq<U>, entryAmount: U -> real)
    requires |entries| == |keys|
    requires forall i :: 0 <= i < |keys| ==> entryAmount(entries[i]) == SumFor(rows, key, amount, keys[i])
    ensures Total(entries, entryAmount) == SumOverKeys(rows, key, amount, keys)
    decreases |keys|
  {
    if |keys| > 0 {
      TotalOverKeys(rows, key, amount, keys[..|keys| - 1], entries[..|entries| - 1], entryAmount);
    }
  }
}
