/** Grouping a sequence of daily entries into buckets by a string key (a
    month), the way the source fills an object of arrays entry by entry, and
    sums over entries and buckets. */
module Buckets {
  import opened Wrappers
  import opened JsNumber

  /** The distinct keys of `xs` in order of first occurrence: the order in which
      a JavaScript object enumerates string keys that are not array indices. */
  function Keys<T>(xs: seq<T>, key: T -> string): seq<string> {
    if xs == [] then []
    else
      var ks := Keys(xs[..|xs| - 1], key);
      var k := key(xs[|xs| - 1]);
      if k in ks then ks else ks + [k]
  }

  /** The entries of `xs` whose key is `k`, in their original order. */
  function Bucket<T>(xs: seq<T>, key: T -> string, k: string): seq<T> {
    if xs == [] then []
    else Bucket(xs[..|xs| - 1], key, k) + (if key(xs[|xs| - 1]) == k then [xs[|xs| - 1]] else [])
  }

  /** `xs.reduce((sum, x) => sum + w(x), 0)`. */
  function SumOf<T>(xs: seq<T>, w: T -> real): real {
    if xs == [] then 0.0 else SumOf(xs[..|xs| - 1], w) + w(xs[|xs| - 1])
  }

  function Id(x: real): real {
    x
  }

  /** `xs.reduce((sum, x) => sum + x, 0)`. */
  function Sum(xs: seq<real>): real {
    SumOf(xs, Id)
  }

  /** A one-entry sequence: its bucket and its sum. */
  lemma Singleton<T>(x: T, key: T -> string, k: string, w: T -> real)
    ensures Bucket([x], key, k) == if key(x) == k then [x] else []
    ensures SumOf([x], w) == w(x)
  {
    assert [x][..0] == [];
  }

  /** A key is listed iff some entry has it. */
  lemma {:induction false} KeysMembership<T>(xs: seq<T>, key: T -> string)
    ensures forall k :: k in Keys(xs, key) <==> exists i :: 0 <= i < |xs| && key(xs[i]) == k
  {
    if xs != [] {
      var init := xs[..|xs| - 1];
      KeysMembership(init, key);
      forall k ensures k in Keys(xs, key) <==> exists i :: 0 <= i < |xs| && key(xs[i]) == k {
        if exists i :: 0 <= i < |xs| && key(xs[i]) == k {
          var i :| 0 <= i < |xs| && key(xs[i]) == k;
          if i < |xs| - 1 {
            assert key(init[i]) == k;
          }
        }
        if k in Keys(init, key) {
          var i :| 0 <= i < |init| && key(init[i]) == k;
          assert key(xs[i]) == k;
        }
      }
    }
  }

  predicate Distinct(ks: seq<string>) {
    forall i, j :: 0 <= i < j < |ks| ==> ks[i] != ks[j]
  }

  /** No key is listed twice. */
  lemma {:induction false} KeysDistinct<T>(xs: seq<T>, key: T -> string)
    ensures Distinct(Keys(xs, key))
  {
    if xs != [] {
      var ks := Keys(xs[..|xs| - 1], key);
      KeysDistinct(xs[..|xs| - 1], key);
      var k := key(xs[|xs| - 1]);
      if k !in ks {
        var ks' := ks + [k];
        forall i, j | 0 <= i < j < |ks'| ensures ks'[i] != ks'[j] {
          assert ks'[i] == ks[i];
          if j == |ks| {
            assert ks'[j] == k;
            assert ks[i] in ks;
          } else {
            assert ks'[j] == ks[j];
          }
        }
      }
    }
  }

  /** Every entry lands in the bucket of its own key and in no other. */
  lemma {:induction false} BucketMembership<T>(xs: seq<T>, key: T -> string, k: string)
    ensures forall x :: x in Bucket(xs, key, k) <==> x in xs && key(x) == k
  {
    if xs != [] {
      var init := xs[..|xs| - 1];
      BucketMembership(init, key, k);
      assert xs == init + [xs[|xs| - 1]];
    }
  }

  /** A bucket is never longer than the sequence, and as long exactly when
      every entry has its key. */
  lemma {:induction false} BucketLength<T>(xs: seq<T>, key: T -> string, k: string)
    ensures |Bucket(xs, key, k)| <= |xs|
    ensures |Bucket(xs, key, k)| == |xs| <==> forall i :: 0 <= i < |xs| ==> key(xs[i]) == k
  {
    if xs != [] {
      var init := xs[..|xs| - 1];
      BucketLength(init, key, k);
      assert forall i :: 0 <= i < |init| ==> init[i] == xs[i];
    }
  }

  /** A bucket is empty exactly when its key is not listed. */
  lemma BucketEmpty<T>(xs: seq<T>, key: T -> string, k: string)
    ensures Bucket(xs, key, k) == [] <==> k !in Keys(xs, key)
  {
    KeysMembership(xs, key);
    BucketMembership(xs, key, k);
    if k in Keys(xs, key) {
      var i :| 0 <= i < |xs| && key(xs[i]) == k;
      assert xs[i] in Bucket(xs, key, k);
    }
  }

  lemma {:induction false} BucketAppend<T>(a: seq<T>, b: seq<T>, key: T -> string, k: string)
    ensures Bucket(a + b, key, k) == Bucket(a, key, k) + Bucket(b, key, k)
  {
    if b != [] {
      var b' := b[..|b| - 1];
      assert (a + b)[..|a + b| - 1] == a + b';
      BucketAppend(a, b', key, k);
    } else {
      assert a + b == a;
    }
  }

  lemma {:induction false} SumOfAppend<T>(a: seq<T>, b: seq<T>, w: T -> real)
    ensures SumOf(a + b, w) == SumOf(a, w) + SumOf(b, w)
  {
    if b != [] {
      var b' := b[..|b| - 1];
      assert (a + b)[..|a + b| - 1] == a + b';
      SumOfAppend(a, b', w);
    } else {
      assert a + b == a;
    }
  }

  /** Taking one entry out of a sequence, as a splice. */
  lemma RemoveOne<T>(ys: seq<T>, j: nat)
    requires j < |ys|
    ensures ys == ys[..j] + [ys[j]] + ys[j + 1..]
    ensures multiset(ys[..j] + ys[j + 1..]) == multiset(ys) - multiset{ys[j]}
  {
    assert ys == ys[..j] + [ys[j]] + ys[j + 1..];
  }

  /** The last entry of `xs` sits at some index `j` of a permutation `ys`;
      what is left of both is again a permutation. */
  lemma MatchLast<T>(xs: seq<T>, ys: seq<T>) returns (j: nat)
    requires multiset(xs) == multiset(ys) && xs != []
    ensures j < |ys| && ys[j] == xs[|xs| - 1]
    ensures xs == xs[..|xs| - 1] + [xs[|xs| - 1]]
    ensures ys == ys[..j] + [ys[j]] + ys[j + 1..]
    ensures multiset(xs[..|xs| - 1]) == multiset(ys[..j] + ys[j + 1..])
  {
    var x := xs[|xs| - 1];
    assert xs == xs[..|xs| - 1] + [x];
    assert x in multiset(ys);
    j :| 0 <= j < |ys| && ys[j] == x;
    RemoveOne(ys, j);
  }

  /** Splicing one entry into a sequence adds it to its own bucket only. */
  lemma BucketSplice<T>(a: seq<T>, x: T, b: seq<T>, key: T -> string, k: string)
    ensures multiset(Bucket(a + [x] + b, key, k))
      == multiset(Bucket(a + b, key, k)) + multiset(Bucket([x], key, k))
  {
    BucketAppend(a + [x], b, key, k);
    BucketAppend(a, [x], key, k);
    BucketAppend(a, b, key, k);
  }

  /** Bucketing does not depend on the order of the entries. */
  lemma {:induction false} BucketPermutation<T>(xs: seq<T>, ys: seq<T>, key: T -> string, k: string)
    requires multiset(xs) == multiset(ys)
    ensures multiset(Bucket(xs, key, k)) == multiset(Bucket(ys, key, k))
    decreases |xs|
  {
    if xs != [] {
      var x := xs[|xs| - 1];
      var init := xs[..|xs| - 1];
      var j := MatchLast(xs, ys);
      var rest := ys[..j] + ys[j + 1..];
      BucketPermutation(init, rest, key, k);
      BucketSplice(ys[..j], x, ys[j + 1..], key, k);
      BucketAppend(init, [x], key, k);
    } else {
      assert ys == [];
    }
  }

  /** Splicing one entry into a sequence adds its weight to the sum. */
  lemma SumOfSplice<T>(a: seq<T>, x: T, b: seq<T>, w: T -> real)
    ensures SumOf(a + [x] + b, w) == SumOf(a + b, w) + w(x)
  {
    SumOfAppend(a + [x], b, w);
    SumOfAppend(a, [x], w);
    SumOfAppend(a, b, w);
    Singleton(x, _ => "", "", w);
  }

  /** Summing does not depend on the order of the entries. */
  lemma {:induction false} SumOfPermutation<T>(xs: seq<T>, ys: seq<T>, w: T -> real)
    requires multiset(xs) == multiset(ys)
    ensures SumOf(xs, w) == SumOf(ys, w)
    decreases |xs|
  {
    if xs != [] {
      var x := xs[|xs| - 1];
      var init := xs[..|xs| - 1];
      var j := MatchLast(xs, ys);
      var rest := ys[..j] + ys[j + 1..];
      SumOfPermutation(init, rest, w);
      SumOfSplice(ys[..j], x, ys[j + 1..], w);
    } else {
      assert ys == [];
    }
  }

  /** The sum, over the listed keys `ks`, of each bucket's sum. */
  function SumOverKeys<T>(ks: seq<string>, xs: seq<T>, key: T -> string, w: T -> real): real {
    if ks == [] then 0.0
    else SumOverKeys(ks[..|ks| - 1], xs, key, w) + SumOf(Bucket(xs, key, ks[|ks| - 1]), w)
  }

  /** Appending one entry adds its weight to the bucket of its key, if listed. */
  lemma {:induction false} SumOverKeysAppend<T>(ks: seq<string>, xs: seq<T>, x: T, key: T -> string, w: T -> real)
    requires Distinct(ks)
    ensures SumOverKeys(ks, xs + [x], key, w)
      == SumOverKeys(ks, xs, key, w) + (if key(x) in ks then w(x) else 0.0)
  {
    if ks != [] {
      var init := ks[..|ks| - 1];
      var last := ks[|ks| - 1];
      SumOverKeysAppend(init, xs, x, key, w);
      assert (xs + [x])[..|xs|] == xs;
      var b := Bucket(xs, key, last);
      if key(x) == last {
        assert Bucket(xs + [x], key, last) == b + [x];
        assert (b + [x])[..|b|] == b;
        assert key(x) !in init;
      } else {
        assert Bucket(xs + [x], key, last) == b + [];
        assert b + [] == b;
      }
      assert key(x) in ks <==> key(x) in init || key(x) == last;
    }
  }

  /** Every entry lands in exactly one bucket: the buckets' sums add up to the
      sum of all entries. */
  lemma {:induction false} BucketsConserveSum<T>(xs: seq<T>, key: T -> string, w: T -> real)
    ensures SumOverKeys(Keys(xs, key), xs, key, w) == SumOf(xs, w)
  {
    if xs != [] {
      var init := xs[..|xs| - 1];
      var x := xs[|xs| - 1];
      assert xs == init + [x];
      var ks := Keys(init, key);
      BucketsConserveSum(init, key, w);
      KeysDistinct(init, key);
      SumOverKeysAppend(ks, init, x, key, w);
      assert SumOf(xs, w) == SumOf(init, w) + w(x);
      if key(x) !in ks {
        NewKeyBucket(init, x, key, w);
      }
    }
  }

  /** The first entry with a new key opens a bucket holding only itself. */
  lemma NewKeyBucket<T>(init: seq<T>, x: T, key: T -> string, w: T -> real)
    requires key(x) !in Keys(init, key)
    ensures var ks := Keys(init, key);
      SumOverKeys(ks + [key(x)], init + [x], key, w) == SumOverKeys(ks, init + [x], key, w) + w(x)
  {
    var ks := Keys(init, key);
    var xs := init + [x];
    BucketEmpty(init, key, key(x));
    assert xs[..|xs| - 1] == init;
    assert Bucket(xs, key, key(x)) == [] + [x];
    assert (ks + [key(x)])[..|ks|] == ks;
    assert SumOf([x], w) == w(x) by {
      assert [x][..0] == [];
    }
  }

  /** Groups `xs` by key in one pass, as the source does: a key's array is
      created when the key is first met and every entry is pushed onto its
      key's array. */
  method Group<T>(xs: seq<T>, key: T -> string) returns (order: seq<string>, groups: map<string, seq<T>>)
    ensures order == Keys(xs, key)
    ensures forall k :: k in groups <==> k in order
    ensures forall k :: k in groups ==> groups[k] == Bucket(xs, key, k)
  {
    order, groups := [], map[];
    for i := 0 to |xs|
      invariant order == Keys(xs[..i], key)
      invariant forall k :: k in groups <==> k in order
      invariant forall k :: k in groups ==> groups[k] == Bucket(xs[..i], key, k)
    {
      assert xs[..i + 1][..i] == xs[..i];
      var k := key(xs[i]);
      if k !in groups {
        BucketEmpty(xs[..i], key, k);
        groups := groups[k := []];
        order := order + [k];
      }
      groups := groups[k := groups[k] + [xs[i]]];
    }
    assert xs[..|xs|] == xs;
  }

  /** `xs.reduce((sum, x) => sum + v(x), 0)` where `v(x)` may be `undefined`
      (`None`): adding `undefined` gives NaN, and NaN stays NaN. */
  function Total<T>(xs: seq<T>, v: T -> Option<real>): Quantity {
    if xs == [] then Finite(0.0)
    else
      var t := Total(xs[..|xs| - 1], v);
      var last := v(xs[|xs| - 1]);
      if t.Finite? && last.Some? then Finite(t.value + last.value) else NotFinite
  }

  predicate AllDefined<T>(xs: seq<T>, v: T -> Option<real>) {
    forall i :: 0 <= i < |xs| ==> v(xs[i]).Some?
  }

  /** The reduce is the plain sum of the values when every entry has one, and
      NaN as soon as one entry has none. */
  lemma {:induction false} TotalIsSum<T>(xs: seq<T>, v: T -> Option<real>, w: T -> real)
    requires forall x :: v(x).Some? ==> w(x) == v(x).value
    ensures Total(xs, v) == if AllDefined(xs, v) then Finite(SumOf(xs, w)) else NotFinite
  {
    if xs != [] {
      var init := xs[..|xs| - 1];
      TotalIsSum(init, v, w);
      assert AllDefined(xs, v) <==> AllDefined(init, v) && v(xs[|xs| - 1]).Some?;
    }
  }

  lemma AllDefinedByMembers<T>(xs: seq<T>, v: T -> Option<real>)
    ensures AllDefined(xs, v) <==> forall x :: x in multiset(xs) ==> v(x).Some?
  {
    if !AllDefined(xs, v) {
      var i :| 0 <= i < |xs| && v(xs[i]).None?;
      assert xs[i] in multiset(xs);
    }
  }

  /** A bucket's entries all have values when every entry has one. */
  lemma BucketAllDefined<T>(xs: seq<T>, key: T -> string, k: string, v: T -> Option<real>)
    requires AllDefined(xs, v)
    ensures AllDefined(Bucket(xs, key, k), v)
  {
    BucketMembership(xs, key, k);
    AllDefinedByMembers(xs, v);
    AllDefinedByMembers(Bucket(xs, key, k), v);
  }

  /** The reduce does not depend on the order of the entries. */
  lemma TotalPermutation<T>(xs: seq<T>, ys: seq<T>, v: T -> Option<real>, w: T -> real)
    requires multiset(xs) == multiset(ys)
    requires forall x :: v(x).Some? ==> w(x) == v(x).value
    ensures Total(xs, v) == Total(ys, v)
  {
    TotalIsSum(xs, v, w);
    TotalIsSum(ys, v, w);
    AllDefinedByMembers(xs, v);
    AllDefinedByMembers(ys, v);
    SumOfPermutation(xs, ys, w);
  }

  /** Two sequences holding the same entries meet the same keys. */
  lemma KeysPermutation<T>(xs: seq<T>, ys: seq<T>, key: T -> string)
    requires multiset(xs) == multiset(ys)
    ensures forall k :: k in Keys(xs, key) <==> k in Keys(ys, key)
  {
    KeysMembership(xs, key);
    KeysMembership(ys, key);
    forall k ensures k in Keys(xs, key) <==> k in Keys(ys, key) {
      if k in Keys(xs, key) {
        var i :| 0 <= i < |xs| && key(xs[i]) == k;
        assert xs[i] in multiset(ys);
      }
      if k in Keys(ys, key) {
        var i :| 0 <= i < |ys| && key(ys[i]) == k;
        assert ys[i] in multiset(xs);
      }
    }
  }
}
