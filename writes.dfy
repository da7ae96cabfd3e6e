/** The rows one run of the environmental-data batch writes into its three
    tables, and how the rows of successive profiles combine. */
module Writes {
  import opened Metrics

  /** Rows written, one map per table: `rainfall_data` and `vegetation_data`
      keyed by `(user_id, month)`, `metrics` by `(user_id, metric_type)`. */
  datatype Writes = Writes(rainfall: map<(string, string), real>, vegetation: map<(string, string), real>,
                           metrics: map<(string, MetricType), MetricRow>)

  const NoWrites := Writes(map[], map[], map[])

  /** `b`'s rows written after `a`'s: where both write a key, `b`'s row stays. */
  function Then(a: Writes, b: Writes): Writes {
    Writes(a.rainfall + b.rainfall, a.vegetation + b.vegetation, a.metrics + b.metrics)
  }

  /** The rows of a loop over `ps` that writes `f(p)` for each `p` in turn. */
  function Fold<P>(ps: seq<P>, f: P -> Writes): Writes {
    if ps == [] then NoWrites else Then(Fold(ps[..|ps| - 1], f), f(ps[|ps| - 1]))
  }

  /** The rows of user `id` in a table keyed by `(user_id, ...)`. */
  function Own<B(==), V>(m: map<(string, B), V>, id: string): map<(string, B), V> {
    map k | k in m && k.0 == id :: m[k]
  }

  /** Every row of `w` is a row of user `id`. */
  ghost predicate OwnedBy(w: Writes, id: string) {
    && (forall k :: k in w.rainfall ==> k.0 == id)
    && (forall k :: k in w.vegetation ==> k.0 == id)
    && (forall k :: k in w.metrics ==> k.0 == id)
  }

  /** No element other than the `i`-th has the `i`-th's user. */
  ghost predicate UniqueAt<P>(ps: seq<P>, user: P -> string, i: nat)
    requires i < |ps|
  {
    forall j :: 0 <= j < |ps| && j != i ==> user(ps[j]) != user(ps[i])
  }

  lemma UnionEmpty<K, V>(m: map<K, V>)
    ensures m + map[] == m && map[] + m == m
  {
  }

  lemma UnionAssoc<K, V>(a: map<K, V>, b: map<K, V>, c: map<K, V>)
    ensures (a + b) + c == a + (b + c)
  {
  }

  /** One more element's rows, on top of a table holding the loop's rows so far. */
  lemma FoldStep<P>(rows: Writes, ps: seq<P>, f: P -> Writes, i: nat)
    requires i < |ps|
    ensures Then(Then(rows, Fold(ps[..i], f)), f(ps[i])) == Then(rows, Fold(ps[..i + 1], f))
  {
    assert ps[..i + 1][..i] == ps[..i];
    var a := Fold(ps[..i], f);
    var b := f(ps[i]);
    UnionAssoc(rows.rainfall, a.rainfall, b.rainfall);
    UnionAssoc(rows.vegetation, a.vegetation, b.vegetation);
    UnionAssoc(rows.metrics, a.metrics, b.metrics);
  }

  lemma OwnUnion<B, V>(m1: map<(string, B), V>, m2: map<(string, B), V>, id: string)
    ensures Own(m1 + m2, id) == Own(m1, id) + Own(m2, id)
  {
  }

  lemma OwnOnly<B, V>(m: map<(string, B), V>, owner: string, id: string)
    requires forall k :: k in m ==> k.0 == owner
    ensures Own(m, id) == if owner == id then m else map[]
  {
    if owner != id {
      assert forall k :: k !in Own(m, id);
    }
  }

  /** A user's rows in `b` after `a`: its rows in `a`, overridden by its rows in `b`. */
  lemma OwnThen(a: Writes, b: Writes, owner: string, id: string)
    requires OwnedBy(b, owner)
    ensures Own(Then(a, b).rainfall, id) == Own(a.rainfall, id) + (if owner == id then b.rainfall else map[])
    ensures Own(Then(a, b).vegetation, id) == Own(a.vegetation, id) + (if owner == id then b.vegetation else map[])
    ensures Own(Then(a, b).metrics, id) == Own(a.metrics, id) + (if owner == id then b.metrics else map[])
  {
    OwnUnion(a.rainfall, b.rainfall, id);
    OwnUnion(a.vegetation, b.vegetation, id);
    OwnUnion(a.metrics, b.metrics, id);
    OwnOnly(b.rainfall, owner, id);
    OwnOnly(b.vegetation, owner, id);
    OwnOnly(b.metrics, owner, id);
  }

  /** A loop over elements none of which has user `id` writes no row of `id`. */
  lemma {:induction false} FoldLacksUser<P>(ps: seq<P>, f: P -> Writes, user: P -> string, id: string)
    requires forall p :: OwnedBy(f(p), user(p))
    requires forall j :: 0 <= j < |ps| ==> user(ps[j]) != id
    ensures Own(Fold(ps, f).rainfall, id) == map[]
    ensures Own(Fold(ps, f).vegetation, id) == map[]
    ensures Own(Fold(ps, f).metrics, id) == map[]
  {
    if ps != [] {
      var n := |ps| - 1;
      FoldLacksUser(ps[..n], f, user, id);
      OwnThen(Fold(ps[..n], f), f(ps[n]), user(ps[n]), id);
    }
  }

  /** Users are isolated: in what the loop writes, the rows of a user listed
      once are exactly the rows written for that user's element, whatever was
      written for the others. */
  lemma {:induction false} FoldIsolatesUsers<P>(ps: seq<P>, f: P -> Writes, user: P -> string, i: nat)
    requires forall p :: OwnedBy(f(p), user(p))
    requires i < |ps| && UniqueAt(ps, user, i)
    ensures Own(Fold(ps, f).rainfall, user(ps[i])) == f(ps[i]).rainfall
    ensures Own(Fold(ps, f).vegetation, user(ps[i])) == f(ps[i]).vegetation
    ensures Own(Fold(ps, f).metrics, user(ps[i])) == f(ps[i]).metrics
  {
    var n := |ps| - 1;
    var init := ps[..n];
    var id := user(ps[i]);
    var a := Fold(init, f);
    var last := f(ps[n]);
    assert Fold(ps, f) == Then(a, last);
    OwnThen(a, last, user(ps[n]), id);
    if i == n {
      FoldLacksUser(init, f, user, id);
      UnionEmpty(last.rainfall);
      UnionEmpty(last.vegetation);
      UnionEmpty(last.metrics);
    } else {
      assert init[i] == ps[i];
      assert user(ps[n]) != id;
      UniqueInit(ps, user, i);
      FoldIsolatesUsers(init, f, user, i);
      UnionEmpty(Own(a.rainfall, id));
      UnionEmpty(Own(a.vegetation, id));
      UnionEmpty(Own(a.metrics, id));
    }
  }

  lemma UniqueInit<P>(ps: seq<P>, user: P -> string, i: nat)
    requires i < |ps| - 1 && UniqueAt(ps, user, i)
    ensures UniqueAt(ps[..|ps| - 1], user, i)
  {
  }

  lemma ThenAssoc(a: Writes, b: Writes, c: Writes)
    ensures Then(Then(a, b), c) == Then(a, Then(b, c))
  {
    UnionAssoc(a.rainfall, b.rainfall, c.rainfall);
    UnionAssoc(a.vegetation, b.vegetation, c.vegetation);
    UnionAssoc(a.metrics, b.metrics, c.metrics);
  }

  lemma ThenNoWrites(a: Writes)
    ensures Then(a, NoWrites) == a && Then(NoWrites, a) == a
  {
    UnionEmpty(a.rainfall);
    UnionEmpty(a.vegetation);
    UnionEmpty(a.metrics);
  }

  /** Writing the same rows twice leaves the tables as writing them once. */
  lemma ThenTwice(a: Writes, w: Writes)
    ensures Then(Then(a, w), w) == Then(a, w)
  {
    ThenAssoc(a, w, w);
    assert w.rainfall + w.rainfall == w.rainfall;
    assert w.vegetation + w.vegetation == w.vegetation;
    assert w.metrics + w.metrics == w.metrics;
  }

  /** A loop over `a + b` writes `a`'s rows, then `b`'s. */
  lemma {:induction false} FoldAppend<P>(a: seq<P>, b: seq<P>, f: P -> Writes)
    ensures Fold(a + b, f) == Then(Fold(a, f), Fold(b, f))
    decreases |b|
  {
    if b == [] {
      assert a + b == a;
      ThenNoWrites(Fold(a, f));
    } else {
      var init := b[..|b| - 1];
      assert (a + b)[..|a + b| - 1] == a + init;
      FoldAppend(a, init, f);
      ThenAssoc(Fold(a, f), Fold(init, f), f(b[|b| - 1]));
    }
  }

  /** An element that writes nothing can be dropped from the loop. */
  lemma FoldSkip<P>(ps: seq<P>, f: P -> Writes, i: nat)
    requires i < |ps| && f(ps[i]) == NoWrites
    ensures Fold(ps[..i] + ps[i + 1..], f) == Fold(ps, f)
  {
    var pre := ps[..i];
    var post := ps[i + 1..];
    assert ps == pre + [ps[i]] + post;
    FoldAppend(pre, post, f);
    FoldAppend(pre + [ps[i]], post, f);
    FoldAppend(pre, [ps[i]], f);
    assert Fold([ps[i]], f) == Then(NoWrites, NoWrites) by {
      assert [ps[i]][..0] == [];
    }
    ThenNoWrites(NoWrites);
    ThenNoWrites(Fold(pre, f));
  }
}
