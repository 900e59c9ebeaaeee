/** Sums over finite sets of keys: what SQL's SUM computes over the rows of a table. */
module Sums {

  ghost function Sum<K(!new)>(keys: set<K>, f: K -> int): int
  {
    if keys == {} then 0
    else
      var k :| k in keys;
      f(k) + Sum(keys - {k}, f)
  }

  lemma {:induction false} SumTake<K(!new)>(keys: set<K>, f: K -> int, k: K)
    requires k in keys
    ensures Sum(keys, f) == f(k) + Sum(keys - {k}, f)
    decreases |keys|
  {
    var j :| j in keys && Sum(keys, f) == f(j) + Sum(keys - {j}, f);
    if j != k {
      SumTake(keys - {j}, f, k);
      SumTake(keys - {k}, f, j);
      assert keys - {j} - {k} == keys - {k} - {j};
    }
  }

  lemma SumPut<K(!new)>(keys: set<K>, f: K -> int, k: K)
    requires k !in keys
    ensures Sum(keys + {k}, f) == Sum(keys, f) + f(k)
  {
    SumTake(keys + {k}, f, k);
    assert keys + {k} - {k} == keys;
  }

  lemma {:induction false} SumAgree<K(!new)>(keys: set<K>, f: K -> int, g: K -> int)
    requires forall k :: k in keys ==> f(k) == g(k)
    ensures Sum(keys, f) == Sum(keys, g)
    decreases |keys|
  {
    if keys != {} {
      var k :| k in keys;
      SumTake(keys, f, k);
      SumTake(keys, g, k);
      SumAgree(keys - {k}, f, g);
    }
  }

  lemma {:induction false} SumZero<K(!new)>(keys: set<K>, f: K -> int)
    requires forall k :: k in keys ==> f(k) == 0
    ensures Sum(keys, f) == 0
    decreases |keys|
  {
    if keys != {} {
      var k :| k in keys;
      SumTake(keys, f, k);
      SumZero(keys - {k}, f);
    }
  }

  /** Sums are linear. */
  lemma {:induction false} SumLinear<K(!new)>(keys: set<K>, f: K -> int, g: K -> int, h: K -> int, c: int)
    requires forall k :: k in keys ==> h(k) == f(k) + c * g(k)
    ensures Sum(keys, h) == Sum(keys, f) + c * Sum(keys, g)
    decreases |keys|
  {
    if keys != {} {
      var k :| k in keys;
      SumTake(keys, f, k);
      SumTake(keys, g, k);
      SumTake(keys, h, k);
      SumLinear(keys - {k}, f, g, h, c);
      assert c * (g(k) + Sum(keys - {k}, g)) == c * g(k) + c * Sum(keys - {k}, g);
    }
  }

  lemma SumFour<K(!new)>(keys: set<K>, a: K -> int, b: K -> int, c: K -> int, d: K -> int, h: K -> int)
    requires forall k :: k in keys ==> h(k) == a(k) - b(k) + c(k) - d(k)
    ensures Sum(keys, h) == Sum(keys, a) - Sum(keys, b) + Sum(keys, c) - Sum(keys, d)
  {
    var ab := (k: K) => a(k) - b(k);
    var abc := (k: K) => ab(k) + c(k);
    SumLinear(keys, a, b, ab, -1);
    SumLinear(keys, ab, c, abc, 1);
    SumLinear(keys, abc, d, h, -1);
  }

  /** Keys with no share do not matter. */
  lemma {:induction false} SumWiden<K(!new)>(few: set<K>, all: set<K>, f: K -> int)
    requires few <= all
    requires forall k :: k in all && k !in few ==> f(k) == 0
    ensures Sum(all, f) == Sum(few, f)
    decreases |all - few|
  {
    if few != all {
      var k :| k in all && k !in few;
      SumPut(few, f, k);
      assert all - (few + {k}) == all - few - {k};
      SumWiden(few + {k}, all, f);
    } else {
      assert few == all;
    }
  }

  lemma SumOne<K(!new)>(keys: set<K>, f: K -> int, k: K)
    requires k in keys
    requires forall j :: j in keys && j != k ==> f(j) == 0
    ensures Sum(keys, f) == f(k)
  {
    SumTake(keys, f, k);
    SumZero(keys - {k}, f);
  }

  /** Changing the term of one key changes a sum by as much; the key may be new. */
  lemma OneTermChanged<K(!new)>(keys: set<K>, keys': set<K>, f: K -> int, f': K -> int, key: K)
    requires keys' == keys + {key}
    requires forall k :: k in keys && k != key ==> f'(k) == f(k)
    requires key !in keys ==> f(key) == 0
    ensures Sum(keys', f') == Sum(keys, f) + f'(key) - f(key)
  {
    if key in keys {
      assert keys' == keys;
      SumTake(keys, f', key);
      SumTake(keys, f, key);
      SumAgree(keys - {key}, f', f);
    } else {
      SumPut(keys, f', key);
      SumAgree(keys, f', f);
    }
  }

  /** Column `b` of a matrix given by its rows. */
  ghost function Column<A(!new), B(!new)>(f: A -> B -> int, b: B): A -> int {
    (a: A) => f(a)(b)
  }

  /** Exchanging the order of a double sum. */
  lemma {:induction false} SumSwap<A(!new), B(!new)>(
    xs: set<A>, ys: set<B>, f: A -> B -> int, rows: A -> int, columns: B -> int)
    requires forall a :: a in xs ==> rows(a) == Sum(ys, f(a))
    requires forall b :: b in ys ==> columns(b) == Sum(xs, Column(f, b))
    ensures Sum(xs, rows) == Sum(ys, columns)
    decreases |xs|
  {
    if xs == {} {
      SumZero(ys, columns);
    } else {
      var a :| a in xs;
      var fewer := (b: B) => columns(b) - f(a)(b);
      forall b | b in ys
        ensures fewer(b) == Sum(xs - {a}, Column(f, b))
      {
        SumTake(xs, Column(f, b), a);
      }
      SumTake(xs, rows, a);
      SumSwap(xs - {a}, ys, f, rows, fewer);
      SumLinear(ys, fewer, f(a), columns, 1);
    }
  }

  lemma RenameOneLess<A(!new), B(!new)>(xs: set<A>, ys: set<B>, to: map<A, B>, a: A)
    requires to.Keys == xs && to.Values == ys && a in xs
    requires forall x, y :: x in xs && y in xs && to[x] == to[y] ==> x == y
    ensures (map x | x in xs - {a} :: to[x]).Values == ys - {to[a]}
  {
    var to' := map x | x in xs - {a} :: to[x];
    forall b
      ensures b in to'.Values <==> b in ys - {to[a]}
    {
      if b in ys - {to[a]} {
        var x :| x in xs && to[x] == b;
        assert x in to' && to'[x] == b;
      }
      if b in to'.Values {
        var x :| x in to' && to'[x] == b;
        assert to[x] in to.Values;
      }
    }
  }

  /** A sum can be taken over the images of its keys. */
  lemma {:induction false} SumRename<A(!new), B(!new)>(xs: set<A>, f: A -> int, ys: set<B>, g: B -> int, to: map<A, B>)
    requires to.Keys == xs && to.Values == ys
    requires forall a, b :: a in xs && b in xs && to[a] == to[b] ==> a == b
    requires forall a :: a in xs ==> f(a) == g(to[a])
    ensures Sum(xs, f) == Sum(ys, g)
    decreases |xs|
  {
    if xs == {} {
      assert ys == {};
    } else {
      var a :| a in xs;
      var to' := map x | x in xs - {a} :: to[x];
      assert to[a] in ys;
      RenameOneLess(xs, ys, to, a);
      hide Sum;
      SumTake(xs, f, a);
      SumTake(ys, g, to[a]);
      SumRename(xs - {a}, f, ys - {to[a]}, g, to');
    }
  }

  /** A one-to-one correspondence of keys with equal terms. */
  lemma SumMatch<A(!new), B(!new)>(
    xs: set<A>, f: A -> int, ys: set<B>, g: B -> int, to: map<A, B>, back: map<B, A>)
    requires to.Keys == xs && back.Keys == ys
    requires forall a :: a in xs ==> to[a] in ys && back[to[a]] == a && f(a) == g(to[a])
    requires forall b :: b in ys ==> back[b] in xs && to[back[b]] == b
    ensures Sum(xs, f) == Sum(ys, g)
  {
    assert forall b :: b in ys ==> to[back[b]] in to.Values;
    SumRename(xs, f, ys, g, to);
  }

  // ----- Sums over sequences -----

  function SeqSum<T(!new)>(xs: seq<T>, f: T -> int): int {
    if xs == [] then 0 else SeqSum(xs[..|xs| - 1], f) + f(xs[|xs| - 1])
  }

  lemma SeqSumOneMore<T(!new)>(xs: seq<T>, f: T -> int, i: nat)
    requires i < |xs|
    ensures SeqSum(xs[..i + 1], f) == SeqSum(xs[..i], f) + f(xs[i])
  {
    assert xs[..i + 1][..i] == xs[..i];
  }

  lemma {:induction false} SeqSumWithout<T(!new)>(xs: seq<T>, f: T -> int, k: nat)
    requires k < |xs|
    ensures SeqSum(xs, f) == SeqSum(xs[..k] + xs[k + 1..], f) + f(xs[k])
    decreases |xs|
  {
    var n := |xs| - 1;
    if k < n {
      SeqSumWithout(xs[..n], f, k);
      assert (xs[..k] + xs[k + 1..])[..n - 1] == xs[..n][..k] + xs[..n][k + 1..];
    } else {
      assert xs[..k] + xs[k + 1..] == xs[..n];
    }
  }

  lemma MultisetWithout<T(!new)>(xs: seq<T>, k: nat)
    requires k < |xs|
    ensures multiset(xs[..k] + xs[k + 1..]) == multiset(xs) - multiset{xs[k]}
  {
    assert xs == xs[..k] + ([xs[k]] + xs[k + 1..]);
  }

  lemma FindInPermutation<T(!new)>(xs: seq<T>, ys: seq<T>) returns (k: nat)
    requires multiset(xs) == multiset(ys) && xs != []
    ensures k < |ys| && ys[k] == xs[0]
    ensures multiset(xs[..0] + xs[1..]) == multiset(ys[..k] + ys[k + 1..])
  {
    assert xs[0] in multiset(ys);
    k :| 0 <= k < |ys| && ys[k] == xs[0];
    MultisetWithout(xs, 0);
    MultisetWithout(ys, k);
  }

  lemma {:induction false} SeqSumPermutes<T(!new)>(xs: seq<T>, ys: seq<T>, f: T -> int)
    requires multiset(xs) == multiset(ys)
    ensures SeqSum(xs, f) == SeqSum(ys, f)
    decreases |xs|
  {
    if xs == [] {
      assert |multiset(ys)| == 0;
    } else {
      hide SeqSum;
      var k := FindInPermutation(xs, ys);
      SeqSumWithout(xs, f, 0);
      SeqSumWithout(ys, f, k);
      SeqSumPermutes(xs[..0] + xs[1..], ys[..k] + ys[k + 1..], f);
    }
  }

  /** `ks` lists the keys, each once. */
  ghost predicate Listed<K(!new)>(ks: seq<K>, keys: set<K>) {
    && (forall i, j :: 0 <= i < j < |ks| ==> ks[i] != ks[j])
    && (forall k :: k in ks <==> k in keys)
  }

  lemma ListedOneLess<K(!new)>(ks: seq<K>, keys: set<K>)
    requires Listed(ks, keys) && ks != []
    ensures var n := |ks| - 1; ks[n] in keys && Listed(ks[..n], keys - {ks[n]})
  {
    assert ks == ks[..|ks| - 1] + [ks[|ks| - 1]];
  }

  /** Summing along a listing is summing over the listed keys. */
  lemma {:induction false} ListedSum<K(!new), T(!new)>(
    ks: seq<K>, keys: set<K>, term: K -> int, xs: seq<T>, f: T -> int)
    requires Listed(ks, keys) && |ks| == |xs|
    requires forall i :: 0 <= i < |ks| ==> term(ks[i]) == f(xs[i])
    ensures SeqSum(xs, f) == Sum(keys, term)
    decreases |ks|
  {
    if ks == [] {
      assert keys == {};
    } else {
      var n := |ks| - 1;
      ListedOneLess(ks, keys);
      hide Listed;
      ListedSum(ks[..n], keys - {ks[n]}, term, xs[..n], f);
      SumTake(keys, term, ks[n]);
    }
  }
}
