/** Ordered lists looked up by a key, and the add/replace/remove deltas that edit them. */
module KeyedLists {

  datatype Option<+T> = None | Some(value: T)

  /** Position of the first element with key `k`, or -1. */
  function IndexOf<T, K(==)>(key: T -> K, xs: seq<T>, k: K): (i: int)
    ensures -1 <= i < |xs|
    ensures i >= 0 ==> key(xs[i]) == k
    ensures forall j :: 0 <= j < (if i < 0 then |xs| else i) ==> key(xs[j]) != k
  {
    if |xs| == 0 then -1
    else if key(xs[0]) == k then 0
    else
      var i := IndexOf(key, xs[1..], k);
      if i < 0 then -1 else i + 1
  }

  /** The first element with key `k`. */
  function Find<T, K(==)>(key: T -> K, xs: seq<T>, k: K): (r: Option<T>)
    ensures r.Some? ==> r.value in xs && key(r.value) == k
    ensures r.None? <==> forall x :: x in xs ==> key(x) != k
  {
    var i := IndexOf(key, xs, k);
    if i < 0 then None else Some(xs[i])
  }

  /** The elements whose key is outside `ks`, in order. */
  function Without<T(!new), K(==)>(key: T -> K, xs: seq<T>, ks: set<K>): (r: seq<T>)
    ensures forall x :: x in r <==> x in xs && key(x) !in ks
    ensures |r| <= |xs|
    ensures |r| == |xs| ==> r == xs
  {
    if |xs| == 0 then []
    else
      var rest := Without(key, xs[1..], ks);
      if key(xs[0]) in ks then rest else [xs[0]] + rest
  }

  /** The elements whose key is in `ks`, in order. */
  function Within<T(!new), K(==)>(key: T -> K, xs: seq<T>, ks: set<K>): (r: seq<T>)
    ensures forall x :: x in r <==> x in xs && key(x) in ks
  {
    if |xs| == 0 then []
    else
      var rest := Within(key, xs[1..], ks);
      if key(xs[0]) in ks then [xs[0]] + rest else rest
  }

  ghost predicate Unique<T, K>(key: T -> K, xs: seq<T>) {
    forall i, j :: 0 <= i < j < |xs| ==> key(xs[i]) != key(xs[j])
  }

  /** One edit of a keyed list. */
  datatype Delta<+T> = Added(x: T) | Updated(x: T) | Removed(x: T)

  function Apply<T(!new), K(==)>(key: T -> K, d: Delta<T>, xs: seq<T>): seq<T> {
    match d
    case Added(x) => xs + [x]
    case Updated(x) =>
      var i := IndexOf(key, xs, key(x));
      if i < 0 then xs else xs[i := x]
    case Removed(x) => Without(key, xs, {key(x)})
  }

  function Fold<T(!new), K(==)>(key: T -> K, ds: seq<Delta<T>>, xs: seq<T>): seq<T> {
    if |ds| == 0 then xs else Fold(key, ds[1..], Apply(key, ds[0], xs))
  }

  lemma {:induction false} IndexOfIs<T, K>(key: T -> K, xs: seq<T>, k: K, i: int)
    requires 0 <= i < |xs| && key(xs[i]) == k
    requires forall j :: 0 <= j < i ==> key(xs[j]) != k
    ensures IndexOf(key, xs, k) == i
  {
  }

  lemma UniqueMember<T, K>(key: T -> K, xs: seq<T>, x: T, y: T)
    requires Unique(key, xs) && x in xs && y in xs && key(x) == key(y)
    ensures x == y
  {
    var i :| 0 <= i < |xs| && xs[i] == x;
    var j :| 0 <= j < |xs| && xs[j] == y;
    assert !(i < j) && !(j < i);
  }

  /** In a list with distinct keys, membership is lookup. */
  lemma FindMember<T, K>(key: T -> K, xs: seq<T>, x: T)
    requires Unique(key, xs) && x in xs
    ensures Find(key, xs, key(x)) == Some(x)
  {
    assert Find(key, xs, key(x)).Some?;
    UniqueMember(key, xs, x, Find(key, xs, key(x)).value);
  }

  lemma {:induction false} WithoutUnique<T(!new), K, L>(key: T -> K, id: T -> L, xs: seq<T>, ks: set<K>)
    requires Unique(id, xs)
    ensures Unique(id, Without(key, xs, ks))
  {
    if |xs| > 0 {
      assert Unique(id, xs[1..]) by {
        forall i, j | 0 <= i < j < |xs[1..]| ensures id(xs[1..][i]) != id(xs[1..][j]) {
          assert id(xs[i + 1]) != id(xs[j + 1]);
        }
      }
      WithoutUnique(key, id, xs[1..], ks);
      var rest := Without(key, xs[1..], ks);
      if key(xs[0]) !in ks {
        forall j | 0 <= j < |rest| ensures id(xs[0]) != id(rest[j]) {
          assert rest[j] in xs[1..];
          var m :| 0 <= m < |xs[1..]| && xs[1..][m] == rest[j];
          assert id(xs[0]) != id(xs[m + 1]);
        }
      }
    }
  }

  lemma {:induction false} WithinUnique<T(!new), K, L>(key: T -> K, id: T -> L, xs: seq<T>, ks: set<K>)
    requires Unique(id, xs)
    ensures Unique(id, Within(key, xs, ks))
  {
    if |xs| > 0 {
      assert Unique(id, xs[1..]) by {
        forall i, j | 0 <= i < j < |xs[1..]| ensures id(xs[1..][i]) != id(xs[1..][j]) {
          assert id(xs[i + 1]) != id(xs[j + 1]);
        }
      }
      WithinUnique(key, id, xs[1..], ks);
      var rest := Within(key, xs[1..], ks);
      if key(xs[0]) in ks {
        forall j | 0 <= j < |rest| ensures id(xs[0]) != id(rest[j]) {
          assert rest[j] in xs[1..];
          var m :| 0 <= m < |xs[1..]| && xs[1..][m] == rest[j];
          assert id(xs[0]) != id(xs[m + 1]);
        }
      }
    }
  }

  /** Two ways of naming the same elements drop the same elements. */
  lemma {:induction false} WithoutSame<T(!new), K, L>(key: T -> K, ks: set<K>, id: T -> L, ls: set<L>, xs: seq<T>)
    requires forall x :: x in xs ==> (key(x) in ks <==> id(x) in ls)
    ensures Without(key, xs, ks) == Without(id, xs, ls)
  {
    if |xs| > 0 {
      assert xs[0] in xs;
      assert forall x :: x in xs[1..] ==> x in xs;
      WithoutSame(key, ks, id, ls, xs[1..]);
    }
  }

  lemma {:induction false} WithoutTwice<T(!new), K>(key: T -> K, xs: seq<T>, ks: set<K>, ls: set<K>)
    ensures Without(key, Without(key, xs, ks), ls) == Without(key, xs, ks + ls)
  {
    if |xs| > 0 {
      WithoutTwice(key, xs[1..], ks, ls);
    }
  }

  lemma {:induction false} WithoutNone<T(!new), K>(key: T -> K, xs: seq<T>, ks: set<K>)
    requires forall x :: x in xs ==> key(x) !in ks
    ensures Without(key, xs, ks) == xs
  {
    if |xs| > 0 {
      assert xs[0] in xs;
      assert forall x :: x in xs[1..] ==> x in xs;
      WithoutNone(key, xs[1..], ks);
      assert xs == [xs[0]] + xs[1..];
    }
  }

  lemma {:induction false} FindWithout<T(!new), K>(key: T -> K, xs: seq<T>, ks: set<K>, k: K)
    ensures Find(key, Without(key, xs, ks), k) == if k in ks then None else Find(key, xs, k)
  {
    if |xs| > 0 && k !in ks {
      var rest := Without(key, xs[1..], ks);
      FindWithout(key, xs[1..], ks, k);
      FindCons(key, xs[0], xs[1..], k);
      assert xs == [xs[0]] + xs[1..];
      if key(xs[0]) !in ks {
        FindCons(key, xs[0], rest, k);
      }
    }
  }

  lemma FindCons<T, K>(key: T -> K, x: T, xs: seq<T>, k: K)
    ensures Find(key, [x] + xs, k) == if key(x) == k then Some(x) else Find(key, xs, k)
  {
    assert ([x] + xs)[1..] == xs;
  }

  lemma {:induction false} IndexOfAppend<T, K>(key: T -> K, xs: seq<T>, x: T, k: K)
    ensures IndexOf(key, xs + [x], k) ==
            if IndexOf(key, xs, k) >= 0 then IndexOf(key, xs, k)
            else if key(x) == k then |xs| else -1
  {
    var i := IndexOf(key, xs, k);
    if i >= 0 {
      IndexOfIs(key, xs + [x], k, i);
    } else if key(x) == k {
      IndexOfIs(key, xs + [x], k, |xs|);
    } else {
      assert forall j :: 0 <= j < |xs + [x]| ==> key((xs + [x])[j]) != k;
    }
  }

  /** What a lookup sees after one edit. */
  lemma FindApply<T(!new), K>(key: T -> K, d: Delta<T>, xs: seq<T>, k: K)
    ensures Find(key, Apply(key, d, xs), k) ==
            match d
            case Added(x) =>
              if Find(key, xs, k).Some? || key(x) != k then Find(key, xs, k) else Some(x)
            case Updated(x) =>
              if Find(key, xs, k).Some? && key(x) == k then Some(x) else Find(key, xs, k)
            case Removed(x) => if key(x) == k then None else Find(key, xs, k)
  {
    match d
    case Added(x) => IndexOfAppend(key, xs, x, k);
    case Updated(x) =>
      var i := IndexOf(key, xs, key(x));
      if i >= 0 {
        var ys := xs[i := x];
        var j := IndexOf(key, xs, k);
        if j >= 0 {
          IndexOfIs(key, ys, k, j);
        } else {
          assert forall m :: 0 <= m < |ys| ==> key(ys[m]) == key(xs[m]);
        }
      }
    case Removed(x) => FindWithout(key, xs, {key(x)}, k);
  }

  lemma {:induction false} FoldAppend<T(!new), K>(key: T -> K, ds: seq<Delta<T>>, es: seq<Delta<T>>, xs: seq<T>)
    ensures Fold(key, ds + es, xs) == Fold(key, es, Fold(key, ds, xs))
  {
    if |ds| == 0 {
      assert ds + es == es;
    } else {
      assert (ds + es)[1..] == ds[1..] + es;
      FoldAppend(key, ds[1..], es, Apply(key, ds[0], xs));
    }
  }

  function Removals<T>(xs: seq<T>): seq<Delta<T>> {
    seq(|xs|, i requires 0 <= i < |xs| => Removed(xs[i]))
  }

  function Updates<T>(xs: seq<T>): seq<Delta<T>> {
    seq(|xs|, i requires 0 <= i < |xs| => Updated(xs[i]))
  }

  lemma {:induction false} FoldRemovalsIs<T(!new), K>(key: T -> K, rs: seq<T>, xs: seq<T>)
    ensures Fold(key, Removals(rs), xs) == Without(key, xs, set r | r in rs :: key(r))
  {
    if |rs| == 0 {
      WithoutNone(key, xs, {});
      assert (set r | r in rs :: key(r)) == {};
    } else {
      assert Removals(rs)[1..] == Removals(rs[1..]);
      FoldRemovalsIs(key, rs[1..], Without(key, xs, {key(rs[0])}));
      WithoutTwice(key, xs, {key(rs[0])}, set r | r in rs[1..] :: key(r));
      assert (set r | r in rs :: key(r)) == {key(rs[0])} + (set r | r in rs[1..] :: key(r));
    }
  }

  /** Reporting every selected element as removed removes exactly the selected elements. */
  lemma FoldRemovals<T(!new), K, L>(key: T -> K, id: T -> L, xs: seq<T>, ls: set<L>)
    requires Unique(key, xs)
    ensures Fold(key, Removals(Within(id, xs, ls)), xs) == Without(id, xs, ls)
  {
    var rs := Within(id, xs, ls);
    FoldRemovalsIs(key, rs, xs);
    forall x | x in xs
      ensures key(x) in (set r | r in rs :: key(r)) <==> id(x) in ls
    {
      if key(x) in (set r | r in rs :: key(r)) {
        var r :| r in rs && key(r) == key(x);
        UniqueMember(key, xs, r, x);
      }
    }
    WithoutSame(key, set r | r in rs :: key(r), id, ls, xs);
  }

  /** Reporting distinct replacements rewrites exactly the elements they name, in place. */
  lemma {:induction false} FoldUpdates<T(!new), K>(key: T -> K, us: seq<T>, xs: seq<T>)
    requires Unique(key, us) && Unique(key, xs)
    ensures var ys := Fold(key, Updates(us), xs);
            |ys| == |xs| &&
            forall i :: 0 <= i < |xs| ==>
              ys[i] == (match Find(key, us, key(xs[i])) case Some(u) => u case None => xs[i])
  {
    if |us| > 0 {
      assert Updates(us)[1..] == Updates(us[1..]);
      var i := IndexOf(key, xs, key(us[0]));
      var zs := Apply(key, Updated(us[0]), xs);
      assert Unique(key, us[1..]) by {
        forall a, b | 0 <= a < b < |us[1..]| ensures key(us[1..][a]) != key(us[1..][b]) {
          assert key(us[a + 1]) != key(us[b + 1]);
        }
      }
      assert forall j :: 0 <= j < |xs| ==> key(zs[j]) == key(xs[j]);
      FoldUpdates(key, us[1..], zs);
      var ys := Fold(key, Updates(us), xs);
      forall j | 0 <= j < |xs|
        ensures ys[j] == (match Find(key, us, key(xs[j])) case Some(u) => u case None => xs[j])
      {
        if key(xs[j]) == key(us[0]) {
          IndexOfIs(key, us, key(us[0]), 0);
          assert i == j;
          assert Find(key, us[1..], key(us[0])).None? by {
            assert forall m :: 0 <= m < |us[1..]| ==> us[1..][m] == us[m + 1];
          }
        } else {
          assert zs[j] == xs[j];
        }
      }
    }
  }

  /** Additions are of absent keys and updates of present ones, at the moment they apply. */
  ghost predicate Sensible<T(!new), K>(key: T -> K, ds: seq<Delta<T>>, xs: seq<T>) {
    |ds| > 0 ==>
      && (ds[0].Added? ==> Find(key, xs, key(ds[0].x)).None?)
      && (ds[0].Updated? ==> Find(key, xs, key(ds[0].x)).Some?)
      && Sensible(key, ds[1..], Apply(key, ds[0], xs))
  }

  lemma SensibleCons<T(!new), K>(key: T -> K, d: Delta<T>, ds: seq<Delta<T>>, xs: seq<T>)
    requires d.Added? ==> Find(key, xs, key(d.x)).None?
    requires d.Updated? ==> Find(key, xs, key(d.x)).Some?
    requires Sensible(key, ds, Apply(key, d, xs))
    ensures Sensible(key, [d] + ds, xs)
  {
    assert ([d] + ds)[1..] == ds;
  }

  lemma {:induction false} RemovalsSensible<T(!new), K>(key: T -> K, rs: seq<T>, xs: seq<T>)
    ensures Sensible(key, Removals(rs), xs)
  {
    if |rs| > 0 {
      assert Removals(rs)[1..] == Removals(rs[1..]);
      RemovalsSensible(key, rs[1..], Apply(key, Removed(rs[0]), xs));
    }
  }

  lemma {:induction false} UpdatesSensible<T(!new), K>(key: T -> K, us: seq<T>, xs: seq<T>)
    requires forall u :: u in us ==> Find(key, xs, key(u)).Some?
    ensures Sensible(key, Updates(us), xs)
  {
    if |us| > 0 {
      assert us[0] in us;
      assert Updates(us)[1..] == Updates(us[1..]);
      forall u | u in us[1..] ensures Find(key, Apply(key, Updated(us[0]), xs), key(u)).Some? {
        assert u in us;
        FindApply(key, Updated(us[0]), xs, key(u));
      }
      UpdatesSensible(key, us[1..], Apply(key, Updated(us[0]), xs));
    }
  }
}
