/**
 External stores as maps, and writes to them as changes of one slot. A request that never
 reached the store keeps the slot as it was.
 */
module Slots {
  import opened Wrappers

  datatype Change<+V> = Keep | Put(v: V) | Drop

  datatype Write<+K, +V> = Write(key: K, change: Change<V>)

  function Lookup<K, V>(m: map<K, V>, k: K): Option<V> {
    if k in m then Some(m[k]) else None
  }

  function After<V>(was: Option<V>, c: Change<V>): Option<V> {
    match c
    case Keep => was
    case Put(v) => Some(v)
    case Drop => None
  }

  function Update<K(!new), V>(m: map<K, V>, k: K, c: Change<V>): (r: map<K, V>)
    ensures Lookup(r, k) == After(Lookup(m, k), c)
    ensures forall j :: j != k ==> Lookup(r, j) == Lookup(m, j)
  {
    match c
    case Keep => m
    case Put(v) => m[k := v]
    case Drop => m - {k}
  }

  function UpdateAll<K(!new), V>(m: map<K, V>, ws: seq<Write<K, V>>): map<K, V> {
    if ws == [] then m
    else
      var w := ws[|ws| - 1];
      Update(UpdateAll(m, ws[..|ws| - 1]), w.key, w.change)
  }

  lemma {:induction false} Concat<K(!new), V>(m: map<K, V>, ws: seq<Write<K, V>>, vs: seq<Write<K, V>>)
    ensures UpdateAll(m, ws + vs) == UpdateAll(UpdateAll(m, ws), vs)
  {
    if vs == [] {
      assert ws + vs == ws;
    } else {
      var n := |vs| - 1;
      assert (ws + vs)[..|ws + vs| - 1] == ws + vs[..n];
      Concat(m, ws, vs[..n]);
    }
  }

  /** A slot that no write changes stays as it was. */
  lemma {:induction false} Untouched<K(!new), V>(m: map<K, V>, ws: seq<Write<K, V>>, k: K)
    requires forall w :: w in ws && w.key == k ==> w.change.Keep?
    ensures Lookup(UpdateAll(m, ws), k) == Lookup(m, k)
  {
    if ws != [] {
      Untouched(m, ws[..|ws| - 1], k);
      assert ws[|ws| - 1] in ws;
    }
  }

  /** Writes that agree on a slot leave it as one of them alone would. */
  lemma {:induction false} Settled<K(!new), V>(m: map<K, V>, ws: seq<Write<K, V>>, k: K, c: Change<V>)
    requires forall w :: w in ws && w.key == k ==> w.change == c
    requires Write(k, c) in ws
    ensures Lookup(UpdateAll(m, ws), k) == After(Lookup(m, k), c)
  {
    var n := |ws| - 1;
    var last := ws[n];
    assert last in ws;
    if last.key != k {
      Settled(m, ws[..n], k, c);
    } else if Write(k, c) in ws[..n] {
      Settled(m, ws[..n], k, c);
    } else {
      Untouched(m, ws[..n], k);
    }
  }

  /** The last write to a slot that is not withheld decides what it holds. */
  lemma {:induction false} LastDecides<K(!new), V>(m: map<K, V>, ws: seq<Write<K, V>>, i: nat)
    requires i < |ws| && !ws[i].change.Keep?
    requires forall j :: i < j < |ws| && ws[j].key == ws[i].key ==> ws[j].change.Keep?
    ensures Lookup(UpdateAll(m, ws), ws[i].key) == After(None, ws[i].change)
  {
    if i < |ws| - 1 {
      LastDecides(m, ws[..|ws| - 1], i);
    }
  }

  lemma SameMaps<K(!new), V>(m: map<K, V>, n: map<K, V>)
    requires forall k :: Lookup(m, k) == Lookup(n, k)
    ensures m == n
  {
    forall k ensures k in m <==> k in n {
      assert Lookup(m, k) == Lookup(n, k);
    }
    forall k | k in m ensures m[k] == n[k] {
      assert Lookup(m, k) == Lookup(n, k);
    }
  }

  /** Writes that agree slot by slot can be applied in any order. */
  lemma AnyOrder<K(!new), V>(m: map<K, V>, ws: seq<Write<K, V>>, vs: seq<Write<K, V>>)
    requires forall w :: w in ws <==> w in vs
    requires forall w, v :: w in ws && v in ws && w.key == v.key ==> w == v
    ensures UpdateAll(m, ws) == UpdateAll(m, vs)
  {
    forall k ensures Lookup(UpdateAll(m, ws), k) == Lookup(UpdateAll(m, vs), k) {
      if w :| w in ws && w.key == k {
        assert w == Write(k, w.change);
        Settled(m, ws, k, w.change);
        Settled(m, vs, k, w.change);
      } else {
        Untouched(m, ws, k);
        Untouched(m, vs, k);
      }
    }
    SameMaps(UpdateAll(m, ws), UpdateAll(m, vs));
  }

  /** Dropping every slot that was written leaves the original without those slots. */
  lemma Erased<K(!new), V>(m: map<K, V>, ws: seq<Write<K, V>>, ds: seq<Write<K, V>>)
    requires forall d :: d in ds ==> d.change.Drop?
    requires forall w :: w in ws ==> Write(w.key, Drop) in ds
    ensures UpdateAll(UpdateAll(m, ws), ds) == m - (set d | d in ds :: d.key)
  {
    var r := UpdateAll(UpdateAll(m, ws), ds);
    forall k ensures Lookup(r, k) == Lookup(m - (set d | d in ds :: d.key), k) {
      if d :| d in ds && d.key == k {
        assert d == Write(k, Drop);
        Settled(UpdateAll(m, ws), ds, k, Drop);
      } else {
        Untouched(m, ws, k);
        Untouched(UpdateAll(m, ws), ds, k);
      }
    }
    SameMaps(r, m - (set d | d in ds :: d.key));
  }

  /******* Writes that stem from requests *******/

  function Mapped<A, K, V>(L: seq<A>, f: A -> Write<K, V>): (ws: seq<Write<K, V>>)
    ensures |ws| == |L|
    ensures forall i :: 0 <= i < |L| ==> ws[i] == f(L[i])
  {
    seq(|L|, i requires 0 <= i < |L| => f(L[i]))
  }

  lemma MappedMember<A, K, V>(L: seq<A>, f: A -> Write<K, V>, w: Write<K, V>) returns (a: A)
    requires w in Mapped(L, f)
    ensures a in L && f(a) == w
  {
    var i :| 0 <= i < |L| && Mapped(L, f)[i] == w;
    a := L[i];
  }

  lemma MemberMapped<A, K, V>(L: seq<A>, f: A -> Write<K, V>, a: A)
    requires a in L
    ensures f(a) in Mapped(L, f)
  {
    var i :| 0 <= i < |L| && L[i] == a;
    assert Mapped(L, f)[i] == f(a);
  }

  lemma MappedUntouched<A, K(!new), V>(m: map<K, V>, L: seq<A>, f: A -> Write<K, V>, k: K)
    requires forall a :: a in L && f(a).key == k ==> f(a).change.Keep?
    ensures Lookup(UpdateAll(m, Mapped(L, f)), k) == Lookup(m, k)
  {
    forall w | w in Mapped(L, f) && w.key == k ensures w.change.Keep? {
      var a := MappedMember(L, f, w);
    }
    Untouched(m, Mapped(L, f), k);
  }

  lemma MappedSettled<A, K(!new), V>(m: map<K, V>, L: seq<A>, f: A -> Write<K, V>, a: A)
    requires a in L
    requires forall b :: b in L && f(b).key == f(a).key ==> f(b) == f(a)
    ensures Lookup(UpdateAll(m, Mapped(L, f)), f(a).key) == After(Lookup(m, f(a).key), f(a).change)
  {
    forall w | w in Mapped(L, f) && w.key == f(a).key ensures w.change == f(a).change {
      var b := MappedMember(L, f, w);
    }
    MemberMapped(L, f, a);
    Settled(m, Mapped(L, f), f(a).key, f(a).change);
  }

  lemma MappedAnyOrder<A(!new), K(!new), V(!new)>(m: map<K, V>, L: seq<A>, M: seq<A>, f: A -> Write<K, V>)
    requires forall a :: a in L <==> a in M
    requires forall a, b :: a in L && b in L && f(a).key == f(b).key ==> f(a) == f(b)
    ensures UpdateAll(m, Mapped(L, f)) == UpdateAll(m, Mapped(M, f))
  {
    forall w ensures w in Mapped(L, f) <==> w in Mapped(M, f) {
      if w in Mapped(L, f) {
        var a := MappedMember(L, f, w);
        MemberMapped(M, f, a);
      }
      if w in Mapped(M, f) {
        var a := MappedMember(M, f, w);
        MemberMapped(L, f, a);
      }
    }
    forall w, v | w in Mapped(L, f) && v in Mapped(L, f) && w.key == v.key ensures w == v {
      var a := MappedMember(L, f, w);
      var b := MappedMember(L, f, v);
    }
    AnyOrder(m, Mapped(L, f), Mapped(M, f));
  }

  lemma MappedErased<A(!new), K(!new), V>(m: map<K, V>, L: seq<A>, D: seq<A>, f: A -> Write<K, V>)
    requires forall d :: d in D ==> f(d).change.Drop?
    requires forall a :: a in L ==> exists d :: d in D && f(d).key == f(a).key
    ensures UpdateAll(UpdateAll(m, Mapped(L, f)), Mapped(D, f)) == m - (set d | d in D :: f(d).key)
  {
    var ws, ds := Mapped(L, f), Mapped(D, f);
    forall x | x in ds ensures x.change.Drop? {
      var d := MappedMember(D, f, x);
    }
    forall x | x in ws ensures Write(x.key, Drop) in ds {
      var a := MappedMember(L, f, x);
      var d :| d in D && f(d).key == f(a).key;
      MemberMapped(D, f, d);
    }
    Erased(m, ws, ds);
    forall x | x in ds ensures x.key in (set d | d in D :: f(d).key) {
      var d := MappedMember(D, f, x);
    }
    forall d | d in D ensures f(d).key in (set x | x in ds :: x.key) {
      MemberMapped(D, f, d);
    }
    assert (set x | x in ds :: x.key) == (set d | d in D :: f(d).key);
  }
}
