/** Plain JavaScript objects used as dictionaries (headers, query parameters): their own
    properties in `Object.keys` order, and the object spread `{ ...a, ...b }` that the
    client uses to layer call-site values over instance values. */
module Records {
  import opened Nullish

  /** An object's own properties, in iteration order. */
  type Entries<V> = seq<(string, V)>

  function KeysOf<V>(e: Entries<V>): seq<string>
  {
    if e == [] then [] else [e[0].0] + KeysOf(e[1..])
  }

  /** An object never has two properties with the same name. */
  predicate UniqueKeys<V>(e: Entries<V>)
  {
    forall i, j :: 0 <= i < j < |e| ==> e[i].0 != e[j].0
  }

  /** `obj[k]`, or `None` when `obj` has no property `k`. */
  function Lookup<V>(e: Entries<V>, k: string): Option<V>
  {
    if e == [] then None else if e[0].0 == k then Some(e[0].1) else Lookup(e[1..], k)
  }

  /** `obj[k] = v`: an existing property keeps its place, a new one goes last. */
  function Put<V>(e: Entries<V>, k: string, v: V): Entries<V>
  {
    if e == [] then [(k, v)]
    else if e[0].0 == k then [(k, v)] + e[1..]
    else [e[0]] + Put(e[1..], k, v)
  }

  /** The keys of `ks` that are neither in `known` nor earlier in `ks`, in `ks`'s order. */
  function NewKeys(ks: seq<string>, known: seq<string>): seq<string>
  {
    if ks == [] then []
    else if ks[0] in known then NewKeys(ks[1..], known)
    else [ks[0]] + NewKeys(ks[1..], known + [ks[0]])
  }

  /** Copies the properties of `src`, in order, onto `dst`. */
  function Assign<V>(dst: Entries<V>, src: Entries<V>): Entries<V>
    decreases |src|
  {
    if src == [] then dst else Assign(Put(dst, src[0].0, src[0].1), src[1..])
  }

  /** The object literal `{ ...a, ...b }`. */
  function Merge<V>(a: Entries<V>, b: Entries<V>): Entries<V>
  {
    Assign(Assign([], a), b)
  }

  lemma {:induction false} KeysOfSpec<V>(e: Entries<V>, k: string)
    ensures |KeysOf(e)| == |e|
    ensures forall i :: 0 <= i < |e| ==> KeysOf(e)[i] == e[i].0
    ensures k in KeysOf(e) <==> exists i :: 0 <= i < |e| && e[i].0 == k
  {
    if e != [] {
      KeysOfSpec(e[1..], k);
      if k in KeysOf(e) && k != e[0].0 {
        var i :| 0 <= i < |e[1..]| && e[1..][i].0 == k;
        assert e[i + 1].0 == k;
      }
    }
  }

  /** The tail of an object with distinct keys has distinct keys, none of them the head's. */
  lemma TailUnique<V>(e: Entries<V>)
    requires e != [] && UniqueKeys(e)
    ensures UniqueKeys(e[1..])
    ensures e[0].0 !in KeysOf(e[1..])
  {
    forall i, j | 0 <= i < j < |e[1..]| ensures e[1..][i].0 != e[1..][j].0 {
      assert e[1..][i] == e[i + 1] && e[1..][j] == e[j + 1];
    }
    forall i | 0 <= i < |e[1..]| ensures e[1..][i].0 != e[0].0 {
      assert e[1..][i] == e[i + 1];
    }
    KeysOfSpec(e[1..], e[0].0);
  }

  lemma {:induction false} LookupSpec<V>(e: Entries<V>, k: string)
    ensures Lookup(e, k).Some? <==> k in KeysOf(e)
    ensures Lookup(e, k).Some? ==> (k, Lookup(e, k).value) in e
    ensures UniqueKeys(e) ==> forall i :: 0 <= i < |e| && e[i].0 == k ==> Lookup(e, k) == Some(e[i].1)
  {
    if e != [] {
      LookupSpec(e[1..], k);
      if UniqueKeys(e) {
        TailUnique(e);
        forall i | 0 <= i < |e| && e[i].0 == k ensures Lookup(e, k) == Some(e[i].1) {
          if i > 0 {
            assert e[1..][i - 1] == e[i];
          }
        }
      }
    }
  }

  lemma {:induction false} PutShape<V>(e: Entries<V>, k: string, v: V)
    ensures |Put(e, k, v)| == if k in KeysOf(e) then |e| else |e| + 1
    ensures forall i :: 0 <= i < |e| ==> Put(e, k, v)[i].0 == e[i].0
    ensures k !in KeysOf(e) ==> Put(e, k, v) == e + [(k, v)]
    ensures KeysOf(Put(e, k, v)) == if k in KeysOf(e) then KeysOf(e) else KeysOf(e) + [k]
  {
    if e != [] {
      PutShape(e[1..], k, v);
      if e[0].0 != k {
        assert Put(e, k, v) == [e[0]] + Put(e[1..], k, v);
        assert KeysOf(Put(e, k, v)) == [e[0].0] + KeysOf(Put(e[1..], k, v));
      }
    }
  }

  lemma {:induction false} PutContents<V>(e: Entries<V>, k: string, v: V)
    ensures forall k' :: Lookup(Put(e, k, v), k') == if k' == k then Some(v) else Lookup(e, k')
    ensures forall x :: x in Put(e, k, v) ==> x in e || x == (k, v)
  {
    if e != [] {
      PutContents(e[1..], k, v);
    }
  }

  lemma {:induction false} PutUnique<V>(e: Entries<V>, k: string, v: V)
    requires UniqueKeys(e)
    ensures UniqueKeys(Put(e, k, v))
  {
    var p := Put(e, k, v);
    PutShape(e, k, v);
    if e != [] && e[0].0 == k {
      forall i, j | 0 <= i < j < |p| ensures p[i].0 != p[j].0 {
        assert p[i].0 == e[i].0 && p[j].0 == e[j].0;
      }
    } else if e != [] {
      var t := Put(e[1..], k, v);
      assert p == [e[0]] + t;
      TailUnique(e);
      PutUnique(e[1..], k, v);
      PutShape(e[1..], k, v);
      KeysOfSpec(t, e[0].0);
      assert e[0].0 !in KeysOf(t);
      forall i, j | 0 <= i < j < |p| ensures p[i].0 != p[j].0 {
        assert p[j] == t[j - 1];
        if i > 0 {
          assert p[i] == t[i - 1];
        }
      }
    }
  }

  /** Onto an object without their keys, copying distinct properties appends them in order. */
  lemma {:induction false} AssignFresh<V>(dst: Entries<V>, src: Entries<V>)
    requires UniqueKeys(dst + src)
    ensures Assign(dst, src) == dst + src
    decreases |src|
  {
    if src != [] {
      var s0 := src[0];
      forall i | 0 <= i < |dst| ensures dst[i].0 != s0.0 {
        assert (dst + src)[i] == dst[i] && (dst + src)[|dst|] == s0;
      }
      KeysOfSpec(dst, s0.0);
      PutShape(dst, s0.0, s0.1);
      assert dst + [s0] + src[1..] == dst + src;
      AssignFresh(dst + [s0], src[1..]);
    }
  }

  lemma {:induction false} AssignSpec<V>(dst: Entries<V>, src: Entries<V>)
    requires UniqueKeys(src)
    ensures forall k :: Lookup(Assign(dst, src), k) == Coalesce(Lookup(src, k), Lookup(dst, k))
    ensures |Assign(dst, src)| >= |dst|
    ensures forall i :: 0 <= i < |dst| ==> Assign(dst, src)[i].0 == dst[i].0
    ensures forall x :: x in Assign(dst, src) ==> x in dst || x in src
    ensures UniqueKeys(dst) ==> UniqueKeys(Assign(dst, src))
    decreases |src|
  {
    if src != [] {
      var s0 := src[0];
      var rest := src[1..];
      var d' := Put(dst, s0.0, s0.1);
      PutShape(dst, s0.0, s0.1);
      PutContents(dst, s0.0, s0.1);
      if UniqueKeys(dst) {
        PutUnique(dst, s0.0, s0.1);
      }
      TailUnique(src);
      AssignSpec(d', rest);
      LookupSpec(rest, s0.0);
      forall x | x in Assign(dst, src) ensures x in dst || x in src {
        if x in rest {
          var i :| 0 <= i < |rest| && rest[i] == x;
          assert src[i + 1] == x;
        }
      }
    }
  }

  /** Copying keeps `dst`'s keys in place and appends the keys `src` adds, in `src`'s order. */
  lemma {:induction false} AssignKeys<V>(dst: Entries<V>, src: Entries<V>)
    ensures KeysOf(Assign(dst, src)) == KeysOf(dst) + NewKeys(KeysOf(src), KeysOf(dst))
    decreases |src|
  {
    if src == [] {
      assert KeysOf(src) == [];
      assert KeysOf(dst) + [] == KeysOf(dst);
    } else {
      var k := src[0].0;
      var d' := Put(dst, k, src[0].1);
      var ks := KeysOf(src[1..]);
      assert Assign(dst, src) == Assign(d', src[1..]);
      AssignKeys(d', src[1..]);
      PutShape(dst, k, src[0].1);
      assert KeysOf(src) == [k] + ks;
      NewKeysCons(k, ks, KeysOf(dst));
    }
  }

  lemma NewKeysCons(k: string, ks: seq<string>, known: seq<string>)
    ensures k in known ==> known + NewKeys([k] + ks, known) == known + NewKeys(ks, known)
    ensures k !in known ==> known + NewKeys([k] + ks, known) == (known + [k]) + NewKeys(ks, known + [k])
  {
    assert ([k] + ks)[0] == k && ([k] + ks)[1..] == ks;
  }

  /** What `{ ...a, ...b }` holds: every key of either object, the call-site value
      (`b`'s) where both have one, `a`'s keys first, in `a`'s order, then the keys only
      `b` has, in `b`'s order. */
  lemma MergeSpec<V>(a: Entries<V>, b: Entries<V>)
    requires UniqueKeys(a) && UniqueKeys(b)
    ensures Merge(a, b) == Assign(a, b)
    ensures UniqueKeys(Merge(a, b))
    ensures forall k :: Lookup(Merge(a, b), k) == Coalesce(Lookup(b, k), Lookup(a, k))
    ensures forall k :: k in KeysOf(Merge(a, b)) <==> k in KeysOf(a) || k in KeysOf(b)
    ensures |Merge(a, b)| >= |a| && forall i :: 0 <= i < |a| ==> Merge(a, b)[i].0 == a[i].0
    ensures KeysOf(Merge(a, b)) == KeysOf(a) + NewKeys(KeysOf(b), KeysOf(a))
    ensures forall x :: x in Merge(a, b) ==> x in a || x in b
  {
    assert [] + a == a;
    AssignFresh([], a);
    AssignSpec(a, b);
    AssignKeys(a, b);
    forall k ensures k in KeysOf(Merge(a, b)) <==> k in KeysOf(a) || k in KeysOf(b) {
      LookupSpec(Merge(a, b), k);
      LookupSpec(a, k);
      LookupSpec(b, k);
    }
  }
}
