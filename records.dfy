/**
 * JSON values and records as the modelled code sees them: a record is a Python
 * `dict` read from JSON, i.e. an ORDERED mapping from string keys to values.
 * It is modelled as an association list; `Put` is Python's `d[k] = v` (a key
 * that is already present keeps its position and gets the new value, a new key
 * goes to the end) and `PutAll` is `d.update(es)`.
 */
module Records {
  import opened Outcomes

  datatype Scalar = Str(s: string) | Int(i: int) | Bool(b: bool) | Null

  /** A JSON value: a scalar, an array (a Python list) or an object (a Python dict). */
  datatype Value = Atom(scalar: Scalar) | Arr(items: seq<Value>) | Obj(entries: seq<Entry>)

  datatype Entry = Entry(key: string, value: Value)

  type Record = seq<Entry>

  function Keys(r: Record): seq<string> {
    seq(|r|, i requires 0 <= i < |r| => r[i].key)
  }

  function Values(r: Record): seq<Value> {
    seq(|r|, i requires 0 <= i < |r| => r[i].value)
  }

  predicate Distinct(ks: seq<string>) {
    forall i, j :: 0 <= i < j < |ks| ==> ks[i] != ks[j]
  }

  /** `d.get(k)`: the value of the (first) entry with key `k`. */
  function Lookup(r: Record, k: string): Option<Value> {
    if r == [] then None
    else if r[0].key == k then Some(r[0].value)
    else Lookup(r[1..], k)
  }

  /** `d[k] = v` on a Python dict. */
  function Put(r: Record, k: string, v: Value): Record {
    if r == [] then [Entry(k, v)]
    else if r[0].key == k then [Entry(k, v)] + r[1..]
    else [r[0]] + Put(r[1..], k, v)
  }

  /** `acc.update(es)`: the entries of `es` assigned one after the other. */
  function PutAll(acc: Record, es: Record): Record {
    if es == [] then acc
    else Put(PutAll(acc, es[..|es| - 1]), es[|es| - 1].key, es[|es| - 1].value)
  }

  /** The value of the LAST entry of `es` with key `k`. */
  function LastLookup(es: Record, k: string): Option<Value> {
    if es == [] then None
    else if es[|es| - 1].key == k then Some(es[|es| - 1].value)
    else LastLookup(es[..|es| - 1], k)
  }

  function Override(later: Option<Value>, earlier: Option<Value>): Option<Value> {
    if later.Some? then later else earlier
  }

  /** `ks` followed by the elements of `xs` not seen before, in first-occurrence order. */
  function AddNew(ks: seq<string>, xs: seq<string>): seq<string> {
    if xs == [] then ks
    else
      var p := AddNew(ks, xs[..|xs| - 1]);
      if xs[|xs| - 1] in p then p else p + [xs[|xs| - 1]]
  }

  function Dedup(xs: seq<string>): seq<string> {
    AddNew([], xs)
  }

  // ---------------------------------------------------------------- lookups

  lemma {:induction false} LookupSome(r: Record, k: string)
    ensures Lookup(r, k).Some? <==> k in Keys(r)
  {
    if r != [] {
      LookupSome(r[1..], k);
      assert Keys(r) == [r[0].key] + Keys(r[1..]);
    }
  }

  lemma {:induction false} LookupAt(r: Record, i: int)
    requires Distinct(Keys(r)) && 0 <= i < |r|
    ensures Lookup(r, r[i].key) == Some(r[i].value)
  {
    if i > 0 {
      assert Keys(r[1..]) == Keys(r)[1..];
      assert Keys(r)[0] != Keys(r)[i];
      LookupAt(r[1..], i - 1);
    }
  }

  lemma {:induction false} LookupConcat(a: Record, b: Record, k: string)
    ensures Lookup(a + b, k) == Override(Lookup(a, k), Lookup(b, k))
  {
    if a != [] {
      assert (a + b)[1..] == a[1..] + b;
      LookupConcat(a[1..], b, k);
    } else {
      assert a + b == b;
    }
  }

  lemma {:induction false} LastLookupDistinct(es: Record, k: string)
    requires Distinct(Keys(es))
    ensures LastLookup(es, k) == Lookup(es, k)
  {
    if es != [] {
      var n := |es| - 1;
      var p := es[..n];
      assert Keys(p) == Keys(es)[..n];
      LastLookupDistinct(p, k);
      assert es == p + [es[n]];
      LookupConcat(p, [es[n]], k);
      if es[n].key == k {
        DistinctLast(Keys(es));
        LookupSome(p, k);
      }
    }
  }

  lemma DistinctLast(ks: seq<string>)
    requires Distinct(ks) && ks != []
    ensures ks[|ks| - 1] !in ks[..|ks| - 1]
  {
    var n := |ks| - 1;
    forall j | 0 <= j < n ensures ks[..n][j] != ks[n] { }
  }

  /** Two duplicate-free records with the same key order and the same lookups are equal. */
  lemma Ext(r1: Record, r2: Record)
    requires Distinct(Keys(r1)) && Keys(r1) == Keys(r2)
    requires forall k :: Lookup(r1, k) == Lookup(r2, k)
    ensures r1 == r2
  {
    assert |r1| == |Keys(r1)| == |Keys(r2)| == |r2|;
    forall i | 0 <= i < |r1| ensures r1[i] == r2[i] {
      assert Keys(r1)[i] == Keys(r2)[i];
      LookupAt(r1, i);
      LookupAt(r2, i);
    }
  }

  // ---------------------------------------------------------------- Put

  /** Assignment keeps an existing key in place and appends a new one. */
  lemma {:induction false} PutKeys(r: Record, k: string, v: Value)
    ensures Keys(Put(r, k, v)) == if k in Keys(r) then Keys(r) else Keys(r) + [k]
  {
    if r != [] {
      assert Keys(r) == [r[0].key] + Keys(r[1..]);
      if r[0].key == k {
        assert Keys(Put(r, k, v)) == [k] + Keys(r[1..]);
      } else {
        PutKeys(r[1..], k, v);
        assert Keys(Put(r, k, v)) == [r[0].key] + Keys(Put(r[1..], k, v));
      }
    }
  }

  /** After `d[k] = v`, `d[k]` is `v` and every other key reads as before. */
  lemma {:induction false} PutLookup(r: Record, k: string, v: Value, k': string)
    ensures Lookup(Put(r, k, v), k') == if k' == k then Some(v) else Lookup(r, k')
  {
    if r != [] && r[0].key != k {
      assert ([r[0]] + Put(r[1..], k, v))[1..] == Put(r[1..], k, v);
      PutLookup(r[1..], k, v, k');
    }
  }

  lemma {:induction false} PutNew(r: Record, k: string, v: Value)
    requires k !in Keys(r)
    ensures Put(r, k, v) == r + [Entry(k, v)]
  {
    if r != [] {
      assert Keys(r) == [r[0].key] + Keys(r[1..]);
      PutNew(r[1..], k, v);
      assert r == [r[0]] + r[1..];
    }
  }

  // ---------------------------------------------------------------- PutAll

  lemma {:induction false} PutAllLookup(acc: Record, es: Record, k: string)
    ensures Lookup(PutAll(acc, es), k) == Override(LastLookup(es, k), Lookup(acc, k))
  {
    if es != [] {
      var n := |es| - 1;
      PutAllLookup(acc, es[..n], k);
      PutLookup(PutAll(acc, es[..n]), es[n].key, es[n].value, k);
    }
  }

  lemma {:induction false} PutAllKeys(acc: Record, es: Record)
    ensures Keys(PutAll(acc, es)) == AddNew(Keys(acc), Keys(es))
  {
    if es != [] {
      var n := |es| - 1;
      PutAllKeys(acc, es[..n]);
      PutKeys(PutAll(acc, es[..n]), es[n].key, es[n].value);
      assert Keys(es)[..n] == Keys(es[..n]);
    }
  }

  lemma PutAllDistinct(acc: Record, es: Record)
    requires Distinct(Keys(acc))
    ensures Distinct(Keys(PutAll(acc, es)))
  {
    PutAllKeys(acc, es);
    AddNewDistinct(Keys(acc), Keys(es));
  }

  lemma {:induction false} PutAllConcat(acc: Record, xs: Record, ys: Record)
    ensures PutAll(acc, xs + ys) == PutAll(PutAll(acc, xs), ys)
  {
    if ys == [] {
      assert xs + ys == xs;
    } else {
      var n := |ys| - 1;
      PutAllConcat(acc, xs, ys[..n]);
      assert (xs + ys)[..|xs + ys| - 1] == xs + ys[..n];
    }
  }

  /** Entries whose keys are all new are simply appended. */
  lemma {:induction false} PutAllFresh(acc: Record, es: Record)
    requires Distinct(Keys(acc) + Keys(es))
    ensures PutAll(acc, es) == acc + es
  {
    if es != [] {
      var n := |es| - 1;
      assert Keys(acc) + Keys(es[..n]) == (Keys(acc) + Keys(es))[..|acc| + n];
      PutAllFresh(acc, es[..n]);
      assert Keys(acc + es[..n]) == Keys(acc) + Keys(es[..n]);
      assert Keys(acc + es[..n]) == (Keys(acc) + Keys(es))[..|acc| + n];
      DistinctLast(Keys(acc) + Keys(es));
      PutNew(acc + es[..n], es[n].key, es[n].value);
      assert es == es[..n] + [es[n]];
    }
  }

  /** Updating with the dict built from `es` is the same as updating with `es` itself. */
  lemma PutAllCollapse(acc: Record, es: Record)
    requires Distinct(Keys(acc))
    ensures PutAll(acc, PutAll([], es)) == PutAll(acc, es)
  {
    var d := PutAll([], es);
    PutAllKeys([], es);
    assert Keys([]) == [];
    AddNewDistinct([], Keys(es));
    PutAllKeys(acc, d);
    PutAllKeys(acc, es);
    AddNewDedup(Keys(acc), Keys(es));
    PutAllDistinct(acc, d);
    forall k ensures Lookup(PutAll(acc, d), k) == Lookup(PutAll(acc, es), k) {
      PutAllLookup(acc, d, k);
      PutAllLookup(acc, es, k);
      PutAllLookup([], es, k);
      LastLookupDistinct(d, k);
    }
    Ext(PutAll(acc, d), PutAll(acc, es));
  }

  // ---------------------------------------------------------------- AddNew

  lemma {:induction false} AddNewMembers(ks: seq<string>, xs: seq<string>, x: string)
    ensures x in AddNew(ks, xs) <==> x in ks || x in xs
  {
    if xs != [] {
      var n := |xs| - 1;
      AddNewMembers(ks, xs[..n], x);
      assert xs == xs[..n] + [xs[n]];
    }
  }

  lemma {:induction false} AddNewDistinct(ks: seq<string>, xs: seq<string>)
    requires Distinct(ks)
    ensures Distinct(AddNew(ks, xs))
  {
    if xs != [] {
      AddNewDistinct(ks, xs[..|xs| - 1]);
    }
  }

  lemma {:induction false} AddNewAppend(ks: seq<string>, xs: seq<string>, ys: seq<string>)
    ensures AddNew(AddNew(ks, xs), ys) == AddNew(ks, xs + ys)
  {
    if ys == [] {
      assert xs + ys == xs;
    } else {
      var n := |ys| - 1;
      AddNewAppend(ks, xs, ys[..n]);
      assert (xs + ys)[..|xs + ys| - 1] == xs + ys[..n];
    }
  }

  lemma {:induction false} AddNewFresh(ks: seq<string>, xs: seq<string>)
    requires Distinct(ks + xs)
    ensures AddNew(ks, xs) == ks + xs
  {
    if xs != [] {
      var n := |xs| - 1;
      assert ks + xs[..n] == (ks + xs)[..|ks| + n];
      AddNewFresh(ks, xs[..n]);
      DistinctLast(ks + xs);
      assert ks + xs == (ks + xs[..n]) + [xs[n]];
    }
  }

  lemma {:induction false} AddNewDedup(ks: seq<string>, xs: seq<string>)
    ensures AddNew(ks, Dedup(xs)) == AddNew(ks, xs)
  {
    if xs != [] {
      var n := |xs| - 1;
      var x := xs[n];
      AddNewDedup(ks, xs[..n]);
      AddNewMembers([], xs[..n], x);
      AddNewMembers(ks, xs[..n], x);
      var d := Dedup(xs[..n]);
      if x !in d {
        assert (d + [x])[..|d + [x]| - 1] == d;
      }
    }
  }
}
