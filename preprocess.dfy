/**
 * Filtering, merging and flattening of metric records before they are handed
 * to an output writer (src/repo_metrics/output/preprocess.py).
 */
module Preprocess {
  import opened Outcomes
  import opened Records

  // ================================================================ filter

  /**
   * `filter(data, fields)`: an absent or empty field list passes the record
   * through; otherwise the record is cut down to the listed fields.
   */
  function Filter(data: Record, fields: Option<seq<string>>): (r: Record)
    ensures fields == None || fields == Some([]) ==> r == data
  {
    if fields.None? || fields.value == [] then data else Select(data, fields.value)
  }

  /** The dict comprehension `{field: data[field] for field in fields if field in data}`. */
  function Select(data: Record, fields: seq<string>): Record {
    if fields == [] then []
    else
      var acc := Select(data, fields[..|fields| - 1]);
      var f := fields[|fields| - 1];
      match Lookup(data, f)
      case Some(v) => Put(acc, f, v)
      case None => acc
  }

  /** The listed fields that `data` has, in list order (repeats kept). */
  function Present(data: Record, fields: seq<string>): seq<string> {
    if fields == [] then []
    else
      var f := fields[|fields| - 1];
      Present(data, fields[..|fields| - 1]) + (if f in Keys(data) then [f] else [])
  }

  lemma {:induction false} SelectLookup(data: Record, fields: seq<string>, k: string)
    ensures Lookup(Select(data, fields), k) == if k in fields then Lookup(data, k) else None
  {
    if fields != [] {
      var n := |fields| - 1;
      SelectLookup(data, fields[..n], k);
      assert fields == fields[..n] + [fields[n]];
      if Lookup(data, fields[n]).Some? {
        PutLookup(Select(data, fields[..n]), fields[n], Lookup(data, fields[n]).value, k);
      }
    }
  }

  lemma {:induction false} SelectKeys(data: Record, fields: seq<string>)
    ensures Keys(Select(data, fields)) == Dedup(Present(data, fields))
  {
    if fields != [] {
      var n := |fields| - 1;
      var f := fields[n];
      var p := Present(data, fields[..n]);
      SelectKeys(data, fields[..n]);
      LookupSome(data, f);
      if f in Keys(data) {
        PutKeys(Select(data, fields[..n]), f, Lookup(data, f).value);
        assert (p + [f])[..|p + [f]| - 1] == p;
      } else {
        assert p + [] == p;
      }
    }
  }

  /**
   * A non-empty field list keeps exactly the listed fields that the record
   * has: each keeps its original value, unlisted or absent fields read as
   * missing, and the keys come in field-list order (a repeated field counts
   * once, at its first position).
   */
  lemma FilterSelects(data: Record, fields: seq<string>, k: string)
    requires fields != []
    ensures Lookup(Filter(data, Some(fields)), k) == if k in fields then Lookup(data, k) else None
    ensures Keys(Filter(data, Some(fields))) == Dedup(Present(data, fields))
  {
    SelectLookup(data, fields, k);
    SelectKeys(data, fields);
  }

  /** With a duplicate-free field list the key order is the field list with the absent fields dropped. */
  lemma FilterKeyOrder(data: Record, fields: seq<string>)
    requires fields != [] && Distinct(fields)
    ensures Keys(Filter(data, Some(fields))) == Present(data, fields)
  {
    SelectKeys(data, fields);
    PresentDistinct(data, fields);
    AddNewFresh([], Present(data, fields));
    assert [] + Present(data, fields) == Present(data, fields);
  }

  /** Fields the record lacks are skipped silently: if it has none of them the result is empty. */
  lemma FilterNoneFound(data: Record, fields: seq<string>)
    requires fields != []
    requires forall i :: 0 <= i < |fields| ==> fields[i] !in Keys(data)
    ensures Filter(data, Some(fields)) == []
  {
    SelectKeys(data, fields);
    PresentNone(data, fields);
    assert Keys(Select(data, fields)) == [];
  }

  lemma {:induction false} PresentNone(data: Record, fields: seq<string>)
    requires forall i :: 0 <= i < |fields| ==> fields[i] !in Keys(data)
    ensures Present(data, fields) == []
  {
    if fields != [] {
      PresentNone(data, fields[..|fields| - 1]);
    }
  }

  lemma {:induction false} PresentDistinct(data: Record, fields: seq<string>)
    requires Distinct(fields)
    ensures Distinct(Present(data, fields))
    ensures forall x :: x in Present(data, fields) ==> x in fields
  {
    if fields != [] {
      var n := |fields| - 1;
      assert Distinct(fields[..n]);
      PresentDistinct(data, fields[..n]);
      DistinctLast(fields);
    }
  }

  // ================================================================ merge

  /** Python's truth test `if labels:` — a label list that is present and non-empty. */
  predicate Labelled(labels: Option<seq<string>>) {
    labels.Some? && labels.value != []
  }

  /** What record `i`'s keys are prefixed with: `labels[i] + "_"`, or nothing. */
  function LabelPrefix(labels: Option<seq<string>>, i: nat): string {
    if Labelled(labels) && i < |labels.value| then labels.value[i] + "_" else ""
  }

  function Prefixed(r: Record, p: string): Record {
    seq(|r|, j requires 0 <= j < |r| => Entry(p + r[j].key, r[j].value))
  }

  /** `labels[i]` is evaluated only for a record that has a key, so only such a record can be short of a label. */
  predicate LabelMissing(data: seq<Record>, labels: Option<seq<string>>) {
    Labelled(labels) && exists i :: |labels.value| <= i < |data| && data[i] != []
  }

  /** The records, relabelled, assigned one after the other into one dict. */
  function MergeAll(data: seq<Record>, labels: Option<seq<string>>): Record {
    if data == [] then []
    else
      var n := |data| - 1;
      PutAll(MergeAll(data[..n], labels), Prefixed(data[n], LabelPrefix(labels, n)))
  }

  function Merged(data: seq<Record>, labels: Option<seq<string>>): Result<Record> {
    if LabelMissing(data, labels) then Err(IndexError) else Ok(MergeAll(data, labels))
  }

  /** `merge(data, labels)`: the nested loops assigning into `merged_data`. */
  method Merge(data: seq<Record>, labels: Option<seq<string>>) returns (r: Result<Record>)
    ensures r == Merged(data, labels)
  {
    var merged: Record := [];
    var i := 0;
    while i < |data|
      invariant 0 <= i <= |data|
      invariant merged == MergeAll(data[..i], labels)
      invariant Labelled(labels) ==> forall i' :: |labels.value| <= i' < i ==> data[i'] == []
    {
      var dataDict := data[i];
      ghost var p := LabelPrefix(labels, i);
      ghost var before := merged;
      var j := 0;
      while j < |dataDict|
        invariant 0 <= j <= |dataDict|
        invariant merged == PutAll(before, Prefixed(dataDict[..j], p))
        invariant j > 0 && Labelled(labels) ==> i < |labels.value|
      {
        var key: string;
        if labels.Some? && labels.value != [] {
          if i >= |labels.value| {
            return Err(IndexError);
          }
          key := labels.value[i] + "_" + dataDict[j].key;
        } else {
          key := dataDict[j].key;
          assert p + key == key;
        }
        MergeStep(before, dataDict, j, p);
        merged := Put(merged, key, dataDict[j].value);
        j := j + 1;
      }
      MergeAllStep(data, labels, i);
      assert dataDict[..j] == dataDict;
      i := i + 1;
    }
    assert data[..i] == data;
    return Ok(merged);
  }

  lemma MergeStep(before: Record, r: Record, j: int, p: string)
    requires 0 <= j < |r|
    ensures PutAll(before, Prefixed(r[..j + 1], p))
         == Put(PutAll(before, Prefixed(r[..j], p)), p + r[j].key, r[j].value)
  {
    assert r[..j + 1] == r[..j] + [r[j]];
    PrefixedSnoc(r[..j], r[j], p);
    var es := Prefixed(r[..j + 1], p);
    assert es[..|es| - 1] == Prefixed(r[..j], p);
  }

  lemma MergeAllStep(data: seq<Record>, labels: Option<seq<string>>, i: int)
    requires 0 <= i < |data|
    ensures MergeAll(data[..i + 1], labels)
         == PutAll(MergeAll(data[..i], labels), Prefixed(data[i], LabelPrefix(labels, i)))
  {
    assert data[..i + 1][..i] == data[..i];
  }

  /** Every key the merge produces, relabelled, in encounter order (repeats kept). */
  function AllKeys(data: seq<Record>, labels: Option<seq<string>>): seq<string> {
    if data == [] then []
    else
      var n := |data| - 1;
      AllKeys(data[..n], labels) + Keys(Prefixed(data[n], LabelPrefix(labels, n)))
  }

  /** The value the LAST record that has key `k` gives it. */
  function Latest(data: seq<Record>, k: string): Option<Value> {
    if data == [] then None
    else Override(LastLookup(data[|data| - 1], k), Latest(data[..|data| - 1], k))
  }

  /** The merged keys are the relabelled keys in order of first encounter. */
  lemma {:induction false} MergeKeyOrder(data: seq<Record>, labels: Option<seq<string>>)
    ensures Keys(MergeAll(data, labels)) == Dedup(AllKeys(data, labels))
  {
    if data != [] {
      var n := |data| - 1;
      var es := Prefixed(data[n], LabelPrefix(labels, n));
      MergeKeyOrder(data[..n], labels);
      PutAllKeys(MergeAll(data[..n], labels), es);
      AddNewAppend([], AllKeys(data[..n], labels), Keys(es));
    }
  }

  /** Without labels keys are copied as they are and, on a collision, the later record wins. */
  lemma {:induction false} MergeUnlabelled(data: seq<Record>, labels: Option<seq<string>>, k: string)
    requires !Labelled(labels)
    ensures Lookup(MergeAll(data, labels), k) == Latest(data, k)
    ensures Keys(MergeAll(data, labels)) == Dedup(AllKeys(data, labels))
  {
    MergeKeyOrder(data, labels);
    if data != [] {
      var n := |data| - 1;
      MergeUnlabelled(data[..n], labels, k);
      PrefixedEmpty(data[n]);
      PutAllLookup(MergeAll(data[..n], labels), data[n], k);
    }
  }

  /** The labelled records laid end to end. */
  function Concat(data: seq<Record>, labels: seq<string>): Record
    requires |data| <= |labels|
  {
    if data == [] then []
    else
      var n := |data| - 1;
      Concat(data[..n], labels) + Prefixed(data[n], labels[n] + "_")
  }

  /** No label's `label_` is an initial segment of another's: then no two labelled keys can coincide. */
  predicate Separated(labels: seq<string>) {
    forall a, b :: 0 <= a < |labels| && 0 <= b < |labels| && a != b ==> !(labels[a] + "_" <= labels[b] + "_")
  }

  predicate DistinctKeys(data: seq<Record>) {
    forall i :: 0 <= i < |data| ==> Distinct(Keys(data[i]))
  }

  /**
   * With one label per record and separated labels, nothing collides: the
   * merge is every record's entries, keys prefixed `label_`, in order.
   */
  lemma MergeLabelled(data: seq<Record>, labels: seq<string>)
    requires labels != [] && |data| <= |labels| && Separated(labels) && DistinctKeys(data)
    ensures Merged(data, Some(labels)) == Ok(Concat(data, labels))
    ensures Distinct(Keys(Concat(data, labels)))
  {
    MergeConcat(data, labels);
    ConcatDistinct(data, labels);
  }

  /** Under the same conditions every `labels[i] + "_" + k` of the merge reads `data[i][k]`. */
  lemma MergeLabelledLookup(data: seq<Record>, labels: seq<string>, i: int, k: string)
    requires labels != [] && |data| <= |labels| && Separated(labels) && DistinctKeys(data)
    requires 0 <= i < |data|
    ensures Merged(data, Some(labels)).Ok?
    ensures Lookup(Merged(data, Some(labels)).value, labels[i] + "_" + k) == Lookup(data[i], k)
  {
    MergeLabelled(data, labels);
    ConcatLookup(data, labels, i, k);
  }

  lemma {:induction false} MergeConcat(data: seq<Record>, labels: seq<string>)
    requires labels != [] && |data| <= |labels| && Separated(labels) && DistinctKeys(data)
    ensures MergeAll(data, Some(labels)) == Concat(data, labels)
  {
    if data != [] {
      var n := |data| - 1;
      var p := labels[n] + "_";
      assert DistinctKeys(data[..n]);
      MergeConcat(data[..n], labels);
      ConcatDistinct(data, labels);
      assert Keys(Concat(data, labels)) == Keys(Concat(data[..n], labels)) + Keys(Prefixed(data[n], p));
      PutAllFresh(Concat(data[..n], labels), Prefixed(data[n], p));
    }
  }

  lemma PrefixedSnoc(r: Record, e: Entry, p: string)
    ensures Prefixed(r + [e], p) == Prefixed(r, p) + [Entry(p + e.key, e.value)]
  {
  }

  lemma PrefixedEmpty(r: Record)
    ensures Prefixed(r, "") == r
  {
    forall j | 0 <= j < |r| ensures Prefixed(r, "")[j] == r[j] {
      assert "" + r[j].key == r[j].key;
    }
  }

  lemma PrefixDiffer(p: string, x: string, y: string)
    requires x != y
    ensures p + x != p + y
  {
    assert (p + x)[|p|..] == x;
    assert (p + y)[|p|..] == y;
  }

  lemma PrefixCommon(x: string, a: string, y: string, b: string)
    requires x + a == y + b && |x| <= |y|
    ensures x <= y
  {
    assert x == (x + a)[..|x|] == (y + b)[..|x|] == y[..|x|];
  }

  lemma {:induction false} ConcatKeysFrom(data: seq<Record>, labels: seq<string>, x: string)
    requires |data| <= |labels|
    requires x in Keys(Concat(data, labels))
    ensures exists i, k :: 0 <= i < |data| && k in Keys(data[i]) && x == labels[i] + "_" + k
  {
    if data != [] {
      var n := |data| - 1;
      var pre := Concat(data[..n], labels);
      var last := Prefixed(data[n], labels[n] + "_");
      assert Keys(pre + last) == Keys(pre) + Keys(last);
      if x in Keys(pre) {
        ConcatKeysFrom(data[..n], labels, x);
        var i, k :| 0 <= i < n && k in Keys(data[..n][i]) && x == labels[i] + "_" + k;
        assert data[..n][i] == data[i];
      } else {
        var j :| 0 <= j < |last| && Keys(last)[j] == x;
        assert x == labels[n] + "_" + data[n][j].key;
        assert Keys(data[n])[j] == data[n][j].key;
      }
    }
  }

  lemma {:induction false} ConcatDistinct(data: seq<Record>, labels: seq<string>)
    requires labels != [] && |data| <= |labels| && Separated(labels) && DistinctKeys(data)
    ensures Distinct(Keys(Concat(data, labels)))
  {
    if data != [] {
      var n := |data| - 1;
      var pre := Concat(data[..n], labels);
      var p := labels[n] + "_";
      var last := Prefixed(data[n], p);
      assert DistinctKeys(data[..n]);
      ConcatDistinct(data[..n], labels);
      var ks := Keys(pre) + Keys(last);
      assert Keys(Concat(data, labels)) == ks;
      forall a, b | 0 <= a < b < |ks| ensures ks[a] != ks[b] {
        if b < |pre| {
          assert ks[a] == Keys(pre)[a] && ks[b] == Keys(pre)[b];
        } else if a >= |pre| {
          var a', b' := a - |pre|, b - |pre|;
          assert Keys(data[n])[a'] != Keys(data[n])[b'];
          PrefixDiffer(p, data[n][a'].key, data[n][b'].key);
        } else {
          ConcatKeysFrom(data[..n], labels, ks[a]);
          var i, k :| 0 <= i < n && k in Keys(data[..n][i]) && ks[a] == labels[i] + "_" + k;
          var b' := b - |pre|;
          assert ks[b] == p + data[n][b'].key;
          if ks[a] == ks[b] {
            var q := labels[i] + "_";
            if |q| <= |p| {
              PrefixCommon(q, k, p, data[n][b'].key);
            } else {
              PrefixCommon(p, data[n][b'].key, q, k);
            }
            assert false;
          }
        }
      }
    }
  }

  lemma {:induction false} ConcatLookup(data: seq<Record>, labels: seq<string>, i: int, k: string)
    requires labels != [] && |data| <= |labels| && Separated(labels) && DistinctKeys(data)
    requires 0 <= i < |data|
    ensures Lookup(Concat(data, labels), labels[i] + "_" + k) == Lookup(data[i], k)
  {
    var n := |data| - 1;
    var pre := Concat(data[..n], labels);
    var p := labels[n] + "_";
    var last := Prefixed(data[n], p);
    var x := labels[i] + "_" + k;
    LookupConcat(pre, last, x);
    if i < n {
      assert DistinctKeys(data[..n]);
      ConcatLookup(data[..n], labels, i, k);
      assert data[..n][i] == data[i];
      // `x` is not a key of the last record: its label is separated from `labels[i]`
      LookupSome(pre, x);
      if Lookup(pre, x).None? {
        LookupSome(data[i], k);
        LookupSome(last, x);
        if x in Keys(last) {
          var j :| 0 <= j < |last| && Keys(last)[j] == x;
          var q := labels[i] + "_";
          if |q| <= |p| {
            PrefixCommon(q, k, p, data[n][j].key);
          } else {
            PrefixCommon(p, data[n][j].key, q, k);
          }
          assert false;
        }
      }
    } else {
      PrefixedLookup(data[n], p, k);
      LookupSome(pre, x);
      if x in Keys(pre) {
        ConcatKeysFrom(data[..n], labels, x);
        var i', k' :| 0 <= i' < n && k' in Keys(data[..n][i']) && x == labels[i'] + "_" + k';
        var q := labels[i'] + "_";
        if |q| <= |p| {
          PrefixCommon(q, k', p, k);
        } else {
          PrefixCommon(p, k, q, k');
        }
        assert false;
      }
    }
  }

  lemma {:induction false} PrefixedLookup(r: Record, p: string, k: string)
    ensures Lookup(Prefixed(r, p), p + k) == Lookup(r, k)
  {
    if r != [] {
      assert Prefixed(r, p)[1..] == Prefixed(r[1..], p);
      if r[0].key != k {
        assert (p + r[0].key)[|p|..] == r[0].key;
        assert (p + k)[|p|..] == k;
      }
      PrefixedLookup(r[1..], p, k);
    }
  }

  /**
   * Distinct labels alone do not prevent collisions: under labels "a" and
   * "a_b" the keys "b_c" and "c" both become "a_b_c", and the first record's
   * value is lost.
   */
  lemma MergeLabelCollision()
    ensures !Separated(["a", "a_b"])
    ensures Merged([[Entry("b_c", Atom(Int(1)))], [Entry("c", Atom(Int(2)))]], Some(["a", "a_b"]))
         == Ok([Entry("a_b_c", Atom(Int(2)))])
  {
    var data := [[Entry("b_c", Atom(Int(1)))], [Entry("c", Atom(Int(2)))]];
    var labels := Some(["a", "a_b"]);
    assert "a" + "_" <= "a_b" + "_";
    assert !Separated(labels.value) by {
      assert labels.value[0] + "_" <= labels.value[1] + "_";
    }
    assert LabelPrefix(labels, 0) + "b_c" == "a_b_c";
    assert LabelPrefix(labels, 1) + "c" == "a_b_c";
    var first := Prefixed(data[0], LabelPrefix(labels, 0));
    var second := Prefixed(data[1], LabelPrefix(labels, 1));
    assert first == [Entry("a_b_c", Atom(Int(1)))];
    assert second == [Entry("a_b_c", Atom(Int(2)))];
    assert data[..1][..0] == [];
    assert PutAll([], first) == first by {
      assert first[..0] == [];
    }
    assert MergeAll(data[..1], labels) == first;
    assert second[..0] == [];
    assert data[..2] == data;
    assert MergeAll(data, labels) == PutAll(first, second);
    assert PutAll(first, second) == Put(first, "a_b_c", Atom(Int(2)));
    assert first[1..] == [];
    assert Put(first, "a_b_c", Atom(Int(2))) == [Entry("a_b_c", Atom(Int(2)))];
    assert !LabelMissing(data, labels);
    assert Merged(data, labels) == Ok([Entry("a_b_c", Atom(Int(2)))]);
  }

  lemma NotPrefix(x: string, y: string, i: nat)
    requires i < |x| && (i >= |y| || x[i] != y[i])
    ensures !(x <= y)
  {
  }

  /** The full label list of the `get` command is separated, so its merge loses nothing. */
  lemma GetLabelsSeparated()
    ensures Separated(["date_and", "github", "dockerhub"])
  {
    var l := ["date_and", "github", "dockerhub"];
    assert l[0] + "_" == "date_and_" && l[1] + "_" == "github_" && l[2] + "_" == "dockerhub_";
    forall a, b | 0 <= a < 3 && 0 <= b < 3 && a != b ensures !(l[a] + "_" <= l[b] + "_") {
      NotPrefix(l[a] + "_", l[b] + "_", if (a == 0 && b == 2) || (a == 2 && b == 0) then 1 else 0);
    }
  }

  /** The label list of the download-stats command is separated as well. */
  lemma DownloadStatsLabelsSeparated()
    ensures Separated(["date_and_", ""])
  {
    var m := ["date_and_", ""];
    assert m[0] + "_" == "date_and__" && m[1] + "_" == "_";
    NotPrefix(m[0] + "_", m[1] + "_", 0);
    NotPrefix(m[1] + "_", m[0] + "_", 0);
  }

  // ================================================================ flatten

  /** `flatten(data, prefix)`: the flat dict the loop over `data.items()` builds. */
  function Flattened(data: Record, prefix: string): Record
    decreases data
  {
    if data == [] then []
    else
      var n := |data| - 1;
      var acc := Flattened(data[..n], prefix);
      var e := data[n];
      if e.value.Obj? then PutAll(acc, Flattened(e.value.entries, prefix + e.key + "."))
      else Put(acc, prefix + e.key, e.value)
  }

  /** `flatten`: a loop assigning scalars and `update`-ing with the flattened nested dicts. */
  method Flatten(data: Record, prefix: string) returns (flattened: Record)
    ensures flattened == Flattened(data, prefix)
    decreases data
  {
    flattened := [];
    for i := 0 to |data|
      invariant flattened == Flattened(data[..i], prefix)
    {
      var e := data[i];
      assert data[..i + 1][..i] == data[..i];
      if e.value.Obj? {
        var sub := Flatten(e.value.entries, prefix + e.key + ".");
        flattened := PutAll(flattened, sub);
      } else {
        flattened := Put(flattened, prefix + e.key, e.value);
      }
    }
    assert data[..|data|] == data;
  }

  /**
   * Every non-mapping value with its full dotted path, depth first, in
   * encounter order: a nested key `k` under `p` contributes paths starting
   * `p + k + "."`, and an empty nested mapping contributes nothing.
   */
  function Leaves(data: Record, prefix: string): Record
    decreases data
  {
    if data == [] then []
    else
      var n := |data| - 1;
      var e := data[n];
      Leaves(data[..n], prefix)
        + (if e.value.Obj? then Leaves(e.value.entries, prefix + e.key + ".")
           else [Entry(prefix + e.key, e.value)])
  }

  predicate Flat(r: Record) {
    forall i :: 0 <= i < |r| ==> !r[i].value.Obj?
  }

  /** The flattened record is the dict built from the leaf paths, in order (a repeated path keeps its last value). */
  lemma {:induction false} FlattenedIsLeaves(data: Record, prefix: string)
    ensures Flattened(data, prefix) == PutAll([], Leaves(data, prefix))
    decreases data
  {
    if data != [] {
      var n := |data| - 1;
      var e := data[n];
      var l := Leaves(data[..n], prefix);
      FlattenedIsLeaves(data[..n], prefix);
      if e.value.Obj? {
        var p' := prefix + e.key + ".";
        FlattenedIsLeaves(e.value.entries, p');
        assert Keys([]) == [];
        PutAllDistinct([], l);
        PutAllCollapse(PutAll([], l), Leaves(e.value.entries, p'));
        PutAllConcat([], l, Leaves(e.value.entries, p'));
      } else {
        var l' := l + [Entry(prefix + e.key, e.value)];
        assert l'[..|l'| - 1] == l;
      }
    }
  }

  lemma {:induction false} LeavesFlat(data: Record, prefix: string)
    ensures Flat(Leaves(data, prefix))
    decreases data
  {
    if data != [] {
      var n := |data| - 1;
      var e := data[n];
      LeavesFlat(data[..n], prefix);
      if e.value.Obj? {
        LeavesFlat(e.value.entries, prefix + e.key + ".");
      }
    }
  }

  lemma {:induction false} PutFlat(r: Record, k: string, v: Value)
    requires Flat(r) && !v.Obj?
    ensures Flat(Put(r, k, v))
  {
    if r != [] && r[0].key != k {
      PutFlat(r[1..], k, v);
    }
  }

  lemma {:induction false} PutAllFlat(acc: Record, es: Record)
    requires Flat(acc) && Flat(es)
    ensures Flat(PutAll(acc, es))
  {
    if es != [] {
      PutAllFlat(acc, es[..|es| - 1]);
      PutFlat(PutAll(acc, es[..|es| - 1]), es[|es| - 1].key, es[|es| - 1].value);
    }
  }

  /** No value of a flattened record is a mapping, and no key occurs twice. */
  lemma FlattenedFlat(data: Record, prefix: string)
    ensures Flat(Flattened(data, prefix)) && Distinct(Keys(Flattened(data, prefix)))
  {
    FlattenedIsLeaves(data, prefix);
    LeavesFlat(data, prefix);
    PutAllFlat([], Leaves(data, prefix));
    assert Keys([]) == [];
    PutAllDistinct([], Leaves(data, prefix));
  }

  lemma {:induction false} LeavesOfFlat(data: Record)
    requires Flat(data)
    ensures Leaves(data, "") == data
  {
    if data != [] {
      var n := |data| - 1;
      LeavesOfFlat(data[..n]);
      assert "" + data[n].key == data[n].key;
      assert data == data[..n] + [data[n]];
    }
  }

  /** Flattening a record that is already flat (no nested mapping, no repeated key) changes nothing. */
  lemma FlattenFlatIdentity(data: Record)
    requires Flat(data) && Distinct(Keys(data))
    ensures Flattened(data, "") == data
  {
    FlattenedIsLeaves(data, "");
    LeavesOfFlat(data);
    assert Keys([]) + Keys(data) == Keys(data);
    PutAllFresh([], data);
  }

  /** Flattening is idempotent. */
  lemma FlattenIdempotent(data: Record)
    ensures Flattened(Flattened(data, ""), "") == Flattened(data, "")
  {
    FlattenedFlat(data, "");
    FlattenFlatIdentity(Flattened(data, ""));
  }

  /** An empty nested mapping, wherever it stands, contributes no keys. */
  lemma {:induction false} FlattenEmptyNested(data: Record, rest: Record, prefix: string, k: string)
    ensures Flattened(data + [Entry(k, Obj([]))] + rest, prefix) == Flattened(data + rest, prefix)
    decreases |rest|
  {
    var with := data + [Entry(k, Obj([]))] + rest;
    if rest == [] {
      assert with[..|with| - 1] == data;
      assert data + rest == data;
    } else {
      var m := |rest| - 1;
      FlattenEmptyNested(data, rest[..m], prefix, k);
      assert with[..|with| - 1] == data + [Entry(k, Obj([]))] + rest[..m];
      assert (data + rest)[..|data + rest| - 1] == data + rest[..m];
    }
  }
}
