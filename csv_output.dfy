/** `CsvOutput` (src/repo_metrics/output/csv_output.py): writes one flattened record as a CSV row. */
module CsvOutputs {
  import opened Outcomes
  import opened Records
  import opened Preprocess
  import opened Files

  /** `DictWriter.writerow`: the value of each field name, in field-name order. */
  function RowOf(data: Record, fieldnames: seq<string>): CsvLine {
    Row(seq(|fieldnames|, i requires 0 <= i < |fieldnames| =>
      if Lookup(data, fieldnames[i]).Some? then Lookup(data, fieldnames[i]).value else Atom(Str(""))))
  }

  /** The file store after `write(data)`. */
  function CsvWrite(files: map<string, File>, path: string, append: bool, data: Record): map<string, File> {
    var flat := Flattened(data, "");
    var row := RowOf(flat, Keys(flat));
    if !append then files[path := CsvText([Header(Keys(flat)), row])]
    else if path !in files then files[path := CsvText([row])]
    else if files[path].CsvText? then files[path := CsvText(files[path].lines + [row])]
    else files[path := OtherText]
  }

  class CsvOutput {
    const path: string
    const append: bool

    constructor(path: string, append: bool)
      ensures this.path == path && this.append == append
    {
      this.path := path;
      this.append := append;
    }

    /**
     * `write(data)`: opens the file for writing or appending, flattens the
     * record, writes the header unless appending, then the one row.
     */
    method Write(fs: FileSystem, data: Record)
      modifies fs
      ensures fs.files == CsvWrite(old(fs.files), path, append, data)
    {
      var lines: seq<CsvLine> := [];
      var readable := true;
      if append && path in fs.files {
        if fs.files[path].CsvText? {
          lines := fs.files[path].lines;
        } else {
          readable := false;
        }
      }
      var flat := Flatten(data, "");
      var fieldnames := Keys(flat);
      if !append {
        lines := lines + [Header(fieldnames)];
      }
      lines := lines + [RowOf(flat, fieldnames)];
      assert !append ==> lines == [Header(fieldnames), RowOf(flat, fieldnames)];
      assert append && path !in fs.files ==> lines == [RowOf(flat, fieldnames)];
      assert append && path in fs.files && fs.files[path].CsvText? ==> readable && lines == fs.files[path].lines + [RowOf(flat, fieldnames)];
      assert fs.files[path := if readable then CsvText(lines) else OtherText] == CsvWrite(fs.files, path, append, data);
      fs.files := fs.files[path := if readable then CsvText(lines) else OtherText];
    }
  }

  /** A write changes the file at `path` and no other; the path exists afterwards. */
  lemma CsvWriteOnlyTarget(files: map<string, File>, path: string, append: bool, data: Record)
    ensures OnlyAt(files, CsvWrite(files, path, append, data), path)
  {
  }

  /**
   * The row written for a record: its cells line up with the header (the
   * flattened record's keys, each once, in insertion order), each cell is
   * the flattened record's value for that key, and no cell is a mapping.
   */
  lemma {:induction false} RowAligned(data: Record)
    ensures var flat := Flattened(data, "");
            var row := RowOf(flat, Keys(flat));
            && Distinct(Keys(flat))
            && row.cells == Values(flat)
            && (forall i :: 0 <= i < |row.cells| ==> Lookup(flat, Keys(flat)[i]) == Some(row.cells[i]))
            && (forall i :: 0 <= i < |row.cells| ==> !row.cells[i].Obj?)
  {
    var flat := Flattened(data, "");
    FlattenedFlat(data, "");
    forall i | 0 <= i < |flat|
      ensures Lookup(flat, flat[i].key) == Some(flat[i].value)
    {
      LookupAt(flat, i);
    }
  }

  /** A record that is already flat is written with its own keys and values. */
  lemma FlatRecordRow(data: Record)
    requires Flat(data) && Distinct(Keys(data))
    ensures RowOf(Flattened(data, ""), Keys(Flattened(data, ""))) == Row(Values(data))
    ensures Flattened(data, "") == data
  {
    FlattenFlatIdentity(data);
    RowAligned(data);
  }

  /** Without append the file becomes exactly the header line and the one row. */
  lemma CsvOverwrite(files: map<string, File>, path: string, data: Record)
    ensures var flat := Flattened(data, "");
            CsvWrite(files, path, false, data)[path] == CsvText([Header(Keys(flat)), Row(Values(flat))])
  {
    RowAligned(data);
  }

  /**
   * With append the earlier lines are kept as they are and exactly one row,
   * and no header, is added after them (a missing file gets just the row).
   */
  lemma CsvAppend(files: map<string, File>, path: string, data: Record)
    requires path !in files || files[path].CsvText?
    ensures var flat := Flattened(data, "");
            var before := if path in files then files[path].lines else [];
            var after := CsvWrite(files, path, true, data)[path];
            && after.CsvText?
            && |after.lines| == |before| + 1
            && after.lines[..|before|] == before
            && after.lines[|before|] == Row(Values(flat))
  {
    RowAligned(data);
    var flat := Flattened(data, "");
    var before := if path in files then files[path].lines else [];
    assert (before + [Row(Values(flat))])[..|before|] == before;
  }

  /**
   * A first write of {name, value} followed by an appended write of
   * {name, extra_field} leaves the first header in place: the appended row's
   * cells are in its own key order and the header is never widened.
   */
  lemma AppendKeepsFirstHeader()
    ensures var first := [Entry("name", Atom(Str("test1"))), Entry("value", Atom(Str("123")))];
            var second := [Entry("name", Atom(Str("test2"))), Entry("extra_field", Atom(Str("456")))];
            var once := CsvWrite(map[], "out.csv", false, first);
            CsvWrite(once, "out.csv", true, second)["out.csv"]
              == CsvText([Header(["name", "value"]),
                          Row([Atom(Str("test1")), Atom(Str("123"))]),
                          Row([Atom(Str("test2")), Atom(Str("456"))])])
  {
    var first := [Entry("name", Atom(Str("test1"))), Entry("value", Atom(Str("123")))];
    var second := [Entry("name", Atom(Str("test2"))), Entry("extra_field", Atom(Str("456")))];
    assert first[0].key[0] == 'n' && first[1].key[0] == 'v';
    assert second[0].key[0] == 'n' && second[1].key[0] == 'e';
    FlatRecordRow(first);
    FlatRecordRow(second);
    assert Keys(first) == ["name", "value"] && Values(first) == [Atom(Str("test1")), Atom(Str("123"))];
    assert Values(second) == [Atom(Str("test2")), Atom(Str("456"))];
    var once := CsvWrite(map[], "out.csv", false, first);
    assert once["out.csv"] == CsvText([Header(["name", "value"]), Row([Atom(Str("test1")), Atom(Str("123"))])]);
    assert once["out.csv"].lines + [Row(Values(second))]
        == [Header(["name", "value"]), Row([Atom(Str("test1")), Atom(Str("123"))]), Row([Atom(Str("test2")), Atom(Str("456"))])];
  }
}
