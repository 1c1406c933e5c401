/** `JsonOutput` (src/repo_metrics/output/json_output.py): writes JSON, optionally appending to an array. */
module JsonOutputs {
  import opened Outcomes
  import opened Records
  import opened Files

  /** Python's `+` on two values decoded from JSON. */
  function PyAdd(a: Value, b: Value): (r: Result<Value>)
    ensures a.Arr? && b.Arr? ==> r == Ok(Arr(a.items + b.items))
    ensures r.Ok? ==> a.Arr? == b.Arr? && !a.Obj? && !b.Obj?
    ensures (a.Arr? != b.Arr?) || a.Obj? || b.Obj? ==> r == Err(TypeError)
  {
    match (a, b)
    case (Arr(xs), Arr(ys)) => Ok(Arr(xs + ys))
    case (Atom(Str(x)), Atom(Str(y))) => Ok(Atom(Str(x + y)))
    case (Atom(x), Atom(y)) =>
      if Number(x).Some? && Number(y).Some? then Ok(Atom(Int(Number(x).value + Number(y).value)))
      else Err(TypeError)
    case _ => Err(TypeError)
  }

  /** A JSON scalar as a Python number (`bool` is a subclass of `int`). */
  function Number(s: Scalar): Option<int> {
    match s
    case Int(i) => Some(i)
    case Bool(b) => Some(if b then 1 else 0)
    case _ => None
  }

  /** `json.load` of the file in append mode; a missing file reads as `[]`. */
  function Existing(files: map<string, File>, path: string): Result<Value> {
    if path !in files then Ok(Arr([]))
    else if files[path].JsonText? then Ok(files[path].doc)
    else Err(JsonDecodeError)
  }

  /** The file store after `write(data)`, or the exception it raises (the store is then unchanged). */
  function JsonWrite(files: map<string, File>, path: string, append: bool, data: Value): Result<map<string, File>> {
    if !append then Ok(files[path := JsonText(data)])
    else
      match Existing(files, path)
      case Err(e) => Err(e)
      case Ok(existing) =>
        match PyAdd(existing, data)
        case Err(e) => Err(e)
        case Ok(combined) => Ok(files[path := JsonText(combined)])
  }

  class JsonOutput {
    const path: string
    const append: bool

    constructor(path: string, append: bool)
      ensures this.path == path && this.append == append
    {
      this.path := path;
      this.append := append;
    }

    /** `write(data)`: replaces or extends the document at `path`; on an exception nothing is written. */
    method Write(fs: FileSystem, data: Value) returns (r: Result<()>)
      modifies fs
      ensures JsonWrite(old(fs.files), path, append, data).Ok? ==>
                r == Ok(()) && fs.files == JsonWrite(old(fs.files), path, append, data).value
      ensures JsonWrite(old(fs.files), path, append, data).Err? ==>
                r == Err(JsonWrite(old(fs.files), path, append, data).error) && fs.files == old(fs.files)
    {
      var content := data;
      if append {
        var existingData: Value;
        if path in fs.files {
          if !fs.files[path].JsonText? {
            return Err(JsonDecodeError);
          }
          existingData := fs.files[path].doc;
        } else {
          existingData := Arr([]);
        }
        var combined := PyAdd(existingData, data);
        if combined.Err? {
          return Err(combined.error);
        }
        content := combined.value;
      }
      fs.files := fs.files[path := JsonText(content)];
      r := Ok(());
    }
  }

  /** A write changes the file at `path` and no other; the path exists afterwards. */
  lemma JsonWriteOnlyTarget(files: map<string, File>, path: string, append: bool, data: Value)
    ensures JsonWrite(files, path, append, data).Ok? ==> OnlyAt(files, JsonWrite(files, path, append, data).value, path)
  {
  }

  /** Without append the file holds exactly `data`, whatever was there before. */
  lemma JsonOverwrite(files: map<string, File>, path: string, data: Value)
    ensures JsonWrite(files, path, false, data).Ok?
    ensures JsonWrite(files, path, false, data).value[path] == JsonText(data)
  {
  }

  /**
   * Appending records to an array file: the old records stay as an
   * unchanged prefix, followed by the new records exactly as given (a
   * missing file counts as the empty array).
   */
  lemma JsonAppendArray(files: map<string, File>, path: string, items: seq<Value>)
    requires Existing(files, path).Ok? && Existing(files, path).value.Arr?
    ensures var before := Existing(files, path).value.items;
            var r := JsonWrite(files, path, true, Arr(items));
            && r.Ok? && path in r.value && r.value[path].JsonText? && r.value[path].doc.Arr?
            && |r.value[path].doc.items| == |before| + |items|
            && r.value[path].doc.items[..|before|] == before
            && r.value[path].doc.items[|before|..] == items
            && (path !in files ==> r.value[path].doc.items == items)
  {
    var before := Existing(files, path).value.items;
    assert (before + items)[..|before|] == before;
    assert (before + items)[|before|..] == items;
  }

  /**
   * In append mode a file that is not JSON is a decoding error, and an array
   * file with non-array data (or the reverse) is a type error.
   */
  lemma JsonAppendErrors(files: map<string, File>, path: string, data: Value)
    ensures path in files && !files[path].JsonText? ==> JsonWrite(files, path, true, data) == Err(JsonDecodeError)
    ensures Existing(files, path).Ok? && Existing(files, path).value.Arr? != data.Arr?
            ==> JsonWrite(files, path, true, data) == Err(TypeError)
  {
  }

  /** Two appends in a row leave the same file as one append of both batches. */
  lemma {:induction false} JsonAppendTwice(files: map<string, File>, path: string, xs: seq<Value>, ys: seq<Value>)
    requires Existing(files, path).Ok? && Existing(files, path).value.Arr?
    ensures JsonWrite(files, path, true, Arr(xs)).Ok?
    ensures JsonWrite(JsonWrite(files, path, true, Arr(xs)).value, path, true, Arr(ys))
         == JsonWrite(files, path, true, Arr(xs + ys))
  {
    var before := Existing(files, path).value.items;
    assert before + xs + ys == before + (xs + ys);
    var once := JsonWrite(files, path, true, Arr(xs)).value;
    assert Existing(once, path) == Ok(Arr(before + xs));
    assert once[path := JsonText(Arr(before + xs + ys))] == files[path := JsonText(Arr(before + (xs + ys)))];
  }
}
