/**
 * The file system the two writers work on: a mutable map from paths to the
 * documents the files hold. A path that is not in the map is a missing file.
 */
module Files {
  import opened Records

  /** One line of a CSV file written through `csv.DictWriter`. */
  datatype CsvLine = Header(names: seq<string>) | Row(cells: seq<Value>)

  /**
   * The content of a file: a JSON document, CSV lines, or text that parses as
   * neither (for instance CSV lines appended to a JSON document).
   */
  datatype File = JsonText(doc: Value) | CsvText(lines: seq<CsvLine>) | OtherText

  class FileSystem {
    var files: map<string, File>

    constructor(files: map<string, File>)
      ensures this.files == files
    {
      this.files := files;
    }
  }

  /** `after` differs from `before` at most at `path`, where it has a file. */
  predicate OnlyAt(before: map<string, File>, after: map<string, File>, path: string) {
    && after.Keys == before.Keys + {path}
    && forall p :: p in before && p != path ==> after[p] == before[p]
  }
}
