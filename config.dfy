/**
 * Field-selection presets (src/repo_metrics/output/config.py): which fields of
 * the GitHub and Docker Hub records are kept by `Preprocess.Filter`.
 */
module Config {
  import opened Outcomes
  import opened Records
  import opened Preprocess

  /**
   * `OutputConfig(github_fields, dockerhub_fields)`: the constructor stores the
   * two lists as given; `None` stands for Python's `None` (no filtering).
   */
  datatype OutputConfig = OutputConfig(githubFields: Option<seq<string>>, dockerhubFields: Option<seq<string>>)

  const GitHubMetricFields: seq<string> :=
    ["forks", "open_issues", "watchers", "stargazers_count", "subscribers_count", "download_count"]

  const DockerHubMetricFields: seq<string> := ["star_count", "pull_count"]

  /** `OutputConfig.just_metrics()`: the fixed allow-lists. */
  function JustMetrics(): OutputConfig {
    OutputConfig(Some(GitHubMetricFields), Some(DockerHubMetricFields))
  }

  /** `OutputConfig.everything()`: no allow-list at all. */
  function Everything(): OutputConfig {
    OutputConfig(None, None)
  }

  /** `everything()` passes both records through `filter` unchanged. */
  lemma EverythingPassesThrough(github: Record, dockerhub: Record)
    ensures Filter(github, Everything().githubFields) == github
    ensures Filter(dockerhub, Everything().dockerhubFields) == dockerhub
  {
  }

  lemma MetricFieldsDistinct()
    ensures Distinct(GitHubMetricFields) && Distinct(DockerHubMetricFields)
  {
    var g := GitHubMetricFields;
    assert g[0][0] == 'f' && g[1][0] == 'o' && g[2][0] == 'w' && g[5][0] == 'd';
    assert g[3][0] == 's' && g[4][0] == 's' && g[3][1] == 't' && g[4][1] == 'u';
    var d := DockerHubMetricFields;
    assert d[0][0] == 's' && d[1][0] == 'p';
  }

  /**
   * `just_metrics()` keeps, of a GitHub record, exactly the six metric fields
   * it has, in the order forks, open_issues, watchers, stargazers_count,
   * subscribers_count, download_count, each with its original value; of a
   * Docker Hub record, star_count then pull_count.
   */
  lemma JustMetricsSelects(github: Record, dockerhub: Record, k: string)
    ensures Keys(Filter(github, JustMetrics().githubFields)) == Present(github, GitHubMetricFields)
    ensures Lookup(Filter(github, JustMetrics().githubFields), k)
         == if k in GitHubMetricFields then Lookup(github, k) else None
    ensures Keys(Filter(dockerhub, JustMetrics().dockerhubFields)) == Present(dockerhub, DockerHubMetricFields)
    ensures Lookup(Filter(dockerhub, JustMetrics().dockerhubFields), k)
         == if k in DockerHubMetricFields then Lookup(dockerhub, k) else None
  {
    MetricFieldsDistinct();
    FilterKeyOrder(github, GitHubMetricFields);
    FilterSelects(github, GitHubMetricFields, k);
    FilterKeyOrder(dockerhub, DockerHubMetricFields);
    FilterSelects(dockerhub, DockerHubMetricFields, k);
  }

  /** A record that has all six GitHub metric fields is cut down to exactly those six keys, in that order. */
  lemma JustMetricsAllPresent(github: Record)
    requires forall i :: 0 <= i < |GitHubMetricFields| ==> GitHubMetricFields[i] in Keys(github)
    ensures Keys(Filter(github, JustMetrics().githubFields)) == GitHubMetricFields
  {
    JustMetricsSelects(github, [], "");
    PresentAll(github, GitHubMetricFields);
  }

  lemma {:induction false} PresentAll(data: Record, fields: seq<string>)
    requires forall i :: 0 <= i < |fields| ==> fields[i] in Keys(data)
    ensures Present(data, fields) == fields
  {
    if fields != [] {
      var n := |fields| - 1;
      PresentAll(data, fields[..n]);
      assert fields == fields[..n] + [fields[n]];
    }
  }

  /** A list of JSON values that are all strings. */
  predicate AllStrings(items: seq<Value>) {
    forall i :: 0 <= i < |items| ==> items[i].Atom? && items[i].scalar.Str?
  }

  /** `names` is, entry for entry, the JSON list `v`. */
  predicate ListOf(v: Value, names: seq<string>) {
    v.Arr? && |v.items| == |names| && forall i :: 0 <= i < |names| ==> v.items[i] == Atom(Str(names[i]))
  }

  /**
   * A `github_fields` / `dockerhub_fields` entry of a configuration file:
   * absent or null is no allow-list, a list of strings is that allow-list.
   */
  function FieldList(v: Option<Value>): (r: Result<Option<seq<string>>>)
    ensures v == None || v == Some(Atom(Null)) <==> r == Ok(None)
    ensures r.Ok? && r.value.Some? <==> v.Some? && v.value.Arr? && AllStrings(v.value.items)
    ensures r.Ok? && r.value.Some? ==> ListOf(v.value, r.value.value)
  {
    match v
    case None => Ok(None)
    case Some(Atom(Null)) => Ok(None)
    case Some(Arr(items)) =>
      if AllStrings(items) then
        Ok(Some(seq(|items|, i requires 0 <= i < |items| && AllStrings(items) => items[i].scalar.s)))
      else Err(ConfigError("field list is not a list of strings"))
    case Some(_) => Err(ConfigError("field list is not a list of strings"))
  }

  /**
   * `OutputConfig.load_from_json_file(path)` once the file is parsed: the two
   * lists are read with `data.get(key, None)`, so a missing key (or a JSON
   * null) leaves that list `None`, and a list of names is kept as it is.
   */
  function FromParsedJson(doc: Value): (r: Result<OutputConfig>)
    ensures r.Ok? ==> doc.Obj?
    ensures doc.Obj? && Lookup(doc.entries, "github_fields").None?
            && Lookup(doc.entries, "dockerhub_fields").None?
            ==> r == Ok(Everything())
    ensures r.Ok? ==> (r.value.githubFields.None? <==>
                         Lookup(doc.entries, "github_fields") in {None, Some(Atom(Null))})
    ensures r.Ok? ==> (r.value.dockerhubFields.None? <==>
                         Lookup(doc.entries, "dockerhub_fields") in {None, Some(Atom(Null))})
    ensures r.Ok? && r.value.githubFields.Some? ==>
              ListOf(Lookup(doc.entries, "github_fields").value, r.value.githubFields.value)
    ensures r.Ok? && r.value.dockerhubFields.Some? ==>
              ListOf(Lookup(doc.entries, "dockerhub_fields").value, r.value.dockerhubFields.value)
    ensures (doc.Obj? && FieldList(Lookup(doc.entries, "github_fields")).Ok?
             && FieldList(Lookup(doc.entries, "dockerhub_fields")).Ok?) ==> r.Ok?
  {
    if !doc.Obj? then Err(ConfigError("configuration is not a JSON object"))
    else
      match FieldList(Lookup(doc.entries, "github_fields"))
      case Err(e) => Err(e)
      case Ok(github) =>
        match FieldList(Lookup(doc.entries, "dockerhub_fields"))
        case Err(e) => Err(e)
        case Ok(dockerhub) => Ok(OutputConfig(github, dockerhub))
  }
}
