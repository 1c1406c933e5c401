# repo-metrics-py in Dafny

A Dafny model of the core of `repo_metrics`, a command-line tool. The tool collects
repository metrics from GitHub and writes them to JSON or CSV files. The model covers:

- **Response aggregation** (`metrics/github.py`), in class `GitHub.GitHubMetricsHelper`:
  - the total download count, summed over every paginated releases page;
  - the per-release download counts;
  - the repository info with `download_count` added;
  - the join of clone and view traffic by timestamp, with the optional cut to yesterday.
- **Record preprocessing** (`output/preprocess.py`):
  - `filter` selects fields;
  - `merge` combines several records under optional labels;
  - `flatten` turns nested mappings into dotted keys.
- **Field-selection presets** (`output/config.py`): `just_metrics`, `everything`, and reading a parsed configuration.
- **The two writers** (`output/json_output.py`, `output/csv_output.py`):
  - Both work on a mutable file store (`Files.FileSystem`).
  - The JSON writer replaces the document, or appends to the array already in the file.
  - The CSV writer writes a header and one row, or in append mode one row only.

Python dictionaries are modelled as ordered entry lists (`Records.Record`) with dict semantics:

- Assigning to an existing key replaces its value in place.
- Assigning to a new key appends it.
- `update` is a sequence of assignments.

JSON values are `Records.Value`. Exceptions become `Outcomes.Result` errors.

HTTP is replaced by its responses:

- The releases endpoint is a sequence of pages with a status code each.
- A page number past the end of that sequence answers with an empty list, as GitHub does.
- The repository endpoint is a single response.
- The traffic endpoints are their already-fetched lists of points.

The release methods also return a log of the requests they would send. Their contracts therefore state the URL, the `Authorization` header and the `page`/`per_page` parameters of every request.

Each loop in the source is a `method` with a loop. Each method is proved equal to a specification function, and the lemmas state what that function guarantees.

Where the tests and the code disagree, the model follows the code:

- **CSV append with different fields.** Some tests expect a second write with new field names to reconcile the header and rewrite the earlier rows. `csv_output.py` never reads the file and never rewrites the header. `CsvOutputs.AppendKeepsFirstHeader` shows the header staying as first written.
- **CSV `write` called with a list.** Some tests call `write` with a list of records. `flatten` needs a mapping, so the model's `write` takes one record.

## Model

| member | source | states |
|---|---|---|
| Preprocess.Filter | src/repo_metrics/output/preprocess.py:17-18 | with no field list, or an empty one, the record is returned unchanged |
| Preprocess.FilterSelects | src/repo_metrics/output/preprocess.py:19 | a listed field keeps its original value; an unlisted or absent field is missing; keys follow the field list, a repeated field counted once |
| Preprocess.FilterKeyOrder | src/repo_metrics/output/preprocess.py:19 | with a duplicate-free field list, the keys are exactly the listed fields the record has, in list order |
| Preprocess.FilterNoneFound | src/repo_metrics/output/preprocess.py:19 | listed fields the record lacks are skipped without error; if it has none of them, the result is empty |
| Preprocess.Merge | src/repo_metrics/output/preprocess.py:30-37 | the nested loops compute the merge specification; when labels are given, a record with at least one key beyond the last label is an `IndexError` (an empty record there adds nothing and raises nothing) |
| Preprocess.MergeKeyOrder | src/repo_metrics/output/preprocess.py:30-37 | merged keys are the (relabelled) keys of all records, each once, in order of first encounter |
| Preprocess.MergeUnlabelled | src/repo_metrics/output/preprocess.py:33-36 | without labels (none or an empty list), keys are copied unchanged and on a collision the later record's value wins |
| Preprocess.MergeLabelled | src/repo_metrics/output/preprocess.py:30-37 | with one label per record, no label being a prefix of another (both followed by `_`) and no key repeated within a record, the merge is all entries with keys prefixed `label_`, concatenated in order, each key once |
| Preprocess.MergeLabelledLookup | src/repo_metrics/output/preprocess.py:33-34 | under the same conditions, every `labels[i]_k` of the merge holds `data[i][k]` |
| Preprocess.MergeLabelCollision | src/repo_metrics/output/preprocess.py:34 | distinct labels alone do not keep keys apart: under `a` and `a_b`, the keys `b_c` and `c` both become `a_b_c`, and the first value is lost |
| Preprocess.GetLabelsSeparated | src/repo_metrics/get/command.py:58-80 | the full label list of the `get` command (`date_and`, `github`, `dockerhub`) satisfies the no-collision condition of MergeLabelled |
| Preprocess.DownloadStatsLabelsSeparated | src/repo_metrics/github_download_stats/command.py:64-74 | the label list of the download-stats command (`date_and_`, then the empty label) satisfies the same no-collision condition |
| Preprocess.Flatten | src/repo_metrics/output/preprocess.py:47-53 | the loop with its recursive call computes the flatten specification |
| Preprocess.FlattenedIsLeaves | src/repo_metrics/output/preprocess.py:48-53 | the flattened dict is the dict built from the leaf paths `k1.k2...kn` in order; a repeated path keeps its last value |
| Preprocess.FlattenedFlat | src/repo_metrics/output/preprocess.py:48-53 | no value of a flattened record is a mapping, and no key occurs twice |
| Preprocess.FlattenFlatIdentity | src/repo_metrics/output/preprocess.py:48-53 | flattening a record that is already flat changes nothing |
| Preprocess.FlattenIdempotent | src/repo_metrics/output/preprocess.py:48-53 | flattening twice is the same as flattening once |
| Preprocess.FlattenEmptyNested | src/repo_metrics/output/preprocess.py:48-50 | an empty nested mapping, wherever it occurs among the entries, contributes no key and leaves the flattening of the other entries as it was |
| Config.MetricFieldsDistinct | src/repo_metrics/output/config.py:12-25 | neither preset field list repeats a name |
| Config.JustMetricsSelects | src/repo_metrics/output/config.py:32-36 | `just_metrics` keeps, of a GitHub record, exactly forks, open_issues, watchers, stargazers_count, subscribers_count, download_count where present, in that order and with their values; of a Docker Hub record, star_count then pull_count |
| Config.JustMetricsAllPresent | src/repo_metrics/output/config.py:13-20 | a GitHub record having all six metric fields is cut down to exactly those six keys in that order |
| Config.EverythingPassesThrough | src/repo_metrics/output/config.py:38-43 | `everything` passes both records through `filter` unchanged |
| Config.FieldList | src/repo_metrics/output/config.py:56-57 | a missing or null entry means no list; a list of strings is that list, element for element |
| Config.FromParsedJson | src/repo_metrics/output/config.py:53-58 | a missing `github_fields` or `dockerhub_fields` key yields None for that list; a given list is kept as it is |
| GitHub.AuthorizationHeader | src/repo_metrics/metrics/github.py:38-41 | the header dict holds `Authorization: Bearer <token>` exactly when the token is set and non-empty, and no other header |
| GitHub.FirstStop | src/repo_metrics/metrics/github.py:113-123 | the first page with a non-200 status or an empty release list, and no page before it is one |
| GitHub.GitHubMetricsHelper.constructor | src/repo_metrics/metrics/github.py:23-26 | the helper keeps the token it is given |
| GitHub.GitHubMetricsHelper.GetDownloadCount | src/repo_metrics/metrics/github.py:104-131 | the sum of all asset download counts over the pages before the first empty page, or "Failed to get info for owner/repo" when that page or an earlier one is not 200; pages 1..k+1 are requested, each with per_page 100 and the token header |
| GitHub.GitHubMetricsHelper.GetReleaseDownloadCounts | src/repo_metrics/metrics/github.py:62-93 | each release's tag is assigned the sum of its assets' counts, in listing order, with the same error case and the same requests as the download count |
| GitHub.GitHubMetricsHelper.GetRepoInfo | src/repo_metrics/metrics/github.py:37-51 | on a 200, the repository object with `download_count` set to the release total and all other fields kept; a non-200 repository or releases response is an error; no releases page is requested after a failed repository request |
| GitHub.GitHubMetricsHelper.GetRepoTraffic | src/repo_metrics/metrics/github.py:157-184 | the loops compute the traffic specification: clone table, view join, optional yesterday cut, one row per timestamp |
| GitHub.LastPoint | src/repo_metrics/metrics/github.py:158-167 | the last point with a given timestamp, absent exactly when no point has it |
| GitHub.SetViews | src/repo_metrics/metrics/github.py:163-165 | setting `views` and `unique views` on a joined entry replaces any earlier view counts and keeps the clone counts |
| GitHub.TrafficTableLookup | src/repo_metrics/metrics/github.py:157-167 | each timestamp's entry holds the counts of its last clone point, then those of its last view point; absent when neither list has it |
| GitHub.TrafficTableKeys | src/repo_metrics/metrics/github.py:157-167 | timestamps come clone timestamps first, then view-only timestamps, each once, in first-seen order |
| GitHub.TrafficReportAll | src/repo_metrics/metrics/github.py:181-184 | without `only_yesterday`: one row per distinct timestamp in that order, each starting with its own `timestamp` then its clone and view counts |
| GitHub.TrafficReportYesterday | src/repo_metrics/metrics/github.py:169-179 | with `only_yesterday`: exactly the row for `yesterday` when some point has that timestamp, else "Traffic data for yesterday not found" |
| GitHub.LastRelease | src/repo_metrics/metrics/github.py:84-89 | the last release with a given tag, absent exactly when no release has it |
| GitHub.ReleaseCountsLookup | src/repo_metrics/metrics/github.py:84-89 | each tag maps to the total of the last release with that tag (0 when that release has no assets); tags appear once, in first-seen order |
| GitHub.CountsAddUpToTotal | src/repo_metrics/metrics/github.py:68-131 | for releases that carry a `tag_name`, both page loops fail on the same pages; with no repeated tag, the per-release counts add up to the repository download count |
| GitHub.ReleaseCountsTwoTags | tests/unit/metrics/test_github.py:93-116 | releases v1.0 (assets 10 and 20) and v1.1 (asset 5) give {v1.0: 30, v1.1: 5} |
| JsonOutputs.PyAdd | src/repo_metrics/output/json_output.py:25 | two arrays concatenate; an array with a non-array, or any mapping, is a `TypeError` |
| JsonOutputs.JsonOutput.constructor | src/repo_metrics/output/json_output.py:8-10 | the writer keeps its path and append flag |
| JsonOutputs.JsonOutput.Write | src/repo_metrics/output/json_output.py:19-28 | the store becomes the write specification's result; on an exception the store is unchanged |
| JsonOutputs.JsonWriteOnlyTarget | src/repo_metrics/output/json_output.py:21-28 | only the file at the writer's path changes, and it exists afterwards |
| JsonOutputs.JsonOverwrite | src/repo_metrics/output/json_output.py:27-28 | without append the file holds exactly the data, whatever it held before |
| JsonOutputs.JsonAppendArray | src/repo_metrics/output/json_output.py:19-25 | appending to an array file (a missing file reads as `[]`): the length is the sum, the old items are an unchanged prefix, and the new items follow exactly as given |
| JsonOutputs.JsonAppendErrors | src/repo_metrics/output/json_output.py:20-25 | an existing file that is not JSON is a decoding error; array against non-array data is a type error |
| JsonOutputs.JsonAppendTwice | src/repo_metrics/output/json_output.py:19-28 | two appends in a row give the same file as one append of both batches |
| CsvOutputs.CsvOutput.constructor | src/repo_metrics/output/csv_output.py:9-17 | the writer keeps its path and append flag |
| CsvOutputs.CsvOutput.Write | src/repo_metrics/output/csv_output.py:25-34 | the store becomes the CSV write specification's result for the flattened record |
| CsvOutputs.CsvWriteOnlyTarget | src/repo_metrics/output/csv_output.py:30 | only the file at the writer's path changes, and it exists afterwards |
| CsvOutputs.RowAligned | src/repo_metrics/output/csv_output.py:28-34 | the header is the flattened keys, each once, in insertion order; the row's cells line up with it, hold the flattened values, and none is a mapping |
| CsvOutputs.FlatRecordRow | src/repo_metrics/output/csv_output.py:28-34 | a record that is already flat is written with its own keys and values |
| CsvOutputs.CsvOverwrite | src/repo_metrics/output/csv_output.py:25-34 | without append the file becomes exactly the header line followed by the one row |
| CsvOutputs.CsvAppend | src/repo_metrics/output/csv_output.py:25-34 | with append the earlier lines are kept unchanged and exactly one row, no header, follows them; a missing file gets just the row |
| CsvOutputs.AppendKeepsFirstHeader | src/repo_metrics/output/csv_output.py:30-34 | writing {name, value} and then appending {name, extra_field} leaves the first header and adds the second row in its own key order |

## Left out

- **The network.** `requests.get`, `requests.post` and the `response.json()` decoding are not modelled. So are the status-code checks of the installation and traffic endpoints (`metrics/github.py:207-296`). The model takes the responses as inputs.
- **The GitHub App token chain** (`metrics/github.py:146-151, 186-254`): RS256 JWT signing, `time.time`, the installation id and the access token. These are cryptography, a clock and network calls.
- **The date.** `datetime.now()` and `strftime` (`metrics/github.py:171-174`) are a clock; the formatted `yesterday` timestamp is a parameter.
- **Malformed responses.** A release without `assets`, an asset without `download_count`, or a traffic point without its fields would raise `KeyError`. A release without `tag_name` raises `KeyError` only in `get_release_download_counts` (`metrics/github.py:85`); `__get_download_count` never reads the tag (`metrics/github.py:125-127`). The model's response types always carry these fields, so that difference between the two loops is not represented.
- **`Settings`** (`settings.py`): environment variables and key files. The token is the constructor's parameter.
- **`metrics/dockerhub.py`**: a single network call. The Docker Hub record enters the model only as a `Record` given to `filter`.
- **The command modules** (`get/command.py`, `github_download_stats/command.py`, `github_traffic_stats/command.py`, `__main__.py`): option parsing and glue. Only their label lists are used, in `Preprocess.GetLabelsSeparated` and `Preprocess.DownloadStatsLabelsSeparated`.
- **`output/json.py`** is an older overwrite-only JSON writer, the same as `JsonOutput` without append. `output/output_type.py` is an enum and an abstract base class with no behaviour.
- **Serialisation.** JSON indentation, CSV quoting and escaping, and the text form of numbers are not modelled. A file holds a parsed JSON document or a list of CSV lines. Text that is neither is `OtherText`, for example after CSV lines are appended to a JSON file.
- **JSON numbers.** Only integers are represented; JSON floats are not. Python `+` in the JSON append is modelled for lists, strings, integers and booleans.
- **CSV header reconciliation and rewriting of earlier rows.** Some tests expect this, but the code does not do it, so neither does the model.
- **`load_from_json_file` file access.** Opening and parsing the file is I/O; the model starts from the parsed document. A `github_fields` or `dockerhub_fields` entry that is neither null nor a list of strings is stored unchanged by the original. The model, whose configuration holds lists of names only, reports it as a `ConfigError`. A document that is not an object would fail in `.get`; the model reports that as a `ConfigError` too.
