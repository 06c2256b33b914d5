# cryo: logs dataset, run reports and Python helpers in Dafny

cryo extracts blockchain data into columnar files. This project models four
parts of it and proves properties of the model:

- **The logs dataset** (`crates/freeze/src/datasets/logs.rs`). The `LogColumns`
  accumulator is a class whose column fields are sequences. `ProcessLogs`
  appends each log that carries all four identifiers (block number,
  transaction hash, transaction index, log index) as one row. Each field goes
  only into the columns the schema requests. Topic slots 0 to 3 hold the
  log's topics, or nothing where the log has fewer. The decoder output for
  the whole batch is then merged into the event columns. The method is proved
  against the functions `StoreLogs` and `EventColumns`. Lemmas about those
  functions give the per-column effect of a batch, the rows it adds, the
  invariant that every requested column has `nRows` cells, and how event
  columns accumulate. The descriptor (name, column types, default sort) is
  modelled as constant tables.
- **Run reports** (`crates/freeze/src/types/reports.rs`):
  - where a report goes: the override directory, or `.cryo/reports` inside the
    output directory;
  - its file name: the start time as `%Y-%m-%d_%H-%M-%S`, prefixed
    `incomplete_` when there is no summary;
  - the flattened run summary;
  - the version string;
  - how `write_report` chains the steps and their error messages.

  File-system and serialisation outcomes are parameters (the `Io` record).
  The file name is proved to read back into the start time and the
  completeness flag.
- **CLI arguments from Python** (`crates/python/python/cryo/_args.py`):
  - the block-range string and its parser, with a round trip for integer
    bounds;
  - `parse_cli_args`, which writes `blocks`, the format flag and `no_verbose`
    into the keyword arguments.
- **Dataset files from Python** (`crates/python/python/cryo/_filesystem.py`):
  - `get_glob`: network resolution, then the file-name template, then the data
    directory, each with its error. A shell-glob matcher shows that the glob
    matches every file of the dataset.
  - `get_file_list`: never hands the label on.
  - `scan`: refuses extra keyword arguments.

Supporting modules:

- `Wrappers`: `Option` and `Result`.
- `Decimal`: Python's `str`/`int` on integers, and zero-padded fields.
- `Paths`: POSIX path joining. Rust's `Path::join` and Python's `os.path.join`
  agree there.
- `PyRuntime`: the Python exceptions involved, `str.split` on one character,
  and `str.format` with named fields.

## Model

| member | source | states |
|---|---|---|
| LogsDataset.DefaultSort | crates/freeze/src/datasets/logs.rs:55-57 | the default sort has two keys, `block_number` first, each a declared `UInt32` column |
| LogsDataset.DescriptorTables | crates/freeze/src/datasets/logs.rs:31-57 | for the descriptor queries `Name`, `ColumnTypes` and `DefaultSort`: name is `logs`, sort is `[block_number, log_index]`, every stored column except `address` is declared, and the table adds `contract_address` and `chain_id` and nothing else |
| LogsDataset.LogColumns.constructor | crates/freeze/src/datasets/logs.rs:12-27 | the default accumulator has no rows, empty columns and no event columns |
| LogsDataset.ProcessLogs | crates/freeze/src/datasets/logs.rs:94-132 | the new fixed columns are `StoreLogs` of the old ones over the batch, and the new event columns are the old ones merged with the decoder's output for the whole batch (untouched without a decoder); if every requested column had `nRows` cells before, it has after |
| LogsDataset.StoreLogRow | crates/freeze/src/datasets/logs.rs:95-122 | one iteration of the per-log loop equals `StoreLog` and leaves the event columns alone |
| LogsDataset.StoreTopicSlots | crates/freeze/src/datasets/logs.rs:107-121 | the four-slot topic loop stores slot `i` of the log into `topic<i>` for each requested slot, and touches nothing else |
| LogsDataset.ExtendEventColumns | crates/freeze/src/datasets/logs.rs:126-131 | extending entry by entry equals `MergeDecoded` and leaves the fixed columns alone |
| LogsDataset.TransformByBlock | crates/freeze/src/datasets/logs.rs:72-74 | `process_logs` with the schema registered for `Logs` |
| LogsDataset.TransformByTransaction | crates/freeze/src/datasets/logs.rs:87-90 | `process_logs` with the schema registered for `Logs` |
| LogsDataset.TransformsAgree | crates/freeze/src/datasets/logs.rs:62-91 | both collection strategies, each on a default accumulator, produce the same columns: `StoreLogs` from empty and the decoded batch |
| LogsDataset.StoreLogEffect | crates/freeze/src/datasets/logs.rs:95-121 | a log missing an identifier changes nothing; an identified one adds one row and exactly one value (the field, or the topic slot) to each requested column and nothing to the others |
| LogsDataset.TopicSlotPresence | crates/freeze/src/datasets/logs.rs:108-113 | slot `i` is present iff the log has more than `i` topics, and then holds topic `i` |
| LogsDataset.ExtraTopicsIgnored | crates/freeze/src/datasets/logs.rs:108-121 | topics past the fourth do not affect what is stored |
| LogsDataset.StoreLogColumn | crates/freeze/src/datasets/logs.rs:95-121 | through `Store` (the `store!` gate), one log appends its cell to a fixed column iff it is identified and the column is requested |
| LogsDataset.StoreLogsColumn | crates/freeze/src/datasets/logs.rs:95-123 | after a batch a requested column is its old content followed by one cell per identified log in batch order; an unrequested one is unchanged |
| LogsDataset.StoreLogsRows | crates/freeze/src/datasets/logs.rs:95-99 | a batch adds exactly one row per identified log |
| LogsDataset.StoreLogsKeepsRowUnit | crates/freeze/src/datasets/logs.rs:95-123 | if every requested column has `nRows` cells before a batch, it does after |
| LogsDataset.UnrequestedColumnsStayEmpty | crates/freeze/src/datasets/logs.rs:100-121 | from the default accumulator, a column the schema does not request stays empty |
| LogsDataset.MergeDecodedAt | crates/freeze/src/datasets/logs.rs:128-130 | a name is an event column after the merge iff it was before or was decoded, and its values are the old ones followed by all decoded values for it in order |
| LogsDataset.MergeDecodedConcat | crates/freeze/src/datasets/logs.rs:128-130 | merging two decoder outputs in turn equals merging their concatenation |
| LogsDataset.SuccessiveBatchesAccumulate | crates/freeze/src/datasets/logs.rs:128-130 | over two batches an event column holds the first batch's values, then the second's |
| LogsDataset.EventColumnsOfBatch | crates/freeze/src/datasets/logs.rs:125-131 | without a decoder the event columns are unchanged; with one, membership and values follow the decoder's output for the whole batch, dropped logs included |
| Reports.TimeTailRoundTrip | crates/freeze/src/types/reports.rs:39-40 | the `-%m-%d_%H-%M-%S` part reads back into month, day, hour, minute and second |
| Reports.YearRoundTrip | crates/freeze/src/types/reports.rs:39-40 | `%Y` is at least four characters, starts with a sign or a digit, and reads back into the year |
| Reports.TimestampRoundTrip | crates/freeze/src/types/reports.rs:39-40 | the start time formatted by `FormatTimestamp` reads back into the start time |
| Reports.ReportDir | crates/freeze/src/types/reports.rs:31-34 | the override directory when set; otherwise the output directory and `.cryo/reports` joined by one `/` unless the base is empty or already ends in one |
| Reports.GetReportPath | crates/freeze/src/types/reports.rs:25-49 | fails with "could not create report dir" iff the directory cannot be created; otherwise the report directory and the file name joined by one `/` unless the base is empty or already ends in one |
| Reports.ReportFilenameRoundTrip | crates/freeze/src/types/reports.rs:39-45 | the file name `ReportFilename` builds reads back into the start time and whether the run completed |
| Reports.StemRoundTrip | crates/freeze/src/types/reports.rs:41-45 | the `.json` suffix and the `incomplete_` prefix around a timestamp are undone exactly |
| Reports.CompleteAndIncompleteDiffer | crates/freeze/src/types/reports.rs:41-48 | for one environment the complete and the incomplete report paths differ |
| Reports.SerializeSummary | crates/freeze/src/types/reports.rs:81-110 | `n_skipped` counts the skipped partitions; completed paths are the paths of the completed partitions, and errored paths those of the errored entries whose partition is known |
| Reports.ErroredPathsOfKnown | crates/freeze/src/types/reports.rs:94-107 | `filter_map` then `flatten` over errored entries equals listing the known partitions |
| Reports.PartitionPathsMembership | crates/freeze/src/types/reports.rs:87-93 | a path is listed iff some listed partition resolves to it |
| Reports.PartitionPathsConcat | crates/freeze/src/types/reports.rs:87-93 | the paths of a concatenation of partitions are the concatenated paths, in order |
| Reports.SummaryExample | crates/freeze/src/types/reports.rs:81-110 | a summary with an errored entry of unknown partition lists only the known partition's paths and counts two skips |
| Reports.CryoVersionRoundTrip | crates/freeze/src/types/reports.rs:112-118 | for a package version without `_`, the version string `CryoVersion` builds splits at its first `__` into the version and the description (or "unknown") |
| Reports.BuildReport | crates/freeze/src/types/reports.rs:58-65 | the report has results iff a summary is given, and then they are the serialised summary; its version is the version string; the command and arguments are copied from the environment |
| Reports.WriteReport | crates/freeze/src/types/reports.rs:51-79 | the first failing step gives the error: "could not serialize report", then `get_report_path`'s error, then "could not create report file", then "could not write report data"; when all succeed, the result is the path `get_report_path` gives for "complete iff summary given" |
| Reports.WriteReportNaming | crates/freeze/src/types/reports.rs:51-79 | a written report's path ends with a file name that reads back into the start time and whether a summary was given |
| Decimal.NatToStringRoundTrip | crates/python/python/cryo/_args.py:43 | the decimal digits of a natural number denote it |
| Decimal.ZeroPadRoundTrip | crates/freeze/src/types/reports.rs:40 | zero padding keeps the value |
| Decimal.ParseInt | crates/python/python/cryo/_args.py:54 | `int()` on ASCII text without whitespace or `_` accepts exactly an optional sign followed by at least one digit (the conversion limit is not modelled) |
| Decimal.IntToStringRoundTrip | crates/python/python/cryo/_args.py:43-54 | `int(str(i)) == i` |
| Paths.Join | crates/freeze/src/types/reports.rs:48 | an absolute component replaces the base; a relative one follows the base after one `/`, which is left out exactly when the base is empty or already ends in one |
| Paths.JoinRelativeAppends | crates/freeze/src/types/reports.rs:48 | joining relative names onto one base puts the same prefix in front, so different names give different paths |
| PyRuntime.Split | crates/python/python/cryo/_args.py:53 | one part more than separators, no part containing the separator, and the parts joined with the separator give back the text |
| PyRuntime.SplitAtSeparator | crates/python/python/cryo/_args.py:53 | `(a + sep + b).split(sep) == [a, b]` when neither side contains `sep` |
| PyRuntime.Format | crates/python/python/cryo/_filesystem.py:43-47 | fails iff some field of the template has no value, and then with a `KeyError` naming a missing key |
| PyRuntime.FormatConcat | crates/python/python/cryo/_filesystem.py:43-47 | formatting a template in two parts formats each part and joins them, the first error winning |
| CliArgs.GetBlocksStr | crates/python/python/cryo/_args.py:38-49 | the given bounds around one `:`, empty text for a missing bound |
| CliArgs.ParseBlocksStr | crates/python/python/cryo/_args.py:52-54 | unpacking fails iff the text does not have exactly one `:`; otherwise it succeeds iff both parts are integer literals, with their values, and the error names the first part that is not |
| CliArgs.NoColonInInt | crates/python/python/cryo/_args.py:43 | the text of an integer has no `:` |
| CliArgs.BlocksStrRoundTrip | crates/python/python/cryo/_args.py:38-54 | two integer bounds survive `get_blocks_str` then `parse_blocks_str` |
| CliArgs.OpenRangeDoesNotParse | crates/python/python/cryo/_args.py:44-54 | a range with a missing bound is refused by `parse_blocks_str` (empty literal) |
| CliArgs.ParseCliArgs | crates/python/python/cryo/_args.py:11-35 | raises "unknown file_format" iff the format is not parquet, json or csv; otherwise the new keys are exactly `blocks`, `no_verbose` and the format's flag, with their values, and the other keys keep theirs |
| Filesystem.ResolveNetwork | crates/python/python/cryo/_filesystem.py:29-36 | a name is used as given; a chain id fails with "network name not found" iff the lookup knows it not, otherwise gives the looked-up name |
| Filesystem.DataDir | crates/python/python/cryo/_filesystem.py:50-54 | `data_dir` when given, else `cryo_root` joined with the network name, else "must specify cryo_root or data_dir" |
| Filesystem.GetGlob | crates/python/python/cryo/_filesystem.py:15-58 | fails iff the network is unknown, a label is given, or no directory is; errors in that order; a success is the directory joined with `{network}__{datatype}__*.{filetype}`, whatever the block range |
| Filesystem.FileGlobFormat | crates/python/python/cryo/_filesystem.py:38-47 | the unlabelled template formats to `{network}__{datatype}__*.{filetype}`; the labelled one raises `KeyError('label')` |
| Filesystem.LabelledGlobRaises | crates/python/python/cryo/_filesystem.py:41-47 | a labelled call raises `KeyError('label')` even with a data directory |
| Filesystem.GetGlobIntended | crates/python/python/cryo/_filesystem.py:15-58 | with the label handed to the template: fails only for an unknown network or a missing directory, and a labelled glob carries `{label}__` |
| Filesystem.IntendedGlobFormat | crates/python/python/cryo/_filesystem.py:38-47 | both templates format without error once the label is supplied |
| Filesystem.IntendedAgreesWithoutLabel | crates/python/python/cryo/_filesystem.py:39-47 | without a label the corrected and the written `get_glob` agree |
| Filesystem.Matches | crates/python/python/cryo/_filesystem.py:84 | the matching `glob.glob` applies: a pattern without `*` matches only itself |
| Filesystem.MatchesPrefix | crates/python/python/cryo/_filesystem.py:84 | a common literal prefix keeps a glob match |
| Filesystem.StarRun | crates/python/python/cryo/_filesystem.py:84 | `*` matches any run of characters without `/` |
| Filesystem.GlobMatchesChunkFiles | crates/python/python/cryo/_filesystem.py:58 | a joined glob matches the joined file name that has a `/`-free run in place of `*` |
| Filesystem.GlobMatchesDatasetFiles | crates/python/python/cryo/_filesystem.py:39-58 | the unlabelled glob matches every `{network}__{datatype}__<name>.{filetype}` file in the data directory |
| Filesystem.IntendedGlobMatchesLabelledFiles | crates/python/python/cryo/_filesystem.py:41-58 | the corrected glob matches every file of the labelled dataset in the data directory |
| Filesystem.GlobFiles | crates/python/python/cryo/_filesystem.py:84 | a path is listed iff it exists and matches the glob |
| Filesystem.GetFileList | crates/python/python/cryo/_filesystem.py:61-84 | the label is not handed on: fails only as the unlabelled `get_glob` does, and otherwise lists exactly the existing paths that the unlabelled glob matches |
| Filesystem.Scan | crates/python/python/cryo/_filesystem.py:87-109 | any extra keyword argument raises "args not accepted for scan(): ..."; otherwise exactly the result of `get_file_list`, its error included |

## Left out

- The async `extract` functions of both collection strategies: RPC transport.
- `to_df` and the polars data frames built from the columns: generated code, not shown. The `store!` macro is not shown either. It is modelled as appending iff the schema lists the column under the field's name. So the address column is gated by `address`, while the descriptor declares `contract_address`. `LogsDataset.DescriptorTables` records that mismatch and the model does not try to resolve it.
- The ABI decoding inside `parse_log_from_event`: the decoder is a function parameter of the schema. Its `Token` values are kept opaque, and array and tuple tokens are not distinguished.
- LogsDataset.ProcessLogs: `as_u32` is assumed not to truncate. Identified logs must have block numbers and indices below 2^32, which is the only range in which the source stores the value unchanged. `n_rows` is unbounded rather than `u64`.
- LogsDataset.TransformByBlock: a schema map without `Logs` panics in the source. Here it is a precondition.
- LogsDataset.TransformByTransaction: the same panic, the same precondition.
- Reports.GetReportPath: chrono's conversion from UTC to local time is left out. The environment carries the start time already in local time. `create_dir_all`, `File::create`, `write_all` and `serde_json::to_string` are modelled as outcomes supplied in `Io`, not as effects.
- Reports.SerializeSummary: `get_paths` returns a `HashMap`, whose value order is unspecified. It is modelled as a function returning a sequence, so the model fixes one order. The `u64` cast of the skip count is not modelled.
- Reports.CryoVersionRoundTrip: the build-time `CARGO_PKG_VERSION` and `GIT_DESCRIPTION` are a parameter.
- Decimal.ParseInt: Python's `int()` also accepts surrounding whitespace, `_` between digits and non-ASCII digits. These are not modelled, so `CliArgs.ParseBlocksStr` rejects such text where Python would accept it. CPython's default limit on integer string conversion (4300 digits) is not modelled either: past it `int()` raises `ValueError`, and the model accepts the text.
- Decimal.IntToStringRoundTrip: holds for every integer in the model. In CPython `str(i)` raises `ValueError` past the 4300-digit conversion limit, so there the round trip holds only up to it.
- CliArgs.BlocksStrRoundTrip: holds for every pair of integers in the model. In CPython `get_blocks_str` raises `ValueError` for a bound past the 4300-digit conversion limit.
- CliArgs.ParseCliArgs: the keyword-argument dict is fresh for each call in Python. It is modelled as a map in, map out. Whether the `blocks` entry already written is visible after the exception is not observable and not modelled.
- Filesystem.ReprList: `str(list(...))` picks double quotes for keys containing `'` and escapes special characters. Keys are assumed plain and are always written in single quotes.
- Filesystem.GlobFiles: `glob.glob` is modelled as a filter over a given listing of existing paths, for the one wildcard `*`. These are not modelled:
  - `?` and `[...]` in directory names;
  - hidden-file rules;
  - the order in which the file system lists paths.
- Filesystem.Scan: `pl.scan_parquet` is left out; the model returns the file list it would read. `mesc.get_network_name` is a function parameter.
- `is_data_saved` raises `NotImplementedError` unconditionally; it is not modelled.
- Windows path semantics: joins are POSIX only.
- `_collect.py`, `_get.py` and `__init__.py` (dispatch, I/O and re-exports) are not part of this model; neither are the argument types of `_spec.py`.
- Concurrent accumulation of the run summary does not appear in these files and is not modelled.

## Findings

| source | as written | input that shows it | evidently intended | confidence | as-written member | corrected member |
|---|---|---|---|---|---|---|
| crates/python/python/cryo/_filesystem.py:41-47 | with a label, the template holds `{label}` but `format` is given no `label`, so `get_glob` raises `KeyError('label')` | `get_glob('logs', network='ethereum', label='v1', data_dir='/data')` | `/data/ethereum__logs__v1__*.parquet`, a glob matching the labelled dataset's files | not executed | Filesystem.LabelledGlobRaises | Filesystem.IntendedGlobMatchesLabelledFiles |
