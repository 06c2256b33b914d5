/** Locating saved datasets from Python (`cryo/_filesystem.py`): the glob
    that names a dataset's files, the listing of the files it matches, and
    the guard of `scan`. */
module Filesystem {
  import opened Wrappers
  import opened Paths
  import opened PyRuntime

  /** The `network` argument: a network name, or a chain id to look up. */
  datatype Network = NetworkName(name: string) | ChainId(id: int)

  /** The chain-id lookup, `mesc.get_network_name`, is a parameter. */
  type NetworkNames = int -> Option<string>

  predicate Unresolvable(network: Network, networkNames: NetworkNames) {
    network.ChainId? && networkNames(network.id).None?
  }

  /** A name is used as given; a chain id is looked up and must be known. */
  function ResolveNetwork(network: Network, networkNames: NetworkNames): (r: Result<string, PyError>)
    ensures r.Err? <==> Unresolvable(network, networkNames)
    ensures r.Err? ==> r.error == Exception("network name not found")
    ensures r.Ok? && network.NetworkName? ==> r.value == network.name
    ensures r.Ok? && network.ChainId? ==> networkNames(network.id) == Some(r.value)
  {
    match network
    case NetworkName(name) => Ok(name)
    case ChainId(id) =>
      match networkNames(id)
      case None => Err(Exception("network name not found"))
      case Some(name) => Ok(name)
  }

  /** The file-name template, with a `{label}` field when a label is given. */
  function FileTemplate(datasetLabel: Option<string>): seq<Piece> {
    match datasetLabel
    case None => [Field("network"), Lit("__"), Field("datatype"), Lit("__*."), Field("filetype")]
    case Some(_) => [Field("network"), Lit("__"), Field("datatype"), Lit("__"), Field("label"), Lit("__*."), Field("filetype")]
  }

  /** The named values the template is formatted with: there is no `label` among them. */
  function GlobArgs(networkName: string, dataset: string, filetype: string): map<string, string> {
    map["network" := networkName, "datatype" := dataset, "filetype" := filetype]
  }

  /** An explicit data directory wins; otherwise the network's directory under the root. */
  function DataDir(networkName: string, cryoRoot: Option<Path>, dataDir: Option<Path>): (r: Result<Path, PyError>)
    ensures r.Err? <==> cryoRoot.None? && dataDir.None?
    ensures r.Err? ==> r.error == Exception("must specify cryo_root or data_dir")
    ensures r.Ok? && dataDir.Some? ==> r.value == dataDir.value
    ensures r.Ok? && dataDir.None? ==> r.value == Join(cryoRoot.value, networkName)
  {
    match dataDir
    case Some(dir) => Ok(dir)
    case None =>
      match cryoRoot
      case Some(root) => Ok(Join(root, networkName))
      case None => Err(Exception("must specify cryo_root or data_dir"))
  }

  /** The glob of a dataset's files, the way `get_glob` builds it: network,
      then the file-name template, then the directory. The block range is
      accepted and never used. */
  function GetGlob(dataset: string, network: Network, datasetLabel: Option<string>,
                   cryoRoot: Option<Path>, dataDir: Option<Path>,
                   startBlock: Option<int>, endBlock: Option<int>, filetype: string,
                   networkNames: NetworkNames): (r: Result<Path, PyError>)
    ensures r.Err? <==> Unresolvable(network, networkNames) || datasetLabel.Some? || (cryoRoot.None? && dataDir.None?)
    ensures Unresolvable(network, networkNames) ==> r == Err(Exception("network name not found"))
    ensures !Unresolvable(network, networkNames) && datasetLabel.Some? ==> r == Err(KeyError("label"))
    ensures !Unresolvable(network, networkNames) && datasetLabel.None? && cryoRoot.None? && dataDir.None? ==>
              r == Err(Exception("must specify cryo_root or data_dir"))
    ensures r.Ok? ==>
              var name := ResolveNetwork(network, networkNames).value;
              var dir := if dataDir.Some? then dataDir.value else Join(cryoRoot.value, name);
              r.value == Join(dir, FileGlob(name, dataset, None, filetype))
  {
    match ResolveNetwork(network, networkNames)
    case Err(e) => Err(e)
    case Ok(name) =>
      FileGlobFormat(name, dataset, filetype, datasetLabel);
      match Format(FileTemplate(datasetLabel), GlobArgs(name, dataset, filetype))
      case Err(e) => Err(e)
      case Ok(fileGlob) =>
        match DataDir(name, cryoRoot, dataDir)
        case Err(e) => Err(e)
        case Ok(dir) => Ok(Join(dir, fileGlob))
  }

  /** Formatting the template: the plain glob without a label, and a
      `KeyError` for the missing `label` value with one. */
  lemma FileGlobFormat(networkName: string, dataset: string, filetype: string, datasetLabel: Option<string>)
    ensures datasetLabel.None? ==>
              Format(FileTemplate(datasetLabel), GlobArgs(networkName, dataset, filetype))
                == Ok(FileGlob(networkName, dataset, None, filetype))
    ensures datasetLabel.Some? ==>
              Format(FileTemplate(datasetLabel), GlobArgs(networkName, dataset, filetype)) == Err(KeyError("label"))
  {
    var args := GlobArgs(networkName, dataset, filetype);
    var t := FileTemplate(datasetLabel);
    if datasetLabel.None? {
      var tail := FormatTail("datatype", dataset, filetype, args);
      assert t == [Field("network"), Lit("__")] + tail;
      FieldThenSeparator("network", tail, args);
      UnlabelledGlobText(networkName, dataset, filetype);
    } else {
      assert t == t[..4] + t[4..];
      FormatConcat(t[..4], t[4..], args);
      assert t[4..] == [Field("label")] + t[5..];
      FormatConcat([Field("label")], t[5..], args);
      FormatPiece(Field("label"), args);
      FormatSteps(t[..4], args);
    }
  }

  /** The end of a template, formatted: `{field}__*.{filetype}`. */
  lemma FormatTail(field: string, value: string, filetype: string, args: map<string, string>) returns (tail: seq<Piece>)
    requires field in args && args[field] == value
    requires "filetype" in args && args["filetype"] == filetype
    ensures tail == [Field(field), Lit("__*."), Field("filetype")]
    ensures Format(tail, args) == Ok(value + ("__*." + filetype))
  {
    tail := [Field(field), Lit("__*."), Field("filetype")];
    FormatPiece(Field("filetype"), args);
    FormatCons(Lit("__*."), [Field("filetype")], args);
    FormatCons(Field(field), [Lit("__*."), Field("filetype")], args);
    assert [Lit("__*.")] + [Field("filetype")] == tail[1..];
    assert [Field(field)] + tail[1..] == tail;
  }

  /** A field and a `__` separator in front of a template. */
  lemma FieldThenSeparator(field: string, rest: seq<Piece>, args: map<string, string>)
    requires field in args && Format(rest, args).Ok?
    ensures Format([Field(field), Lit("__")] + rest, args) == Ok(args[field] + ("__" + Format(rest, args).value))
  {
    FormatCons(Lit("__"), rest, args);
    FormatCons(Field(field), [Lit("__")] + rest, args);
    assert [Field(field), Lit("__")] + rest == [Field(field)] + ([Lit("__")] + rest);
  }

  /** Formats a template piece by piece when every field has a value. */
  lemma {:induction false} FormatSteps(t: seq<Piece>, args: map<string, string>)
    requires forall i | 0 <= i < |t| :: t[i].Field? ==> t[i].name in args
    ensures Format(t, args).Ok?
    ensures t != [] ==> Format(t, args) == Ok(Substitute(t[0], args).value + Format(t[1..], args).value)
  {
    if t != [] {
      assert t == [t[0]] + t[1..];
      FormatConcat([t[0]], t[1..], args);
      FormatPiece(t[0], args);
      FormatSteps(t[1..], args);
    }
  }

  /** `get_glob` as its authors evidently meant it: the label is handed to
      the template, so a labelled dataset gets a glob with its label. */
  function GetGlobIntended(dataset: string, network: Network, datasetLabel: Option<string>,
                           cryoRoot: Option<Path>, dataDir: Option<Path>,
                           startBlock: Option<int>, endBlock: Option<int>, filetype: string,
                           networkNames: NetworkNames): (r: Result<Path, PyError>)
    ensures r.Err? <==> Unresolvable(network, networkNames) || (cryoRoot.None? && dataDir.None?)
    ensures Unresolvable(network, networkNames) ==> r == Err(Exception("network name not found"))
    ensures !Unresolvable(network, networkNames) && cryoRoot.None? && dataDir.None? ==>
              r == Err(Exception("must specify cryo_root or data_dir"))
    ensures r.Ok? ==>
              var name := ResolveNetwork(network, networkNames).value;
              var dir := if dataDir.Some? then dataDir.value else Join(cryoRoot.value, name);
              r.value == Join(dir, FileGlob(name, dataset, datasetLabel, filetype))
  {
    match ResolveNetwork(network, networkNames)
    case Err(e) => Err(e)
    case Ok(name) =>
      var args := if datasetLabel.Some? then GlobArgs(name, dataset, filetype)["label" := datasetLabel.value]
                  else GlobArgs(name, dataset, filetype);
      IntendedGlobFormat(name, dataset, filetype, datasetLabel);
      match Format(FileTemplate(datasetLabel), args)
      case Err(e) => assert false; Err(e)
      case Ok(fileGlob) =>
        match DataDir(name, cryoRoot, dataDir)
        case Err(e) => Err(e)
        case Ok(dir) => Ok(Join(dir, fileGlob))
  }

  /** The label and its separator, or nothing. */
  function LabelPart(datasetLabel: Option<string>): string {
    match datasetLabel
    case None => ""
    case Some(l) => l + "__"
  }

  /** What every file name of a dataset starts with:
      `{network}__{datatype}__`, then `{label}__` for a labelled one. */
  function FileStem(networkName: string, dataset: string, datasetLabel: Option<string>): string {
    networkName + "__" + dataset + "__" + LabelPart(datasetLabel)
  }

  /** The file-name glob: the stem, `*`, then `.{filetype}`. */
  function FileGlob(networkName: string, dataset: string, datasetLabel: Option<string>, filetype: string): string {
    FileStem(networkName, dataset, datasetLabel) + "*." + filetype
  }

  lemma UnlabelledGlobText(networkName: string, dataset: string, filetype: string)
    ensures networkName + ("__" + (dataset + ("__*." + filetype))) == FileGlob(networkName, dataset, None, filetype)
  {
    assert "__*." == "__" + "" + "*.";
  }

  lemma LabelledGlobText(networkName: string, dataset: string, l: string, filetype: string)
    ensures networkName + ("__" + (dataset + ("__" + (l + ("__*." + filetype)))))
         == FileGlob(networkName, dataset, Some(l), filetype)
  {
    assert "__*." == "__" + "*.";
  }

  lemma IntendedGlobFormat(networkName: string, dataset: string, filetype: string, datasetLabel: Option<string>)
    ensures var args := if datasetLabel.Some? then GlobArgs(networkName, dataset, filetype)["label" := datasetLabel.value]
                        else GlobArgs(networkName, dataset, filetype);
            Format(FileTemplate(datasetLabel), args)
              == Ok(FileGlob(networkName, dataset, datasetLabel, filetype))
  {
    if datasetLabel.None? {
      FileGlobFormat(networkName, dataset, filetype, datasetLabel);
    } else {
      var l := datasetLabel.value;
      var args := GlobArgs(networkName, dataset, filetype)["label" := l];
      var tail := FormatTail("label", l, filetype, args);
      FieldThenSeparator("datatype", tail, args);
      FieldThenSeparator("network", [Field("datatype"), Lit("__")] + tail, args);
      assert FileTemplate(datasetLabel) == [Field("network"), Lit("__")] + ([Field("datatype"), Lit("__")] + tail);
      LabelledGlobText(networkName, dataset, l, filetype);
    }
  }

  /** Without a label the written and the intended glob are the same. */
  lemma IntendedAgreesWithoutLabel(dataset: string, network: Network, cryoRoot: Option<Path>, dataDir: Option<Path>,
                                   startBlock: Option<int>, endBlock: Option<int>, filetype: string,
                                   networkNames: NetworkNames)
    ensures GetGlobIntended(dataset, network, None, cryoRoot, dataDir, startBlock, endBlock, filetype, networkNames)
         == GetGlob(dataset, network, None, cryoRoot, dataDir, startBlock, endBlock, filetype, networkNames)
  {
    var r := GetGlob(dataset, network, None, cryoRoot, dataDir, startBlock, endBlock, filetype, networkNames);
    if r.Err? {
      assert Unresolvable(network, networkNames) || (cryoRoot.None? && dataDir.None?);
    }
  }

  /** A lookup that knows no chain id. */
  function NoChainIds(id: int): Option<string> {
    None
  }

  /** A labelled call of `get_glob` raises even when a directory is given. */
  lemma LabelledGlobRaises()
    ensures GetGlob("logs", NetworkName("ethereum"), Some("v1"), None, Some("/data"), None, None, "parquet",
                    NoChainIds) == Err(KeyError("label"))
  {
  }

  /** Shell-style matching of a glob against a path, for the one wildcard
      the globs here use: `*` matches any run of characters without `/`. */
  predicate Matches(pattern: string, path: string)
    ensures Matches(pattern, path) && '*' !in pattern ==> path == pattern
    decreases |pattern| + |path|
  {
    if pattern == [] then path == []
    else if pattern[0] == '*' then
      Matches(pattern[1..], path) || (path != [] && path[0] != '/' && Matches(pattern, path[1..]))
    else path != [] && path[0] == pattern[0] && Matches(pattern[1..], path[1..])
  }

  /** A common prefix can be put in front of a pattern and a path it matches. */
  lemma {:induction false} MatchesPrefix(prefix: string, pattern: string, path: string)
    requires Matches(pattern, path)
    ensures Matches(prefix + pattern, prefix + path)
  {
    if prefix != [] {
      var p, t := prefix + pattern, prefix + path;
      MatchesPrefix(prefix[1..], pattern, path);
      assert p[1..] == prefix[1..] + pattern;
      assert t[1..] == prefix[1..] + path;
      assert p[0] == t[0] == prefix[0];
      if prefix[0] == '*' {
        // `*` first matches nothing, then the `*` of the path
        assert Matches(p, t[1..]);
      }
    } else {
      assert prefix + pattern == pattern && prefix + path == path;
    }
  }

  /** `*` matches any run of characters without `/`. */
  lemma {:induction false} StarRun(run: string, pattern: string, path: string)
    requires '/' !in run
    requires Matches(pattern, path)
    ensures Matches(['*'] + pattern, run + path)
  {
    var p := ['*'] + pattern;
    assert p[1..] == pattern;
    if run != [] {
      assert run[0] in run;
      StarRun(run[1..], pattern, path);
      assert (run + path)[1..] == run[1..] + path;
      assert (run + path)[0] == run[0];
    } else {
      assert run + path == path;
    }
  }

  lemma {:induction false} MatchesItself(s: string)
    ensures Matches(s, s)
  {
    MatchesPrefix(s, [], []);
    assert s + [] == s;
  }

  /** The glob matches every file of the dataset in its directory: the
      file name has `*`'s place taken by any run without `/`. */
  lemma GlobMatchesChunkFiles(dir: Path, stem: string, run: string, filetype: string)
    requires stem != [] && '/' !in run
    ensures Matches(Join(dir, stem + "*." + filetype), Join(dir, stem + run + "." + filetype))
  {
    var suffix := "." + filetype;
    GlobNameParts(stem, run, filetype);
    MatchesItself(suffix);
    StarRun(run, suffix, suffix);
    JoinKeepsMatch(dir, stem, ['*'] + suffix, run + suffix);
  }

  /** Names that share a non-empty prefix and match after it still match
      once both are joined onto one directory. */
  lemma JoinKeepsMatch(dir: Path, prefix: string, pattern: string, path: string)
    requires prefix != [] && Matches(pattern, path)
    ensures Matches(Join(dir, prefix + pattern), Join(dir, prefix + path))
  {
    if prefix[0] == '/' {
      assert IsAbsolute(prefix + pattern) && IsAbsolute(prefix + path);
      MatchesPrefix(prefix, pattern, path);
    } else {
      JoinRelativePrefix(dir, prefix, pattern);
      JoinRelativePrefix(dir, prefix, path);
      MatchesPrefix(WithSeparator(dir) + prefix, pattern, path);
    }
  }

  lemma GlobNameParts(stem: string, run: string, filetype: string)
    requires stem != []
    ensures stem + "*." + filetype == stem + (['*'] + ("." + filetype))
    ensures stem + run + "." + filetype == stem + (run + ("." + filetype))
    ensures (stem + "*." + filetype)[0] == stem[0] && (stem + run + "." + filetype)[0] == stem[0]
  {
    assert "*." == ['*'] + ".";
  }

  /** Every file the dataset's chunks are saved under matches the glob:
      `{network}__{datatype}__` and any name without `/`, then `.{filetype}`,
      in the data directory. */
  lemma GlobMatchesDatasetFiles(dataset: string, network: Network, cryoRoot: Option<Path>, dataDir: Option<Path>,
                                startBlock: Option<int>, endBlock: Option<int>, filetype: string,
                                networkNames: NetworkNames, run: string)
    requires GetGlob(dataset, network, None, cryoRoot, dataDir, startBlock, endBlock, filetype, networkNames).Ok?
    requires '/' !in run
    ensures var name := ResolveNetwork(network, networkNames).value;
            var dir := if dataDir.Some? then dataDir.value else Join(cryoRoot.value, name);
            Matches(GetGlob(dataset, network, None, cryoRoot, dataDir, startBlock, endBlock, filetype, networkNames).value,
                    Join(dir, FileStem(name, dataset, None) + run + "." + filetype))
  {
    var name := ResolveNetwork(network, networkNames).value;
    var dir := if dataDir.Some? then dataDir.value else Join(cryoRoot.value, name);
    GlobMatchesChunkFiles(dir, FileStem(name, dataset, None), run, filetype);
  }

  /** With the label handed on, the glob matches the labelled dataset's
      files, `{network}__{datatype}__{label}__` and any name without `/`. */
  lemma IntendedGlobMatchesLabelledFiles(dataset: string, network: Network, datasetLabel: Option<string>,
                                         cryoRoot: Option<Path>, dataDir: Option<Path>,
                                         startBlock: Option<int>, endBlock: Option<int>, filetype: string,
                                         networkNames: NetworkNames, run: string)
    requires GetGlobIntended(dataset, network, datasetLabel, cryoRoot, dataDir, startBlock, endBlock, filetype, networkNames).Ok?
    requires '/' !in run
    ensures var name := ResolveNetwork(network, networkNames).value;
            var dir := if dataDir.Some? then dataDir.value else Join(cryoRoot.value, name);
            Matches(GetGlobIntended(dataset, network, datasetLabel, cryoRoot, dataDir, startBlock, endBlock, filetype, networkNames).value,
                    Join(dir, FileStem(name, dataset, datasetLabel) + run + "." + filetype))
  {
    var name := ResolveNetwork(network, networkNames).value;
    var dir := if dataDir.Some? then dataDir.value else Join(cryoRoot.value, name);
    GlobMatchesChunkFiles(dir, FileStem(name, dataset, datasetLabel), run, filetype);
  }

  /** The existing paths a glob matches, in the order they are listed;
      the file system's listing is a parameter. */
  function GlobFiles(pattern: string, existing: seq<Path>): (r: seq<Path>)
    ensures forall p :: p in r <==> p in existing && Matches(pattern, p)
    ensures |r| <= |existing|
  {
    if existing == [] then []
    else
      var rest := GlobFiles(pattern, existing[1..]);
      assert forall p :: p in existing <==> p == existing[0] || p in existing[1..];
      if Matches(pattern, existing[0]) then [existing[0]] + rest else rest
  }

  /** `get_file_list`: the files matching the dataset's glob. The label it
      accepts is not handed on, so the unlabelled glob is used whatever the
      label is, and a labelled call does not raise. */
  function GetFileList(dataset: string, network: Network, datasetLabel: Option<string>,
                       cryoRoot: Option<Path>, dataDir: Option<Path>,
                       startBlock: Option<int>, endBlock: Option<int>, filetype: string,
                       networkNames: NetworkNames, existing: seq<Path>): (r: Result<seq<Path>, PyError>)
    ensures r.Err? <==> Unresolvable(network, networkNames) || (cryoRoot.None? && dataDir.None?)
    ensures r.Err? ==> Err(r.error) == GetGlob(dataset, network, None, cryoRoot, dataDir, startBlock, endBlock, filetype, networkNames)
    ensures r.Ok? ==>
              var glob := GetGlob(dataset, network, None, cryoRoot, dataDir, startBlock, endBlock, filetype, networkNames);
              glob.Ok? && forall p :: p in r.value <==> p in existing && Matches(glob.value, p)
  {
    IntendedAgreesWithoutLabel(dataset, network, cryoRoot, dataDir, startBlock, endBlock, filetype, networkNames);
    match GetGlobIntended(dataset, network, None, cryoRoot, dataDir, startBlock, endBlock, filetype, networkNames)
    case Err(e) => Err(e)
    case Ok(glob) => Ok(GlobFiles(glob, existing))
  }

  /** `str(list(keys))` for plain keys: each in single quotes, separated by `, `. */
  function ReprList(keys: seq<string>): string {
    "[" + ReprItems(keys) + "]"
  }

  function ReprItems(keys: seq<string>): string {
    if keys == [] then ""
    else if |keys| == 1 then "'" + keys[0] + "'"
    else "'" + keys[0] + "', " + ReprItems(keys[1..])
  }

  const ScanArgsMessage := "args not accepted for scan(): "

  /** `scan`: any extra keyword argument is refused, naming the extra keys;
      otherwise the files of `get_file_list`, which are then read lazily. */
  function Scan(dataset: string, network: Network, cryoRoot: Option<Path>, dataDir: Option<Path>,
                startBlock: Option<int>, endBlock: Option<int>, filetype: string, extraKeys: seq<string>,
                networkNames: NetworkNames, existing: seq<Path>): (r: Result<seq<Path>, PyError>)
    ensures extraKeys != [] ==> r.Err? && r.error.Exception? && |ScanArgsMessage| < |r.error.msg|
                                && r.error.msg[..|ScanArgsMessage|] == ScanArgsMessage
    ensures r.Err? <==> extraKeys != [] || Unresolvable(network, networkNames) || (cryoRoot.None? && dataDir.None?)
    ensures r.Ok? ==>
              var glob := GetGlob(dataset, network, None, cryoRoot, dataDir, startBlock, endBlock, filetype, networkNames);
              glob.Ok? && forall p :: p in r.value <==> p in existing && Matches(glob.value, p)
    ensures extraKeys == [] ==>
              r == GetFileList(dataset, network, None, cryoRoot, dataDir, startBlock, endBlock, filetype, networkNames, existing)
  {
    if |extraKeys| > 0 then Err(Exception(ScanArgsMessage + ReprList(extraKeys)))
    else GetFileList(dataset, network, None, cryoRoot, dataDir, startBlock, endBlock, filetype, networkNames, existing)
  }
}
