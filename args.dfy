/** Command-line arguments of the Python package (`cryo/_args.py`): the
    block-range string and the keyword arguments handed to the CLI. */
module CliArgs {
  import opened Wrappers
  import opened Decimal
  import opened PyRuntime

  /** A block reference: a block number or a text such as "latest". */
  datatype BlockRef = BlockNumber(n: int) | BlockTag(text: string)

  /** `str(block)` */
  function BlockText(b: BlockRef): string {
    match b
    case BlockNumber(n) => IntToString(n)
    case BlockTag(text) => text
  }

  /** The text of an optional bound, empty when it is `None`. */
  function BoundText(b: Option<BlockRef>): string {
    match b
    case None => ""
    case Some(x) => BlockText(x)
  }

  /** `get_blocks_str`: the bounds that are given, around one ':'. */
  function GetBlocksStr(start: Option<BlockRef>, end: Option<BlockRef>): (r: string)
    ensures r == BoundText(start) + ":" + BoundText(end)
  {
    if start.Some? && end.Some? then BlockText(start.value) + ":" + BlockText(end.value)
    else if start.Some? then BlockText(start.value) + ":"
    else if end.Some? then ":" + BlockText(end.value)
    else ":"
  }

  /** `parse_blocks_str`: exactly two ':'-separated parts, each an integer literal. */
  function ParseBlocksStr(s: string): (r: Result<(int, int), PyError>)
    ensures r.Ok? ==> Count(s, ':') == 1
    ensures r.Ok? ==> var parts := Split(s, ':');
                      ParseInt(parts[0]) == Some(r.value.0) && ParseInt(parts[1]) == Some(r.value.1)
    ensures r.Err? && r.error.UnpackError? <==> Count(s, ':') != 1
    ensures r.Err? && !r.error.UnpackError? ==> r.error.InvalidIntLiteral? && ParseInt(r.error.text).None?
    ensures Count(s, ':') == 1 ==> var parts := Split(s, ':');
      && (ParseInt(parts[0]).Some? && ParseInt(parts[1]).Some? ==> r.Ok?)
      && (ParseInt(parts[0]).None? ==> r == Err(InvalidIntLiteral(parts[0])))
      && (ParseInt(parts[0]).Some? && ParseInt(parts[1]).None? ==> r == Err(InvalidIntLiteral(parts[1])))
  {
    var parts := Split(s, ':');
    if |parts| != 2 then Err(UnpackError(2, |parts|))
    else
      match ParseInt(parts[0])
      case None => Err(InvalidIntLiteral(parts[0]))
      case Some(start) =>
        match ParseInt(parts[1])
        case None => Err(InvalidIntLiteral(parts[1]))
        case Some(end) => Ok((start, end))
  }

  /** The decimal text of an integer holds no ':'. */
  lemma NoColonInInt(i: int)
    ensures ':' !in IntToString(i)
  {
  }

  /** Two integer bounds survive the trip through the block-range string. */
  lemma BlocksStrRoundTrip(start: int, end: int)
    ensures ParseBlocksStr(GetBlocksStr(Some(BlockNumber(start)), Some(BlockNumber(end)))) == Ok((start, end))
  {
    var a, b := IntToString(start), IntToString(end);
    NoColonInInt(start);
    NoColonInInt(end);
    assert GetBlocksStr(Some(BlockNumber(start)), Some(BlockNumber(end))) == a + [':'] + b;
    SplitAtSeparator(a, b, ':');
    IntToStringRoundTrip(start);
    IntToStringRoundTrip(end);
  }

  /** An open bound leaves an empty part, which `int()` rejects. */
  lemma OpenRangeDoesNotParse(start: Option<int>, end: Option<int>)
    requires start.None? || end.None?
    ensures var s := GetBlocksStr(match start case None => None case Some(n) => Some(BlockNumber(n)),
                                  match end case None => None case Some(n) => Some(BlockNumber(n)));
      ParseBlocksStr(s) == Err(InvalidIntLiteral(""))
  {
    var a := if start.Some? then IntToString(start.value) else "";
    var b := if end.Some? then IntToString(end.value) else "";
    if start.Some? { NoColonInInt(start.value); IntToStringRoundTrip(start.value); }
    if end.Some? { NoColonInInt(end.value); }
    SplitAtSeparator(a, b, ':');
  }

  /** `parse_cli_args`: record the block range, the output-format flag and
      `no_verbose` in the keyword arguments, or raise on an unknown format. */
  method ParseCliArgs(start: Option<BlockRef>, end: Option<BlockRef>, fileFormat: string, verbose: bool,
                      kwargs: map<string, ArgValue>)
    returns (r: Result<map<string, ArgValue>, PyError>)
    ensures r.Err? <==> fileFormat !in {"parquet", "json", "csv"}
    ensures r.Err? ==> r.error == Exception("unknown file_format")
    ensures r.Ok? ==> r.value.Keys == kwargs.Keys + {"blocks", "no_verbose"} + FormatFlags(fileFormat)
    ensures r.Ok? ==> r.value["blocks"] == Strings([GetBlocksStr(start, end)])
    ensures r.Ok? ==> r.value["no_verbose"] == Flag(!verbose)
    ensures r.Ok? ==> forall flag <- FormatFlags(fileFormat) :: r.value[flag] == Flag(true)
    ensures r.Ok? ==> forall k <- kwargs :: k !in {"blocks", "no_verbose"} + FormatFlags(fileFormat) ==> r.value[k] == kwargs[k]
  {
    var args := kwargs;
    args := args["blocks" := Strings([GetBlocksStr(start, end)])];
    if fileFormat == "parquet" {
    } else if fileFormat == "json" {
      args := args["json" := Flag(true)];
    } else if fileFormat == "csv" {
      args := args["csv" := Flag(true)];
    } else {
      return Err(Exception("unknown file_format"));
    }
    args := args["no_verbose" := Flag(!verbose)];
    return Ok(args);
  }

  /** The flag a file format sets: none for parquet, `json` or `csv` for those. */
  function FormatFlags(fileFormat: string): set<string> {
    if fileFormat == "json" then {"json"}
    else if fileFormat == "csv" then {"csv"}
    else {}
  }
}
