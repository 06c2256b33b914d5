/** The `logs` dataset of the freeze crate: raw event logs turned into a
    schema-gated columnar accumulator (`LogColumns`), by-block and
    by-transaction `transform`, and the constant descriptor tables. */
module LogsDataset {
  import opened Wrappers

  newtype Byte = x: int | 0 <= x < 256
  type Bytes = seq<Byte>

  /** The range of Rust's `u32`, the width the three index columns are narrowed to. */
  newtype U32 = x: int | 0 <= x < 0x1_0000_0000

  /** A raw log as the RPC source returns it. The four identifying fields are
      absent on logs that are not yet part of a block. */
  datatype Log = Log(
    blockNumber: Option<nat>,
    transactionHash: Option<Bytes>,
    transactionIndex: Option<nat>,
    logIndex: Option<nat>,
    address: Bytes,
    topics: seq<Bytes>,
    data: Bytes)

  /** The presence check that decides whether a log becomes a row. */
  predicate Identified(log: Log) {
    && log.blockNumber.Some?
    && log.transactionHash.Some?
    && log.transactionIndex.Some?
    && log.logIndex.Some?
  }

  /** `as_u32` is defined on the three numeric ids of an identified log. */
  predicate FitsU32(log: Log) {
    Identified(log) ==>
      && log.blockNumber.value < 0x1_0000_0000
      && log.transactionIndex.value < 0x1_0000_0000
      && log.logIndex.value < 0x1_0000_0000
  }

  predicate AllFitU32(logs: seq<Log>) {
    forall j | 0 <= j < |logs| :: FitsU32(logs[j])
  }

  /** A value decoded from an event's data against its ABI. */
  datatype Token =
    | AddressToken(Bytes)
    | BytesToken(Bytes)
    | IntToken(int)
    | UintToken(nat)
    | BoolToken(bool)
    | StringToken(string)

  /** The ABI decoder a schema may carry: `parse_log_from_event` yields, for
      each event field it decodes, the field's name and its values. */
  datatype LogDecoder = LogDecoder(parseLogFromEvent: seq<Log> -> seq<(string, seq<Token>)>)

  /** A schema (`Table`): the requested column names and the optional decoder. */
  datatype Table = Table(columns: set<string>, logDecoder: Option<LogDecoder>)

  /** The keys of the schema map; only `Logs` is looked up here. */
  datatype Datatype = Blocks | Transactions | Logs | Traces

  datatype ColumnType = UInt32 | UInt64 | Binary

  // ---------------------------------------------------------------------
  // Descriptor queries (constant tables)

  function DatatypeOf(): Datatype {
    Logs
  }

  function Name(): string {
    "logs"
  }

  function ColumnTypes(): map<string, ColumnType> {
    map[
      "block_number" := UInt32,
      "transaction_index" := UInt32,
      "log_index" := UInt32,
      "transaction_hash" := Binary,
      "contract_address" := Binary,
      "topic0" := Binary,
      "topic1" := Binary,
      "topic2" := Binary,
      "topic3" := Binary,
      "data" := Binary,
      "chain_id" := UInt64
    ]
  }

  /** The default sort key: declared columns of integer type, block first. */
  function DefaultSort(): (r: seq<string>)
    ensures |r| == 2 && r[0] == "block_number"
    ensures forall c <- r :: c in ColumnTypes() && ColumnTypes()[c] == UInt32
  {
    ["block_number", "log_index"]
  }

  // ---------------------------------------------------------------------
  // The fixed columns, as a value

  /** Names under which `store!` gates each fixed column (the field names). */
  const FixedColumnNames: set<string> := {
    "block_number", "transaction_index", "log_index", "transaction_hash",
    "address", "data", "topic0", "topic1", "topic2", "topic3"
  }

  /** The row counter and the fixed columns of a `LogColumns`. */
  datatype FixedColumns = FixedColumns(
    nRows: nat,
    blockNumber: seq<U32>,
    transactionIndex: seq<U32>,
    logIndex: seq<U32>,
    transactionHash: seq<Bytes>,
    address: seq<Bytes>,
    data: seq<Bytes>,
    topic0: seq<Option<Bytes>>,
    topic1: seq<Option<Bytes>>,
    topic2: seq<Option<Bytes>>,
    topic3: seq<Option<Bytes>>)

  function EmptyColumns(): FixedColumns {
    FixedColumns(0, [], [], [], [], [], [], [], [], [], [])
  }

  /** `store!`: append `v` to the column named `name` iff the schema requests it. */
  function Store<T>(schema: Table, name: string, column: seq<T>, v: T): seq<T> {
    if name in schema.columns then column + [v] else column
  }

  /** The value topic slot `i` receives from a log. */
  function TopicSlot(log: Log, i: nat): Option<Bytes> {
    if i < |log.topics| then Some(log.topics[i]) else None
  }

  /** A kept log's row count and its six non-topic stores. */
  function StoreFields(c: FixedColumns, schema: Table, log: Log): FixedColumns
    requires Identified(log) && FitsU32(log)
  {
    c.(nRows := c.nRows + 1,
       blockNumber := Store(schema, "block_number", c.blockNumber, log.blockNumber.value as U32),
       transactionIndex := Store(schema, "transaction_index", c.transactionIndex, log.transactionIndex.value as U32),
       logIndex := Store(schema, "log_index", c.logIndex, log.logIndex.value as U32),
       transactionHash := Store(schema, "transaction_hash", c.transactionHash, log.transactionHash.value),
       address := Store(schema, "address", c.address, log.address),
       data := Store(schema, "data", c.data, log.data))
  }

  /** The stores of topic slots `0 .. n-1`. */
  function StoreTopics(c: FixedColumns, schema: Table, log: Log, n: nat): FixedColumns
    requires n <= 4
  {
    c.(topic0 := if 0 < n then Store(schema, "topic0", c.topic0, TopicSlot(log, 0)) else c.topic0,
       topic1 := if 1 < n then Store(schema, "topic1", c.topic1, TopicSlot(log, 1)) else c.topic1,
       topic2 := if 2 < n then Store(schema, "topic2", c.topic2, TopicSlot(log, 2)) else c.topic2,
       topic3 := if 3 < n then Store(schema, "topic3", c.topic3, TopicSlot(log, 3)) else c.topic3)
  }

  /** One iteration of the per-log loop of `process_logs`. */
  function StoreLog(c: FixedColumns, schema: Table, log: Log): FixedColumns
    requires FitsU32(log)
  {
    if Identified(log) then StoreTopics(StoreFields(c, schema, log), schema, log, 4) else c
  }

  /** The per-log loop of `process_logs` over a whole batch, in order. */
  function StoreLogs(c: FixedColumns, schema: Table, logs: seq<Log>): FixedColumns
    requires AllFitU32(logs)
  {
    if logs == [] then c
    else StoreLog(StoreLogs(c, schema, logs[..|logs| - 1]), schema, logs[|logs| - 1])
  }

  // ---------------------------------------------------------------------
  // The decoded event columns

  /** The value of a missing key is the empty column (`entry(k).or_default()`). */
  function Get(cols: map<string, seq<Token>>, k: string): seq<Token> {
    if k in cols then cols[k] else []
  }

  /** Extending `event_cols` by each decoded (name, values) pair in turn. */
  function MergeDecoded(cols: map<string, seq<Token>>, decoded: seq<(string, seq<Token>)>): map<string, seq<Token>> {
    if decoded == [] then cols
    else
      var merged := MergeDecoded(cols, decoded[..|decoded| - 1]);
      var (k, v) := decoded[|decoded| - 1];
      merged[k := Get(merged, k) + v]
  }

  /** The event columns after `process_logs`: merged decoder output, or untouched without a decoder. */
  function EventColumns(cols: map<string, seq<Token>>, schema: Table, logs: seq<Log>): map<string, seq<Token>> {
    match schema.logDecoder
    case None => cols
    case Some(decoder) => MergeDecoded(cols, decoder.parseLogFromEvent(logs))
  }

  /** The names a decoder output mentions. */
  function DecodedNames(decoded: seq<(string, seq<Token>)>): set<string> {
    set j | 0 <= j < |decoded| :: decoded[j].0
  }

  /** All values a decoder output gives for `k`, in order. */
  function ValuesFor(decoded: seq<(string, seq<Token>)>, k: string): seq<Token> {
    if decoded == [] then []
    else
      var (name, v) := decoded[|decoded| - 1];
      ValuesFor(decoded[..|decoded| - 1], k) + (if name == k then v else [])
  }

  // ---------------------------------------------------------------------
  // What the per-log loop does to the fixed columns

  /** A cell of a fixed column, whatever the column's element type. */
  datatype Cell = IndexCell(U32) | BinaryCell(Bytes) | TopicCell(Option<Bytes>)

  function IndexCells(s: seq<U32>): (r: seq<Cell>)
    ensures |r| == |s| && forall i | 0 <= i < |s| :: r[i] == IndexCell(s[i])
  {
    seq(|s|, i requires 0 <= i < |s| => IndexCell(s[i]))
  }

  function BinaryCells(s: seq<Bytes>): (r: seq<Cell>)
    ensures |r| == |s| && forall i | 0 <= i < |s| :: r[i] == BinaryCell(s[i])
  {
    seq(|s|, i requires 0 <= i < |s| => BinaryCell(s[i]))
  }

  function TopicCells(s: seq<Option<Bytes>>): (r: seq<Cell>)
    ensures |r| == |s| && forall i | 0 <= i < |s| :: r[i] == TopicCell(s[i])
  {
    seq(|s|, i requires 0 <= i < |s| => TopicCell(s[i]))
  }

  /** The fixed column stored under `name`, as cells. */
  function Column(c: FixedColumns, name: string): seq<Cell>
    requires name in FixedColumnNames
  {
    if name == "block_number" then IndexCells(c.blockNumber)
    else if name == "transaction_index" then IndexCells(c.transactionIndex)
    else if name == "log_index" then IndexCells(c.logIndex)
    else if name == "transaction_hash" then BinaryCells(c.transactionHash)
    else if name == "address" then BinaryCells(c.address)
    else if name == "data" then BinaryCells(c.data)
    else if name == "topic0" then TopicCells(c.topic0)
    else if name == "topic1" then TopicCells(c.topic1)
    else if name == "topic2" then TopicCells(c.topic2)
    else TopicCells(c.topic3)
  }

  /** The cell an identified log contributes to the column `name`. */
  function RowCell(log: Log, name: string): Cell
    requires Identified(log) && FitsU32(log) && name in FixedColumnNames
  {
    if name == "block_number" then IndexCell(log.blockNumber.value as U32)
    else if name == "transaction_index" then IndexCell(log.transactionIndex.value as U32)
    else if name == "log_index" then IndexCell(log.logIndex.value as U32)
    else if name == "transaction_hash" then BinaryCell(log.transactionHash.value)
    else if name == "address" then BinaryCell(log.address)
    else if name == "data" then BinaryCell(log.data)
    else if name == "topic0" then TopicCell(TopicSlot(log, 0))
    else if name == "topic1" then TopicCell(TopicSlot(log, 1))
    else if name == "topic2" then TopicCell(TopicSlot(log, 2))
    else TopicCell(TopicSlot(log, 3))
  }

  function CountIdentified(logs: seq<Log>): nat {
    if logs == [] then 0
    else CountIdentified(logs[..|logs| - 1]) + (if Identified(logs[|logs| - 1]) then 1 else 0)
  }

  /** The cells a batch contributes to the column `name`: one per identified log, in order. */
  function Cells(logs: seq<Log>, name: string): (r: seq<Cell>)
    requires AllFitU32(logs) && name in FixedColumnNames
    ensures |r| == CountIdentified(logs)
  {
    if logs == [] then []
    else
      var last := logs[|logs| - 1];
      Cells(logs[..|logs| - 1], name) + (if Identified(last) then [RowCell(last, name)] else [])
  }

  /** Every requested fixed column holds exactly one cell per row. */
  predicate RowUnit(c: FixedColumns, schema: Table) {
    forall name | name in FixedColumnNames && name in schema.columns :: |Column(c, name)| == c.nRows
  }

  /** A log that lacks an identifying field changes nothing; an identified one
      adds one row and exactly one value to each requested column, leaving
      the other columns as they were. */
  lemma StoreLogEffect(c: FixedColumns, schema: Table, log: Log)
    requires FitsU32(log)
    ensures !Identified(log) ==> StoreLog(c, schema, log) == c
    ensures Identified(log) ==>
      var r := StoreLog(c, schema, log);
      && r.nRows == c.nRows + 1
      && r.blockNumber == c.blockNumber + (if "block_number" in schema.columns then [log.blockNumber.value as U32] else [])
      && r.transactionIndex == c.transactionIndex + (if "transaction_index" in schema.columns then [log.transactionIndex.value as U32] else [])
      && r.logIndex == c.logIndex + (if "log_index" in schema.columns then [log.logIndex.value as U32] else [])
      && r.transactionHash == c.transactionHash + (if "transaction_hash" in schema.columns then [log.transactionHash.value] else [])
      && r.address == c.address + (if "address" in schema.columns then [log.address] else [])
      && r.data == c.data + (if "data" in schema.columns then [log.data] else [])
      && r.topic0 == c.topic0 + (if "topic0" in schema.columns then [TopicSlot(log, 0)] else [])
      && r.topic1 == c.topic1 + (if "topic1" in schema.columns then [TopicSlot(log, 1)] else [])
      && r.topic2 == c.topic2 + (if "topic2" in schema.columns then [TopicSlot(log, 2)] else [])
      && r.topic3 == c.topic3 + (if "topic3" in schema.columns then [TopicSlot(log, 3)] else [])
  {
  }

  /** Slot `i` holds the `i`-th topic when the log has one and is absent otherwise. */
  lemma TopicSlotPresence(log: Log, i: nat)
    requires i < 4
    ensures TopicSlot(log, i).Some? <==> i < |log.topics|
    ensures i < |log.topics| ==> TopicSlot(log, i).value == log.topics[i]
  {
  }

  /** Topics past the fourth never reach a column. */
  lemma ExtraTopicsIgnored(c: FixedColumns, schema: Table, log: Log)
    requires FitsU32(log) && |log.topics| > 4
    ensures StoreLog(c, schema, log) == StoreLog(c, schema, log.(topics := log.topics[..4]))
  {
  }

  lemma {:induction false} StoreLogColumn(c: FixedColumns, schema: Table, log: Log, name: string)
    requires FitsU32(log) && name in FixedColumnNames
    ensures Column(StoreLog(c, schema, log), name)
         == Column(c, name) + (if Identified(log) && name in schema.columns then [RowCell(log, name)] else [])
  {
    if Identified(log) {
      var r := StoreLog(c, schema, log);
      StoreLogEffect(c, schema, log);
      var added := name in schema.columns;
      if name in {"block_number", "transaction_index", "log_index"} {
        var v := if name == "block_number" then log.blockNumber.value as U32
                 else if name == "transaction_index" then log.transactionIndex.value as U32
                 else log.logIndex.value as U32;
        IndexCellsAppend(if name == "block_number" then c.blockNumber
                         else if name == "transaction_index" then c.transactionIndex
                         else c.logIndex, v, added);
      } else if name in {"transaction_hash", "address", "data"} {
        var v := if name == "transaction_hash" then log.transactionHash.value
                 else if name == "address" then log.address else log.data;
        BinaryCellsAppend(if name == "transaction_hash" then c.transactionHash
                          else if name == "address" then c.address else c.data, v, added);
      } else {
        var i := if name == "topic0" then 0 else if name == "topic1" then 1 else if name == "topic2" then 2 else 3;
        TopicCellsAppend(if i == 0 then c.topic0 else if i == 1 then c.topic1 else if i == 2 then c.topic2 else c.topic3,
                         TopicSlot(log, i), added);
      }
    }
  }

  lemma IndexCellsAppend(s: seq<U32>, v: U32, added: bool)
    ensures IndexCells(s + (if added then [v] else [])) == IndexCells(s) + (if added then [IndexCell(v)] else [])
  {
  }

  lemma BinaryCellsAppend(s: seq<Bytes>, v: Bytes, added: bool)
    ensures BinaryCells(s + (if added then [v] else [])) == BinaryCells(s) + (if added then [BinaryCell(v)] else [])
  {
  }

  lemma TopicCellsAppend(s: seq<Option<Bytes>>, v: Option<Bytes>, added: bool)
    ensures TopicCells(s + (if added then [v] else [])) == TopicCells(s) + (if added then [TopicCell(v)] else [])
  {
  }

  /** After a batch, column `name` is its old content followed, if requested,
      by one cell per identified log in batch order; an unrequested column is
      left untouched. */
  lemma {:induction false} StoreLogsColumn(c: FixedColumns, schema: Table, logs: seq<Log>, name: string)
    requires AllFitU32(logs) && name in FixedColumnNames
    ensures Column(StoreLogs(c, schema, logs), name)
         == Column(c, name) + (if name in schema.columns then Cells(logs, name) else [])
  {
    if logs != [] {
      var init, last := logs[..|logs| - 1], logs[|logs| - 1];
      assert AllFitU32(init);
      StoreLogsColumn(c, schema, init, name);
      StoreLogColumn(StoreLogs(c, schema, init), schema, last, name);
    }
  }

  /** A batch adds one row per identified log, and none for the others. */
  lemma {:induction false} StoreLogsRows(c: FixedColumns, schema: Table, logs: seq<Log>)
    requires AllFitU32(logs)
    ensures StoreLogs(c, schema, logs).nRows == c.nRows + CountIdentified(logs)
  {
    if logs != [] {
      var init := logs[..|logs| - 1];
      assert AllFitU32(init);
      StoreLogsRows(c, schema, init);
    }
  }

  /** The row-unit invariant: if every requested column has `nRows` cells
      before a batch, it does after. */
  lemma StoreLogsKeepsRowUnit(c: FixedColumns, schema: Table, logs: seq<Log>)
    requires AllFitU32(logs) && RowUnit(c, schema)
    ensures RowUnit(StoreLogs(c, schema, logs), schema)
  {
    StoreLogsRows(c, schema, logs);
    forall name | name in FixedColumnNames && name in schema.columns
      ensures |Column(StoreLogs(c, schema, logs), name)| == StoreLogs(c, schema, logs).nRows
    {
      StoreLogsColumn(c, schema, logs, name);
    }
  }

  /** Starting from the default accumulator, an unrequested column is never populated. */
  lemma UnrequestedColumnsStayEmpty(schema: Table, logs: seq<Log>)
    requires AllFitU32(logs)
    ensures forall name | name in FixedColumnNames && name !in schema.columns ::
      Column(StoreLogs(EmptyColumns(), schema, logs), name) == []
  {
    forall name | name in FixedColumnNames && name !in schema.columns
      ensures Column(StoreLogs(EmptyColumns(), schema, logs), name) == []
    {
      StoreLogsColumn(EmptyColumns(), schema, logs, name);
    }
  }

  // ---------------------------------------------------------------------
  // What the decoder step does to the event columns

  /** A name is an event column after the merge iff it was one before or the
      decoder produced it; its values are the old ones (none for a new name)
      followed by everything decoded for it, in order. */
  lemma {:induction false} MergeDecodedAt(cols: map<string, seq<Token>>, decoded: seq<(string, seq<Token>)>, k: string)
    ensures k in MergeDecoded(cols, decoded) <==> k in cols || k in DecodedNames(decoded)
    ensures Get(MergeDecoded(cols, decoded), k) == Get(cols, k) + ValuesFor(decoded, k)
  {
    if decoded != [] {
      var init, last := decoded[..|decoded| - 1], decoded[|decoded| - 1];
      MergeDecodedAt(cols, init, k);
      DecodedNamesLast(decoded);
      var merged := MergeDecoded(cols, init);
      assert MergeDecoded(cols, decoded) == merged[last.0 := Get(merged, last.0) + last.1];
      assert ValuesFor(decoded, k) == ValuesFor(init, k) + (if last.0 == k then last.1 else []);
    }
  }

  lemma DecodedNamesLast(decoded: seq<(string, seq<Token>)>)
    requires decoded != []
    ensures DecodedNames(decoded) == DecodedNames(decoded[..|decoded| - 1]) + {decoded[|decoded| - 1].0}
  {
    var init := decoded[..|decoded| - 1];
    forall x
      ensures x in DecodedNames(decoded) <==> x in DecodedNames(init) || x == decoded[|decoded| - 1].0
    {
      if x in DecodedNames(decoded) {
        var j :| 0 <= j < |decoded| && decoded[j].0 == x;
        if j < |init| {
          assert init[j] == decoded[j];
        }
      }
      if x in DecodedNames(init) {
        var j :| 0 <= j < |init| && init[j].0 == x;
        assert decoded[j] == init[j];
      }
    }
  }

  /** Merging two decoder outputs one after the other is merging their concatenation. */
  lemma {:induction false} MergeDecodedConcat(cols: map<string, seq<Token>>, d1: seq<(string, seq<Token>)>, d2: seq<(string, seq<Token>)>)
    ensures MergeDecoded(cols, d1 + d2) == MergeDecoded(MergeDecoded(cols, d1), d2)
  {
    if d2 == [] {
      assert d1 + d2 == d1;
    } else {
      assert (d1 + d2)[..|d1 + d2| - 1] == d1 + d2[..|d2| - 1];
      MergeDecodedConcat(cols, d1, d2[..|d2| - 1]);
    }
  }

  /** Two successive batches that both decode field `k` leave one column for
      `k` holding the first batch's values, then the second's. */
  lemma SuccessiveBatchesAccumulate(cols: map<string, seq<Token>>, d1: seq<(string, seq<Token>)>, d2: seq<(string, seq<Token>)>, k: string)
    ensures Get(MergeDecoded(MergeDecoded(cols, d1), d2), k) == Get(cols, k) + ValuesFor(d1, k) + ValuesFor(d2, k)
    ensures |Get(MergeDecoded(MergeDecoded(cols, d1), d2), k)| == |Get(cols, k)| + |ValuesFor(d1, k)| + |ValuesFor(d2, k)|
  {
    MergeDecodedAt(cols, d1, k);
    MergeDecodedAt(MergeDecoded(cols, d1), d2, k);
  }

  /** Without a decoder the event columns are untouched; with one, the
      decoder sees the whole batch, dropped logs included. */
  lemma EventColumnsOfBatch(cols: map<string, seq<Token>>, schema: Table, logs: seq<Log>, k: string)
    ensures schema.logDecoder.None? ==> EventColumns(cols, schema, logs) == cols
    ensures schema.logDecoder.Some? ==>
      var decoded := schema.logDecoder.value.parseLogFromEvent(logs);
      && (k in EventColumns(cols, schema, logs) <==> k in cols || k in DecodedNames(decoded))
      && Get(EventColumns(cols, schema, logs), k) == Get(cols, k) + ValuesFor(decoded, k)
  {
    if schema.logDecoder.Some? {
      MergeDecodedAt(cols, schema.logDecoder.value.parseLogFromEvent(logs), k);
    }
  }

  /** The descriptor tables: the default sort keys and every stored column
      except `address` are declared; the descriptor declares the address
      column as `contract_address`, and `chain_id`, which is not stored here. */
  lemma DescriptorTables()
    ensures Name() == "logs" && DatatypeOf() == Logs
    ensures DefaultSort() == ["block_number", "log_index"]
    ensures forall name | name in FixedColumnNames && name != "address" :: name in ColumnTypes()
    ensures "address" !in ColumnTypes()
    ensures "contract_address" in ColumnTypes() && "chain_id" in ColumnTypes()
    ensures forall name | name in ColumnTypes() && name !in FixedColumnNames :: name in {"contract_address", "chain_id"}
  {
  }

  // ---------------------------------------------------------------------
  // The accumulator

  /** `LogColumns`: the row counter, one growable sequence per fixed column,
      and the decoded event columns. */
  class LogColumns {
    var nRows: nat
    var blockNumber: seq<U32>
    var transactionIndex: seq<U32>
    var logIndex: seq<U32>
    var transactionHash: seq<Bytes>
    var address: seq<Bytes>
    var data: seq<Bytes>
    var topic0: seq<Option<Bytes>>
    var topic1: seq<Option<Bytes>>
    var topic2: seq<Option<Bytes>>
    var topic3: seq<Option<Bytes>>
    var eventCols: map<string, seq<Token>>

    /** `#[derive(Default)]`: no rows, every column empty, no event columns. */
    constructor ()
      ensures Fixed() == EmptyColumns() && eventCols == map[]
    {
      nRows := 0;
      blockNumber, transactionIndex, logIndex := [], [], [];
      transactionHash, address, data := [], [], [];
      topic0, topic1, topic2, topic3 := [], [], [], [];
      eventCols := map[];
    }

    function Fixed(): FixedColumns
      reads this
    {
      FixedColumns(nRows, blockNumber, transactionIndex, logIndex, transactionHash,
                   address, data, topic0, topic1, topic2, topic3)
    }
  }

  /** `process_logs`: store every identified log as one row, then merge the
      decoder's output for the whole batch into the event columns. */
  method ProcessLogs(logs: seq<Log>, columns: LogColumns, schema: Table)
    requires AllFitU32(logs)
    modifies columns
    ensures columns.Fixed() == StoreLogs(old(columns.Fixed()), schema, logs)
    ensures columns.eventCols == EventColumns(old(columns.eventCols), schema, logs)
    ensures RowUnit(old(columns.Fixed()), schema) ==> RowUnit(columns.Fixed(), schema)
  {
    ghost var start := columns.Fixed();
    for k := 0 to |logs|
      invariant columns.Fixed() == StoreLogs(start, schema, logs[..k])
      invariant columns.eventCols == old(columns.eventCols)
    {
      assert logs[..k + 1][..k] == logs[..k];
      StoreLogRow(logs[k], columns, schema);
    }
    assert logs[..|logs|] == logs;
    if RowUnit(start, schema) {
      StoreLogsKeepsRowUnit(start, schema, logs);
    }

    if schema.logDecoder.Some? {
      ExtendEventColumns(columns, schema.logDecoder.value.parseLogFromEvent(logs));
    }
  }

  /** The body of the per-log loop of `process_logs`. */
  method StoreLogRow(log: Log, columns: LogColumns, schema: Table)
    requires FitsU32(log)
    modifies columns
    ensures columns.Fixed() == StoreLog(old(columns.Fixed()), schema, log)
    ensures columns.eventCols == old(columns.eventCols)
  {
    if log.blockNumber.Some? && log.transactionHash.Some? && log.transactionIndex.Some? && log.logIndex.Some? {
      var bn, tx, ti, li := log.blockNumber.value, log.transactionHash.value, log.transactionIndex.value, log.logIndex.value;
      columns.nRows := columns.nRows + 1;
      columns.blockNumber := Store(schema, "block_number", columns.blockNumber, bn as U32);
      columns.transactionIndex := Store(schema, "transaction_index", columns.transactionIndex, ti as U32);
      columns.logIndex := Store(schema, "log_index", columns.logIndex, li as U32);
      columns.transactionHash := Store(schema, "transaction_hash", columns.transactionHash, tx);
      columns.address := Store(schema, "address", columns.address, log.address);
      columns.data := Store(schema, "data", columns.data, log.data);
      assert columns.Fixed() == StoreFields(old(columns.Fixed()), schema, log);
      StoreTopicSlots(log, columns, schema);
    }
  }

  /** The topic loop of `process_logs`: slots 0 to 3, each the log's topic or nothing. */
  method StoreTopicSlots(log: Log, columns: LogColumns, schema: Table)
    modifies columns
    ensures columns.Fixed() == StoreTopics(old(columns.Fixed()), schema, log, 4)
    ensures columns.eventCols == old(columns.eventCols)
  {
    ghost var mid := columns.Fixed();
    for i := 0 to 4
      invariant columns.Fixed() == StoreTopics(mid, schema, log, i)
      invariant columns.eventCols == old(columns.eventCols)
    {
      var topic := if i < |log.topics| then Some(log.topics[i]) else None;
      match i {
        case 0 => columns.topic0 := Store(schema, "topic0", columns.topic0, topic);
        case 1 => columns.topic1 := Store(schema, "topic1", columns.topic1, topic);
        case 2 => columns.topic2 := Store(schema, "topic2", columns.topic2, topic);
        case 3 => columns.topic3 := Store(schema, "topic3", columns.topic3, topic);
        case _ => assert false;  // the "invalid number of topics" panic
      }
    }
  }

  /** The decoder step of `process_logs`: extend (or create) the event column
      of each decoded name by its values, pair by pair. */
  method ExtendEventColumns(columns: LogColumns, decoded: seq<(string, seq<Token>)>)
    modifies columns
    ensures columns.Fixed() == old(columns.Fixed())
    ensures columns.eventCols == MergeDecoded(old(columns.eventCols), decoded)
  {
    for j := 0 to |decoded|
      invariant columns.Fixed() == old(columns.Fixed())
      invariant columns.eventCols == MergeDecoded(old(columns.eventCols), decoded[..j])
    {
      var (key, values) := decoded[j];
      var existing := if key in columns.eventCols then columns.eventCols[key] else [];
      columns.eventCols := columns.eventCols[key := existing + values];
      assert decoded[..j + 1][..j] == decoded[..j];
    }
    assert decoded[..|decoded|] == decoded;
  }

  /** `CollectByBlock::transform`: `process_logs` with the schema registered for logs. */
  method TransformByBlock(response: seq<Log>, columns: LogColumns, schemas: map<Datatype, Table>)
    requires Logs in schemas
    requires AllFitU32(response)
    modifies columns
    ensures columns.Fixed() == StoreLogs(old(columns.Fixed()), schemas[Logs], response)
    ensures columns.eventCols == EventColumns(old(columns.eventCols), schemas[Logs], response)
  {
    ProcessLogs(response, columns, schemas[Logs]);
  }

  /** `CollectByTransaction::transform`: the same call through a named schema. */
  method TransformByTransaction(response: seq<Log>, columns: LogColumns, schemas: map<Datatype, Table>)
    requires Logs in schemas
    requires AllFitU32(response)
    modifies columns
    ensures columns.Fixed() == StoreLogs(old(columns.Fixed()), schemas[Logs], response)
    ensures columns.eventCols == EventColumns(old(columns.eventCols), schemas[Logs], response)
  {
    var schema := schemas[Logs];
    ProcessLogs(response, columns, schema);
  }

  /** Both strategies, each on a fresh accumulator, build the same columns. */
  method TransformsAgree(response: seq<Log>, schemas: map<Datatype, Table>)
    returns (byBlock: (FixedColumns, map<string, seq<Token>>), byTransaction: (FixedColumns, map<string, seq<Token>>))
    requires Logs in schemas
    requires AllFitU32(response)
    ensures byBlock == byTransaction
    ensures byBlock.0 == StoreLogs(EmptyColumns(), schemas[Logs], response)
    ensures byBlock.1 == EventColumns(map[], schemas[Logs], response)
  {
    var a := new LogColumns();
    TransformByBlock(response, a, schemas);
    var b := new LogColumns();
    TransformByTransaction(response, b, schemas);
    byBlock := (a.Fixed(), a.eventCols);
    byTransaction := (b.Fixed(), b.eventCols);
  }
}
