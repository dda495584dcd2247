/** The SQL Server tool: a health check, a schema listing folded from the
    catalog, and an arbitrary query materialized into rows of JSON objects.
    The database driver is an input: each of its steps (open the connection,
    begin the transaction, execute, read or load, commit) is given as the
    value that step yields or the message of the exception it raises. Every
    operation returns a value; none of them raises, provided logging, which
    is not modelled, has started. */
module QueryTool {
  import opened Wrappers
  import opened Json

  // ---------------------------------------------------------------------
  // Driver interactions

  /** What an operation does to the connection and its transaction, in order.
      `RolledBack` is the disposal of a transaction that was not committed;
      `Closed` is the disposal of a connection that was opened. */
  datatype Event =
    | Opened
    | Began
    | Executed(sql: string)
    | Loaded
    | Committed
    | RolledBack
    | Closed

  // ---------------------------------------------------------------------
  // HealthCheck

  const OkStatus: string := "Connection is OK"
  const FailedPrefix: string := "Connection failed: "

  /** HealthCheck: `open` is the outcome of building and opening the connection. */
  function HealthCheck(open: Outcome): (status: string)
    ensures status == OkStatus <==> open.Pass?
    ensures open.Fail? ==> |FailedPrefix| <= |status| && status[..|FailedPrefix|] == FailedPrefix
  {
    match open
    case Pass => OkStatus
    case Fail(message) => FailedPrefix + message
  }

  /** How a caller reads a health status back: the failure message, if any. */
  function FailureDetail(status: string): Option<string>
  {
    if |FailedPrefix| <= |status| && status[..|FailedPrefix|] == FailedPrefix
    then Some(status[|FailedPrefix|..])
    else None
  }

  /** The status is the OK string exactly when the connection opened, and a
      failure status gives back the exception's message unchanged. */
  lemma HealthCheckReadBack(open: Outcome)
    ensures HealthCheck(open) == OkStatus <==> open.Pass?
    ensures FailureDetail(HealthCheck(open)) == if open.Pass? then None else Some(open.message)
  {
  }

  // ---------------------------------------------------------------------
  // GetSchema

  /** The catalog query, with its layout collapsed to single spaces. */
  const CatalogQuery: string :=
    "SELECT t.table_schema, t.table_name, c.column_name, c.data_type "
    + "FROM information_schema.tables t JOIN information_schema.columns c "
    + "ON t.table_name = c.table_name AND t.table_schema = c.table_schema "
    + "WHERE t.table_type = 'BASE TABLE';"

  /** One row of the catalog query. */
  datatype CatalogRow = CatalogRow(schema: string, table: string, column: string, dataType: string)

  /** The `{schema, name, type}` descriptor of one column. */
  datatype ColumnInfo = ColumnInfo(schema: string, name: string, dataType: string)

  /** The reader yields `rows`, then either ends (`Pass`) or raises (`Fail`). */
  datatype CatalogReader = CatalogReader(rows: seq<CatalogRow>, end: Outcome)

  datatype SchemaDriver = SchemaDriver(open: Outcome, begin: Outcome, execute: Result<CatalogReader>)

  function Describe(row: CatalogRow): ColumnInfo {
    ColumnInfo(row.schema, row.column, row.dataType)
  }

  /** The table dictionary after reading `rows`: the last row's descriptor is
      appended to the list under its table name, created if absent. */
  function Tables(rows: seq<CatalogRow>): map<string, seq<ColumnInfo>>
    decreases |rows|
  {
    if rows == [] then map[]
    else
      var before := Tables(rows[..|rows| - 1]);
      var row := rows[|rows| - 1];
      var created := if row.table in before then before else before[row.table := []];
      created[row.table := created[row.table] + [Describe(row)]]
  }

  /** The dictionary's key order: table names in order of first appearance. */
  function TableOrder(rows: seq<CatalogRow>): seq<string>
    decreases |rows|
  {
    if rows == [] then []
    else
      var before := TableOrder(rows[..|rows| - 1]);
      var name := rows[|rows| - 1].table;
      if name in before then before else before + [name]
  }

  /** Reference definition: the descriptors of the rows naming table `t`, in row order. */
  function ColumnsOf(rows: seq<CatalogRow>, t: string): seq<ColumnInfo>
    decreases |rows|
  {
    if rows == [] then []
    else (if rows[0].table == t then [Describe(rows[0])] else []) + ColumnsOf(rows[1..], t)
  }

  function TableNames(rows: seq<CatalogRow>): set<string> {
    set i | 0 <= i < |rows| :: rows[i].table
  }

  lemma {:induction false} ColumnsOfSnoc(rows: seq<CatalogRow>, row: CatalogRow, t: string)
    ensures ColumnsOf(rows + [row], t) == ColumnsOf(rows, t) + (if row.table == t then [Describe(row)] else [])
    decreases |rows|
  {
    var whole := rows + [row];
    if rows == [] {
      assert whole == [row] && whole[1..] == [];
    } else {
      assert whole[0] == rows[0];
      assert whole[1..] == rows[1..] + [row];
      ColumnsOfSnoc(rows[1..], row, t);
    }
  }

  /** The key set is the set of table names in the rows, and the key order
      lists each of them exactly once. */
  lemma {:induction false} TableKeys(rows: seq<CatalogRow>)
    ensures Tables(rows).Keys == TableNames(rows)
    ensures Distinct(TableOrder(rows))
    ensures forall t :: t in TableOrder(rows) <==> t in Tables(rows)
    decreases |rows|
  {
    if rows != [] {
      var before := rows[..|rows| - 1];
      TableKeys(before);
      var row := rows[|rows| - 1];
      assert rows == before + [row];
      assert TableNames(rows) == TableNames(before) + {row.table} by {
        forall t | t in TableNames(rows) ensures t in TableNames(before) + {row.table} {
          var i :| 0 <= i < |rows| && rows[i].table == t;
          if i < |before| { assert before[i] == rows[i]; }
        }
        forall t | t in TableNames(before) ensures t in TableNames(rows) {
          var i :| 0 <= i < |before| && before[i].table == t;
          assert rows[i] == before[i];
        }
      }
    }
  }

  /** The index of the first row naming table `t`. */
  function FirstIndex(rows: seq<CatalogRow>, t: string): (r: nat)
    requires t in TableNames(rows)
    ensures r < |rows| && rows[r].table == t
    ensures forall j :: 0 <= j < r ==> rows[j].table != t
    decreases |rows|
  {
    if rows[0].table == t then 0
    else
      assert t in TableNames(rows[1..]) by {
        var i :| 0 <= i < |rows| && rows[i].table == t;
        assert rows[1..][i - 1] == rows[i];
      }
      1 + FirstIndex(rows[1..], t)
  }

  lemma FirstIndexSnoc(before: seq<CatalogRow>, row: CatalogRow, t: string)
    requires t in TableNames(before + [row])
    ensures t in TableNames(before) ==> FirstIndex(before + [row], t) == FirstIndex(before, t)
    ensures t !in TableNames(before) ==> FirstIndex(before + [row], t) == |before|
  {
    var rows := before + [row];
    assert forall j :: 0 <= j < |before| ==> rows[j] == before[j];
    if t in TableNames(before) {
      assert rows[FirstIndex(before, t)] == before[FirstIndex(before, t)];
    }
  }

  /** The key order is the order of first appearance: a table listed earlier
      was first named by an earlier row. */
  lemma {:induction false} FirstSeenOrder(rows: seq<CatalogRow>)
    ensures forall k :: 0 <= k < |TableOrder(rows)| ==> TableOrder(rows)[k] in TableNames(rows)
    ensures forall k, l :: 0 <= k < l < |TableOrder(rows)| ==>
      FirstIndex(rows, TableOrder(rows)[k]) < FirstIndex(rows, TableOrder(rows)[l])
    decreases |rows|
  {
    TableKeys(rows);
    if rows != [] {
      var before := rows[..|rows| - 1];
      var row := rows[|rows| - 1];
      assert rows == before + [row];
      FirstSeenOrder(before);
      TableKeys(before);
      var ob := TableOrder(before);
      forall k | 0 <= k < |ob|
        ensures ob[k] in TableNames(rows) && FirstIndex(rows, ob[k]) == FirstIndex(before, ob[k])
      {
        assert ob[k] in Tables(before);
        FirstIndexSnoc(before, row, ob[k]);
      }
      if row.table !in ob {
        assert row.table in TableNames(rows);
        assert row.table !in TableNames(before);
        FirstIndexSnoc(before, row, row.table);
        assert TableOrder(rows) == ob + [row.table];
      } else {
        assert TableOrder(rows) == ob;
      }
    }
  }

  /** Each table's list holds exactly the descriptors of its rows, in reader
      order, whatever schema each row comes from. */
  lemma {:induction false} TablesAreFilters(rows: seq<CatalogRow>)
    ensures forall t :: t in Tables(rows) ==> Tables(rows)[t] == ColumnsOf(rows, t)
    decreases |rows|
  {
    if rows != [] {
      var before := rows[..|rows| - 1];
      var row := rows[|rows| - 1];
      TablesAreFilters(before);
      TableKeys(before);
      assert rows == before + [row];
      forall t | t in Tables(rows) ensures Tables(rows)[t] == ColumnsOf(rows, t) {
        ColumnsOfSnoc(before, row, t);
        if t != row.table {
          assert t in Tables(before);
        } else if t !in Tables(before) {
          assert ColumnsOf(before, t) == [] by { ColumnsOfAbsent(before, t); }
        }
      }
    }
  }

  lemma {:induction false} ColumnsOfAbsent(rows: seq<CatalogRow>, t: string)
    requires t !in TableNames(rows)
    ensures ColumnsOf(rows, t) == []
    decreases |rows|
  {
    if rows != [] {
      assert rows[0].table in TableNames(rows);
      assert TableNames(rows[1..]) <= TableNames(rows) by {
        forall u | u in TableNames(rows[1..]) ensures u in TableNames(rows) {
          var i :| 0 <= i < |rows[1..]| && rows[1..][i].table == u;
          assert rows[i + 1].table == u;
        }
      }
      ColumnsOfAbsent(rows[1..], t);
    }
  }

  /** Two rows naming the same table land under one key even when their
      schemas differ. */
  lemma SameNameTablesMerge(rows: seq<CatalogRow>, i: nat, j: nat)
    requires i < j < |rows| && rows[i].table == rows[j].table
    ensures rows[i].table in Tables(rows)
    ensures var list := Tables(rows)[rows[i].table];
      Describe(rows[i]) in list && Describe(rows[j]) in list
  {
    ColumnsOfMember(rows, i);
    ColumnsOfMember(rows, j);
    TableKeys(rows);
    assert rows[i].table in TableNames(rows);
    TablesAreFilters(rows);
  }

  lemma {:induction false} ColumnsOfMember(rows: seq<CatalogRow>, i: nat)
    requires i < |rows|
    ensures Describe(rows[i]) in ColumnsOf(rows, rows[i].table)
    decreases |rows|
  {
    if i > 0 {
      ColumnsOfMember(rows[1..], i - 1);
      assert rows[1..][i - 1] == rows[i];
    }
  }

  /** The number of descriptors stored under `keys`. */
  function Total(tables: map<string, seq<ColumnInfo>>, keys: seq<string>): nat
    decreases |keys|
  {
    if keys == [] then 0
    else (if keys[0] in tables then |tables[keys[0]]| else 0) + Total(tables, keys[1..])
  }

  lemma {:induction false} TotalAppendKey(tables: map<string, seq<ColumnInfo>>, keys: seq<string>, k: string)
    ensures Total(tables, keys + [k]) == Total(tables, keys) + (if k in tables then |tables[k]| else 0)
    decreases |keys|
  {
    if keys == [] {
      assert ([k] + [])[1..] == [];
      assert [] + [k] == [k];
    } else {
      assert (keys + [k])[1..] == keys[1..] + [k];
      TotalAppendKey(tables, keys[1..], k);
    }
  }

  /** Changing the list under `k` changes the total by the change in length,
      when `k` occurs once in `keys`, and not at all when it does not occur. */
  lemma {:induction false} TotalUpdate(tables: map<string, seq<ColumnInfo>>, keys: seq<string>, k: string, list: seq<ColumnInfo>)
    requires Distinct(keys)
    ensures Total(tables[k := list], keys) + (if k in keys && k in tables then |tables[k]| else 0)
         == Total(tables, keys) + (if k in keys then |list| else 0)
    decreases |keys|
  {
    if keys != [] {
      assert Distinct(keys[1..]) by {
        forall a, b | 0 <= a < b < |keys[1..]| ensures keys[1..][a] != keys[1..][b] {
          assert keys[a + 1] != keys[b + 1];
        }
      }
      TotalUpdate(tables, keys[1..], k, list);
      if keys[0] == k {
        assert k !in keys[1..] by {
          forall a | 0 <= a < |keys[1..]| ensures keys[1..][a] != k { assert keys[a + 1] != keys[0]; }
        }
      } else {
        assert k in keys <==> k in keys[1..];
      }
    }
  }

  /** The descriptors total the number of catalog rows. */
  lemma {:induction false} TotalIsRowCount(rows: seq<CatalogRow>)
    ensures Total(Tables(rows), TableOrder(rows)) == |rows|
    decreases |rows|
  {
    if rows != [] {
      var before := rows[..|rows| - 1];
      var row := rows[|rows| - 1];
      var m, ks := Tables(before), TableOrder(before);
      TotalIsRowCount(before);
      TableKeys(before);
      var created := if row.table in m then m else m[row.table := []];
      var list := created[row.table] + [Describe(row)];
      assert Tables(rows) == created[row.table := list];
      if row.table in ks {
        assert TableOrder(rows) == ks;
        TotalUpdate(m, ks, row.table, list);
      } else {
        assert TableOrder(rows) == ks + [row.table];
        assert created[row.table := list] == m[row.table := list];
        TotalUpdate(m, ks, row.table, list);
        TotalAppendKey(m[row.table := list], ks, row.table);
      }
    }
  }

  function ColumnInfoJson(c: ColumnInfo): Json {
    JObject([("schema", JString(c.schema)), ("name", JString(c.name)), ("type", JString(c.dataType))])
  }

  function ColumnListJson(list: seq<ColumnInfo>): seq<Json> {
    seq(|list|, i requires 0 <= i < |list| => ColumnInfoJson(list[i]))
  }

  /** The members of the serialized table dictionary, in key order. */
  function TableMembers(tables: map<string, seq<ColumnInfo>>, keys: seq<string>): seq<(string, Json)>
    requires forall k :: k in keys ==> k in tables
    decreases |keys|
  {
    if keys == [] then []
    else [(keys[0], JArray(ColumnListJson(tables[keys[0]])))] + TableMembers(tables, keys[1..])
  }

  /** Every member of a serialized table dictionary holds an array, so a
      schema never reads as an error object, not even one with a single
      table named "error". */
  lemma {:induction false} TableMembersAreArrays(tables: map<string, seq<ColumnInfo>>, keys: seq<string>)
    requires forall k :: k in keys ==> k in tables
    ensures |TableMembers(tables, keys)| == |keys|
    ensures forall i :: 0 <= i < |keys| ==>
      TableMembers(tables, keys)[i] == (keys[i], JArray(ColumnListJson(tables[keys[i]])))
    decreases |keys|
  {
    if keys != [] {
      TableMembersAreArrays(tables, keys[1..]);
    }
  }

  /** A serialized schema never has the shape of an error object. */
  lemma SchemaIsNotError(rows: seq<CatalogRow>)
    ensures forall k :: k in TableOrder(rows) ==> k in Tables(rows)
    ensures !IsErrorObject(JObject(TableMembers(Tables(rows), TableOrder(rows))))
  {
    TableKeys(rows);
    TableMembersAreArrays(Tables(rows), TableOrder(rows));
  }

  predicate SchemaSucceeds(d: SchemaDriver) {
    d.open.Pass? && d.begin.Pass? && d.execute.Ok? && d.execute.value.end.Pass?
  }

  /** The message of the first step that raised. */
  function SchemaFailure(d: SchemaDriver): string
    requires !SchemaSucceeds(d)
  {
    if d.open.Fail? then d.open.message
    else if d.begin.Fail? then d.begin.message
    else if d.execute.Err? then d.execute.message
    else d.execute.value.end.message
  }

  /** GetSchema: fold the catalog rows into the table dictionary, then
      serialize it; any exception becomes `{"error": message}`. The transaction
      is never committed (it only fixes the snapshot) and the connection is
      closed on every path that opened it. */
  method GetSchema(driver: SchemaDriver) returns (result: Json, trace: seq<Event>)
    ensures SchemaSucceeds(driver) ==>
      var rows := driver.execute.value.rows;
      (forall k :: k in TableOrder(rows) ==> k in Tables(rows)) &&
      result == JObject(TableMembers(Tables(rows), TableOrder(rows)))
    ensures !SchemaSucceeds(driver) ==> result == ErrorObject(SchemaFailure(driver))
    ensures driver.open.Fail? ==> trace == []
    ensures driver.open.Pass? ==> |trace| >= 2 && trace[0] == Opened && trace[|trace| - 1] == Closed
    ensures Committed !in trace
    ensures RolledBack in trace <==> driver.open.Pass? && driver.begin.Pass?
    ensures Executed(CatalogQuery) in trace <==> driver.open.Pass? && driver.begin.Pass?
    ensures driver.open.Pass? && driver.begin.Fail? ==> trace == [Opened, Closed]
    ensures driver.open.Pass? && driver.begin.Pass? ==>
      trace == [Opened, Began, Executed(CatalogQuery), RolledBack, Closed]
  {
    trace := [];
    if driver.open.Fail? {
      return ErrorObject(driver.open.message), trace;
    }
    trace := trace + [Opened];
    if driver.begin.Fail? {
      return ErrorObject(driver.begin.message), trace + [Closed];
    }
    trace := trace + [Began, Executed(CatalogQuery)];
    if driver.execute.Err? {
      return ErrorObject(driver.execute.message), trace + [RolledBack, Closed];
    }
    var rows := driver.execute.value.rows;
    var tables: map<string, seq<ColumnInfo>> := map[];
    var order: seq<string> := [];
    var i := 0;
    while i < |rows|
      invariant 0 <= i <= |rows|
      invariant tables == Tables(rows[..i])
      invariant order == TableOrder(rows[..i])
    {
      var row := rows[i];
      TableKeys(rows[..i]);
      if row.table !in tables {
        tables := tables[row.table := []];
        order := order + [row.table];
      }
      tables := tables[row.table := tables[row.table] + [Describe(row)]];
      assert rows[..i + 1][..i] == rows[..i];
      i := i + 1;
    }
    assert rows[..i] == rows;
    trace := trace + [RolledBack, Closed];
    if driver.execute.value.end.Fail? {
      return ErrorObject(driver.execute.value.end.message), trace;
    }
    TableKeys(rows);
    result := JObject(TableMembers(tables, order));
  }

  // ---------------------------------------------------------------------
  // Query

  /** A scalar the driver returns. Date/time, unique-identifier and binary
      values arrive as `SText`, in the fixed textual form the serializer
      writes for them. */
  datatype Scalar =
    | SString(s: string)
    | SInt(i: int)
    | SDecimal(unscaled: int, scale: nat)
    | SBool(b: bool)
    | SText(text: string)

  /** A cell of the loaded table: the `DBNull` marker or a value. */
  datatype Cell = DbNull | Value(v: Scalar)

  /** The declared kind of a column, which a reader of the JSON knows from the schema. */
  datatype ColumnKind = KString | KInt | KDecimal | KBool | KText

  /** The loaded `DataTable`: column names and one cell per column in each row. */
  datatype DataTable = DataTable(columns: seq<string>, rows: seq<seq<Cell>>)

  /** What a `DataTable` guarantees: unique column names and full rows. */
  predicate WellFormed(t: DataTable) {
    Distinct(t.columns) && forall r :: 0 <= r < |t.rows| ==> |t.rows[r]| == |t.columns|
  }

  datatype QueryDriver = QueryDriver(
    open: Outcome, begin: Outcome, execute: Outcome, load: Result<DataTable>, commit: Outcome)

  /** The materialized cell: `DBNull` becomes `null` (None), anything else is kept. */
  function OrNull(c: Cell): Option<Scalar> {
    match c
    case DbNull => None
    case Value(v) => Some(v)
  }

  /** The dictionary made from one row: each column name in turn is set to its cell. */
  function RowMap(columns: seq<string>, cells: seq<Cell>): map<string, Option<Scalar>>
    requires |cells| == |columns|
    decreases |columns|
  {
    if columns == [] then map[]
    else RowMap(columns[..|columns| - 1], cells[..|cells| - 1])[columns[|columns| - 1] := OrNull(cells[|cells| - 1])]
  }

  /** Every column name is a key and no other key is present; each key
      holds its own column's cell with `DBNull` replaced by null. */
  lemma {:induction false} RowMapAt(columns: seq<string>, cells: seq<Cell>)
    requires |cells| == |columns| && Distinct(columns)
    ensures forall c :: c in RowMap(columns, cells) <==> c in columns
    ensures forall i :: 0 <= i < |columns| ==> RowMap(columns, cells)[columns[i]] == OrNull(cells[i])
    decreases |columns|
  {
    if columns != [] {
      var n := |columns| - 1;
      var p, q := columns[..n], cells[..n];
      assert Distinct(p) by {
        forall a, b | 0 <= a < b < n ensures p[a] != p[b] {
          assert columns[a] != columns[b];
        }
      }
      RowMapAt(p, q);
      var m := RowMap(p, q);
      assert RowMap(columns, cells) == m[columns[n] := OrNull(cells[n])];
      assert columns == p + [columns[n]];
      forall i | 0 <= i < n ensures RowMap(columns, cells)[columns[i]] == OrNull(cells[i]) {
        assert columns[i] != columns[n];
        assert p[i] == columns[i] && q[i] == cells[i];
      }
    }
  }

  /** In the dictionary made from a row, a `DBNull` cell maps to null and
      every other cell is passed through unchanged. */
  lemma RowMapNulls(columns: seq<string>, cells: seq<Cell>)
    requires |cells| == |columns| && Distinct(columns)
    ensures forall i :: 0 <= i < |columns| ==> columns[i] in RowMap(columns, cells)
    ensures forall i :: 0 <= i < |columns| ==> cells[i] == DbNull ==> RowMap(columns, cells)[columns[i]] == None
    ensures forall i :: 0 <= i < |columns| ==> cells[i].Value? ==> RowMap(columns, cells)[columns[i]] == Some(cells[i].v)
  {
    RowMapAt(columns, cells);
  }

  function ScalarJson(v: Scalar): Json {
    match v
    case SString(s) => JString(s)
    case SInt(i) => JNumber(i, 0)
    case SDecimal(u, sc) => JNumber(u, sc)
    case SBool(b) => JBool(b)
    case SText(t) => JString(t)
  }

  function ValueJson(o: Option<Scalar>): Json {
    match o
    case None => JNull
    case Some(v) => ScalarJson(v)
  }

  /** One row's dictionary serialized as an object, keys in column order. */
  function RecordJson(columns: seq<string>, record: map<string, Option<Scalar>>): Json
    requires forall c :: c in columns ==> c in record
  {
    JObject(seq(|columns|, i requires 0 <= i < |columns| => (columns[i], ValueJson(record[columns[i]]))))
  }

  function KindOf(v: Scalar): ColumnKind {
    match v
    case SString(_) => KString
    case SInt(_) => KInt
    case SDecimal(_, _) => KDecimal
    case SBool(_) => KBool
    case SText(_) => KText
  }

  /** How a reader that knows the column's kind decodes a JSON cell. */
  function DecodeCell(j: Json, kind: ColumnKind): Option<Cell> {
    match (j, kind)
    case (JNull, _) => Some(DbNull)
    case (JString(s), KString) => Some(Value(SString(s)))
    case (JString(s), KText) => Some(Value(SText(s)))
    case (JNumber(u, 0), KInt) => Some(Value(SInt(u)))
    case (JNumber(u, sc), KDecimal) => Some(Value(SDecimal(u, sc)))
    case (JBool(b), KBool) => Some(Value(SBool(b)))
    case _ => None
  }

  /** A cell serializes to null exactly when it is `DBNull`, and a reader
      that knows the column's kind decodes it back to the same cell. */
  lemma CellRoundTrip(c: Cell, kind: ColumnKind)
    requires c.Value? ==> KindOf(c.v) == kind
    ensures ValueJson(OrNull(c)) == JNull <==> c == DbNull
    ensures DecodeCell(ValueJson(OrNull(c)), kind) == Some(c)
  {
  }

  /** Each row object has the column names as keys in column order, and every
      cell decodes back to itself: `null` exactly for `DBNull`, and numbers and
      strings to their original value, without loss. */
  lemma RecordRoundTrip(columns: seq<string>, cells: seq<Cell>, kinds: seq<ColumnKind>)
    requires |cells| == |columns| == |kinds| && Distinct(columns)
    requires forall i :: 0 <= i < |cells| ==> cells[i].Value? ==> KindOf(cells[i].v) == kinds[i]
    ensures forall c :: c in columns ==> c in RowMap(columns, cells)
    ensures var j := RecordJson(columns, RowMap(columns, cells));
      |j.members| == |columns| &&
      (forall i :: 0 <= i < |columns| ==> j.members[i].0 == columns[i]) &&
      (forall i :: 0 <= i < |columns| ==> (j.members[i].1 == JNull <==> cells[i] == DbNull)) &&
      (forall i :: 0 <= i < |columns| ==> DecodeCell(j.members[i].1, kinds[i]) == Some(cells[i]))
  {
    RowMapAt(columns, cells);
    var j := RecordJson(columns, RowMap(columns, cells));
    forall i | 0 <= i < |columns|
      ensures j.members[i] == (columns[i], ValueJson(OrNull(cells[i])))
    {
    }
    forall i | 0 <= i < |columns|
      ensures (j.members[i].1 == JNull <==> cells[i] == DbNull)
      ensures DecodeCell(j.members[i].1, kinds[i]) == Some(cells[i])
    {
      CellRoundTrip(cells[i], kinds[i]);
    }
  }

  predicate QuerySucceeds(d: QueryDriver) {
    d.open.Pass? && d.begin.Pass? && d.execute.Pass? && d.load.Ok? && d.commit.Pass?
  }

  /** The message of the first step that raised. */
  function QueryFailure(d: QueryDriver): string
    requires !QuerySucceeds(d)
  {
    if d.open.Fail? then d.open.message
    else if d.begin.Fail? then d.begin.message
    else if d.execute.Fail? then d.execute.message
    else if d.load.Err? then d.load.message
    else d.commit.message
  }

  /** Query: run `sql` verbatim, load the rows, turn each row into a column
      dictionary, commit, and serialize the rows as an array; any exception
      becomes `{"error": message}` and leaves the transaction uncommitted. */
  method Query(sql: string, driver: QueryDriver) returns (result: Json, trace: seq<Event>)
    requires driver.load.Ok? ==> WellFormed(driver.load.value)
    ensures result.JArray? <==> QuerySucceeds(driver)
    ensures QuerySucceeds(driver) ==>
      var t := driver.load.value;
      |result.items| == |t.rows| &&
      forall r :: 0 <= r < |t.rows| ==>
        (forall c :: c in t.columns ==> c in RowMap(t.columns, t.rows[r])) &&
        result.items[r] == RecordJson(t.columns, RowMap(t.columns, t.rows[r]))
    ensures !QuerySucceeds(driver) ==> result == ErrorObject(QueryFailure(driver))
    ensures driver.open.Fail? ==> trace == []
    ensures driver.open.Pass? ==> |trace| >= 2 && trace[0] == Opened && trace[|trace| - 1] == Closed
    ensures Committed in trace <==> QuerySucceeds(driver)
    ensures QuerySucceeds(driver) ==> trace == [Opened, Began, Executed(sql), Loaded, Committed, Closed]
    ensures RolledBack in trace <==> driver.open.Pass? && driver.begin.Pass? && !QuerySucceeds(driver)
    ensures driver.open.Pass? && driver.begin.Fail? ==> trace == [Opened, Closed]
    ensures driver.open.Pass? && driver.begin.Pass? && (driver.execute.Fail? || driver.load.Err?) ==>
      trace == [Opened, Began, Executed(sql), RolledBack, Closed]
    ensures driver.open.Pass? && driver.begin.Pass? && driver.execute.Pass? && driver.load.Ok? && driver.commit.Fail? ==>
      trace == [Opened, Began, Executed(sql), Loaded, RolledBack, Closed]
  {
    trace := [];
    if driver.open.Fail? {
      return ErrorObject(driver.open.message), trace;
    }
    trace := trace + [Opened];
    if driver.begin.Fail? {
      return ErrorObject(driver.begin.message), trace + [Closed];
    }
    trace := trace + [Began, Executed(sql)];
    if driver.execute.Fail? {
      return ErrorObject(driver.execute.message), trace + [RolledBack, Closed];
    }
    if driver.load.Err? {
      return ErrorObject(driver.load.message), trace + [RolledBack, Closed];
    }
    trace := trace + [Loaded];
    var table := driver.load.value;
    var columns := table.columns;
    var rows: seq<map<string, Option<Scalar>>> := [];
    var r := 0;
    while r < |table.rows|
      invariant 0 <= r <= |table.rows|
      invariant |rows| == r
      invariant forall k :: 0 <= k < r ==> rows[k] == RowMap(columns, table.rows[k])
    {
      var cells := table.rows[r];
      var dict: map<string, Option<Scalar>> := map[];
      var c := 0;
      while c < |columns|
        invariant 0 <= c <= |columns|
        invariant dict == RowMap(columns[..c], cells[..c])
      {
        dict := dict[columns[c] := if cells[c] == DbNull then None else Some(cells[c].v)];
        assert columns[..c + 1][..c] == columns[..c] && cells[..c + 1][..c] == cells[..c];
        c := c + 1;
      }
      assert columns[..c] == columns && cells[..c] == cells;
      rows := rows + [dict];
      r := r + 1;
    }
    if driver.commit.Fail? {
      return ErrorObject(driver.commit.message), trace + [RolledBack, Closed];
    }
    trace := trace + [Committed, Closed];
    forall k | 0 <= k < |rows| ensures forall c :: c in columns ==> c in rows[k] {
      RowMapAt(columns, table.rows[k]);
    }
    result := JArray(seq(|rows|, k requires 0 <= k < |rows| => RecordJson(columns, rows[k])));
  }

  // ---------------------------------------------------------------------
  // Clients: what a caller can conclude from the contracts alone

  /** A table `T(id, name, note)` holding the row `(1, 'a', NULL)` comes back
      as `[{"id":1,"name":"a","note":null}]`, after a commit. */
  method QueryExample()
  {
    var table := DataTable(["id", "name", "note"], [[Value(SInt(1)), Value(SString("a")), DbNull]]);
    var driver := QueryDriver(Pass, Pass, Pass, Ok(table), Pass);
    var result, trace := Query("SELECT * FROM T", driver);
    RowMapAt(table.columns, table.rows[0]);
    var record := RowMap(table.columns, table.rows[0]);
    assert record["id"] == Some(SInt(1)) && record["name"] == Some(SString("a")) && record["note"] == None by {
      assert table.columns[0] == "id" && table.columns[1] == "name" && table.columns[2] == "note";
    }
    var encoded := RecordJson(table.columns, record);
    assert encoded.members == [("id", JNumber(1, 0)), ("name", JString("a")), ("note", JNull)];
    assert result == JArray([JObject([("id", JNumber(1, 0)), ("name", JString("a")), ("note", JNull)])]);
    assert Committed in trace;
    var failed, failedTrace := Query("SELEC", driver.(execute := Fail("Incorrect syntax near 'SELEC'.")));
    assert failed == ErrorObject("Incorrect syntax near 'SELEC'.") && Committed !in failedTrace;
  }

  /** Two tables named `Users` in schemas `dbo` and `audit` share one key. */
  method SchemaExample()
  {
    var rows := [CatalogRow("dbo", "Users", "id", "int"), CatalogRow("audit", "Users", "at", "datetime")];
    var result, trace := GetSchema(SchemaDriver(Pass, Pass, Ok(CatalogReader(rows, Pass))));
    assert rows[..1] == [rows[0]];
    var list := [ColumnInfo("dbo", "id", "int"), ColumnInfo("audit", "at", "datetime")];
    var first := rows[..1];
    assert |first| == 1 && first[..0] == [] && first[0] == rows[0];
    assert Tables(first[..0]) == map[];
    assert first[|first| - 1].table == "Users" && Describe(first[|first| - 1]) == list[0];
    assert first != [];
    assert "Users" in Tables(first);
    assert Tables(first)["Users"] == [list[0]];
    assert Tables(first).Keys == {"Users"};
    assert Tables(first) == map["Users" := [list[0]]];
    assert Tables(rows) == Tables(first)["Users" := [list[0]] + [list[1]]];
    assert rows[1].table == "Users" && Describe(rows[1]) == list[1];
    assert Tables(rows)["Users"] == list;
    assert Tables(rows).Keys == {"Users"};
    assert Tables(rows) == map["Users" := list];
    assert TableOrder(rows) == ["Users"];
    assert ColumnListJson(list) == [ColumnInfoJson(list[0]), ColumnInfoJson(list[1])];
    assert result == JObject([("Users", JArray([
      ColumnInfoJson(ColumnInfo("dbo", "id", "int")),
      ColumnInfoJson(ColumnInfo("audit", "at", "datetime"))]))]);
  }
}
