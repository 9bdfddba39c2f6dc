/** The GET handler of the proof API: it selects the newest 100 rows of the
    predictions table joined with their asset, flattens the asset into
    name/symbol columns with "Unknown"/"UNKNOWN" defaults, and wraps the
    rows in a success response, or answers 500 with no rows when the query
    fails. The database is a parameter: `Select` is the reference meaning of
    the ordered, limited query, and the handler receives its outcome.
    Timestamps are instants in milliseconds. */
module ProofApi {
  import opened Options

  /** The joined `assets(name, symbol)` record; either column may be null. */
  datatype Asset = Asset(name: Option<string>, symbol: Option<string>)

  /** One row as the query returns it. */
  datatype Row = Row(
    id: string, assetId: string, assets: Option<Asset>,
    predictionType: string, predictionValue: string, confidence: int,
    timestamp: int, outcome: Option<string>,
    actualValue: Option<string>, verifiedAt: Option<int>)

  /** One row as the API sends it. */
  datatype Formatted = Formatted(
    id: string, assetId: string, assetName: string, assetSymbol: string,
    predictionType: string, predictionValue: string, confidence: int,
    timestamp: int, outcome: Option<string>,
    actualValue: Option<string>, verifiedAt: Option<int>)

  /** What the query produced: its rows, or the error it reported. */
  datatype QueryResult = Rows(rows: seq<Row>) | QueryError(message: string)

  /** The JSON body and HTTP status of the answer. */
  datatype Response = Response(status: int, success: bool, predictions: seq<Formatted>, error: Option<string>)

  const MaxRows: nat := 100

  // ---------------------------------------------------------------------
  // The selection
  // ---------------------------------------------------------------------

  /** Newest first: timestamps never increase along the sequence. */
  ghost predicate NewestFirst(rs: seq<Row>) {
    forall i, j :: 0 <= i < j < |rs| ==> rs[i].timestamp >= rs[j].timestamp
  }

  /** Inserts a row into a sequence, after the rows at least as new. */
  function InsertByTime(x: Row, rs: seq<Row>): (r: seq<Row>)
    ensures |r| == |rs| + 1
    decreases |rs|
  {
    if rs == [] || rs[0].timestamp <= x.timestamp then [x] + rs
    else [rs[0]] + InsertByTime(x, rs[1..])
  }

  /** Insertion loses and adds nothing but the inserted row. */
  lemma {:induction false} InsertByTimeMultiset(x: Row, rs: seq<Row>)
    ensures multiset(InsertByTime(x, rs)) == multiset(rs) + multiset{x}
    decreases |rs|
  {
    if rs != [] && rs[0].timestamp > x.timestamp {
      InsertByTimeMultiset(x, rs[1..]);
      assert rs == [rs[0]] + rs[1..];
    }
  }

  /** Inserting a row no newer than t among rows no newer than t keeps them so. */
  lemma {:induction false} InsertByTimeBelow(x: Row, rs: seq<Row>, t: int)
    requires x.timestamp <= t
    requires forall i :: 0 <= i < |rs| ==> rs[i].timestamp <= t
    ensures forall i :: 0 <= i < |InsertByTime(x, rs)| ==> InsertByTime(x, rs)[i].timestamp <= t
    decreases |rs|
  {
    if rs != [] && rs[0].timestamp > x.timestamp {
      InsertByTimeBelow(x, rs[1..], t);
    }
  }

  /** Insertion into a newest-first sequence keeps it newest first. */
  lemma {:induction false} InsertByTimeNewestFirst(x: Row, rs: seq<Row>)
    requires NewestFirst(rs)
    ensures NewestFirst(InsertByTime(x, rs))
    decreases |rs|
  {
    if rs != [] && rs[0].timestamp > x.timestamp {
      var tail := InsertByTime(x, rs[1..]);
      InsertByTimeNewestFirst(x, rs[1..]);
      InsertByTimeBelow(x, rs[1..], rs[0].timestamp);
      var r := [rs[0]] + tail;
      assert r == InsertByTime(x, rs);
      forall i, j | 0 <= i < j < |r| ensures r[i].timestamp >= r[j].timestamp {
        assert r[j] == tail[j - 1];
        if i > 0 {
          assert r[i] == tail[i - 1];
        }
      }
    }
  }

  /** `.order("timestamp", { ascending: false })`: the table newest first. */
  function SortByTime(rs: seq<Row>): (r: seq<Row>)
    ensures NewestFirst(r)
    ensures multiset(r) == multiset(rs)
    decreases |rs|
  {
    if rs == [] then []
    else
      var rest := SortByTime(rs[1..]);
      InsertByTimeNewestFirst(rs[0], rest);
      InsertByTimeMultiset(rs[0], rest);
      assert rs == [rs[0]] + rs[1..];
      InsertByTime(rs[0], rest)
  }

  /** The query `select … order by timestamp desc limit 100`. */
  function Select(table: seq<Row>): (r: seq<Row>)
    ensures |r| == if |table| < MaxRows then |table| else MaxRows
    ensures NewestFirst(r)
    ensures multiset(r) <= multiset(table)
  {
    var sorted := SortByTime(table);
    var n := if |sorted| < MaxRows then |sorted| else MaxRows;
    assert sorted == sorted[..n] + sorted[n..];
    assert multiset(sorted) == multiset(sorted[..n]) + multiset(sorted[n..]);
    sorted[..n]
  }

  /** A row left out of the selection is no newer than any selected row. */
  lemma SelectKeepsNewest(table: seq<Row>, x: Row, y: Row)
    requires x in table && x !in Select(table) && y in Select(table)
    ensures x.timestamp <= y.timestamp
  {
    var sorted := SortByTime(table);
    var chosen := Select(table);
    assert chosen == sorted[..|chosen|];
    assert x in multiset(sorted);
    var j :| 0 <= j < |sorted| && sorted[j] == x;
    var k :| 0 <= k < |chosen| && chosen[k] == y;
    assert forall i :: 0 <= i < |chosen| ==> sorted[i] != x by {
      forall i | 0 <= i < |chosen| ensures sorted[i] != x {
        assert sorted[i] == chosen[i];
      }
    }
    assert k < |chosen| <= j;
    assert sorted[k] == y;
  }

  // ---------------------------------------------------------------------
  // The formatting map and the response
  // ---------------------------------------------------------------------

  /** `value || fallback` on an optional string: null and "" are falsy. */
  function OrDefault(o: Option<string>, fallback: string): (s: string)
    ensures s == fallback <==> (o == None || o.value == "" || o.value == fallback)
    ensures s != fallback ==> o == Some(s)
  {
    if o.Some? && o.value != "" then o.value else fallback
  }

  /** The joined asset column, null when no asset matched. */
  function AssetName(a: Option<Asset>): Option<string> {
    if a.Some? then a.value.name else None
  }

  function AssetSymbol(a: Option<Asset>): Option<string> {
    if a.Some? then a.value.symbol else None
  }

  /** The row-formatting map: the asset flattened, every other column copied. */
  function FormatRow(p: Row): (f: Formatted)
    ensures f.id == p.id && f.assetId == p.assetId
    ensures f.predictionType == p.predictionType && f.predictionValue == p.predictionValue
    ensures f.confidence == p.confidence && f.timestamp == p.timestamp
    ensures f.outcome == p.outcome && f.actualValue == p.actualValue && f.verifiedAt == p.verifiedAt
    ensures p.assets == None ==> f.assetName == "Unknown" && f.assetSymbol == "UNKNOWN"
  {
    Formatted(
      p.id, p.assetId,
      OrDefault(AssetName(p.assets), "Unknown"),
      OrDefault(AssetSymbol(p.assets), "UNKNOWN"),
      p.predictionType, p.predictionValue, p.confidence,
      p.timestamp, p.outcome, p.actualValue, p.verifiedAt)
  }

  /** A present, non-empty asset name and symbol are passed through. */
  lemma FormatRowKeepsAsset(p: Row, name: string, symbol: string)
    requires p.assets == Some(Asset(Some(name), Some(symbol))) && name != "" && symbol != ""
    ensures FormatRow(p).assetName == name && FormatRow(p).assetSymbol == symbol
  {
  }

  /** The handler: 200 and the formatted rows in query order, or 500 and none. */
  function Get(q: QueryResult): (r: Response)
    ensures r.success <==> q.Rows?
    ensures r.success ==> r.status == 200 && r.error == None
    ensures r.success ==> |r.predictions| == |q.rows|
    ensures r.success ==> forall i :: 0 <= i < |q.rows| ==> r.predictions[i] == FormatRow(q.rows[i])
    ensures !r.success ==> r.status == 500 && r.predictions == [] && r.error == Some("Failed to fetch predictions")
  {
    match q
    case QueryError(_) => Response(500, false, [], Some("Failed to fetch predictions"))
    case Rows(rows) => Response(200, true, seq(|rows|, i requires 0 <= i < |rows| => FormatRow(rows[i])), None)
  }

  /** Answering for a table: at most 100 rows, newest first. */
  lemma GetOfTable(table: seq<Row>)
    ensures Get(Rows(Select(table))).success
    ensures |Get(Rows(Select(table))).predictions| <= MaxRows
    ensures forall i, j :: 0 <= i < j < |Get(Rows(Select(table))).predictions| ==>
      Get(Rows(Select(table))).predictions[i].timestamp >= Get(Rows(Select(table))).predictions[j].timestamp
  {
    var rows := Select(table);
    var r := Get(Rows(rows));
    forall i, j | 0 <= i < j < |r.predictions| ensures r.predictions[i].timestamp >= r.predictions[j].timestamp {
      assert r.predictions[i] == FormatRow(rows[i]);
      assert r.predictions[j] == FormatRow(rows[j]);
    }
  }
}
