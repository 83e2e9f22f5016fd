/** The prediction record and the append-only prediction log
    (ml_app1.py:134-152). The CSV file is modelled as an optional sequence of
    records: `None` when the file does not exist. */
module PredictionLog {
  import opened Wrappers
  import opened Customer
  import Scoring

  /** One logged prediction: the six raw inputs, the cluster and the rounded
      confidence (`None` stands for NaN, left blank in the file). */
  datatype Record = Record(
    monthlyRevenue: Amount,
    totalRevenue: Amount,
    tenureMonths: nat,
    avgMonthlyUsage: Amount,
    supportTickets: nat,
    lastActiveDays: nat,
    predictedCluster: int,
    confidence: Option<real>)

  /** The inputs a record was scored on. */
  function FeaturesOf(r: Record): Features {
    Features(r.monthlyRevenue, r.totalRevenue, r.tenureMonths,
             r.avgMonthlyUsage, r.supportTickets, r.lastActiveDays)
  }

  /** The record dict: inputs unchanged, the cluster, `round(confidence, 2)`. */
  function MakeRecord(f: Features, cluster: int, confidence: Option<real>): (r: Record)
    ensures FeaturesOf(r) == f
    ensures r.predictedCluster == cluster
    ensures r.confidence.Some? == confidence.Some?
    ensures confidence.Some? ==>
      r.confidence.value == Scoring.Round2(confidence.value) &&
      r.confidence.value - confidence.value <= 0.005 && confidence.value - r.confidence.value <= 0.005
  {
    Record(f.monthlyRevenue, f.totalRevenue, f.tenureMonths, f.avgMonthlyUsage,
           f.supportTickets, f.lastActiveDays, cluster, Scoring.RoundConfidence(confidence))
  }

  /** The column order of the log file: the keys of the record dict. */
  const Columns: seq<string> := [
    "Monthly_Revenue", "Total_Revenue", "Tenure_Months", "Avg_Monthly_Usage",
    "Support_Tickets", "Last_Active_Days", "Predicted_Cluster", "Confidence"]

  /** A cell of the log table: a float, an integer, or a blank (NaN). */
  datatype Cell = Float(x: real) | Int(n: int) | Blank

  /** The cell a record holds under a column name, one case per key of the
      record dict; an unknown column is blank. */
  function ColumnCell(r: Record, column: string): Cell {
    match column
    case "Monthly_Revenue" => Float(r.monthlyRevenue)
    case "Total_Revenue" => Float(r.totalRevenue)
    case "Tenure_Months" => Int(r.tenureMonths)
    case "Avg_Monthly_Usage" => Float(r.avgMonthlyUsage)
    case "Support_Tickets" => Int(r.supportTickets)
    case "Last_Active_Days" => Int(r.lastActiveDays)
    case "Predicted_Cluster" => Int(r.predictedCluster)
    case "Confidence" => (match r.confidence case Some(c) => Float(c) case None => Blank)
    case _ => Blank
  }

  /** A record as the row written under `Columns`: each cell is the field
      named by its column. */
  function Row(r: Record): (cells: seq<Cell>)
    ensures |cells| == |Columns|
    ensures forall k :: 0 <= k < |Columns| ==> cells[k] == ColumnCell(r, Columns[k])
  {
    [Float(r.monthlyRevenue), Float(r.totalRevenue), Int(r.tenureMonths),
     Float(r.avgMonthlyUsage), Int(r.supportTickets), Int(r.lastActiveDays),
     Int(r.predictedCluster),
     match r.confidence case Some(c) => Float(c) case None => Blank]
  }

  /** Reads a row back; a cell of the wrong kind or a negative input is refused. */
  function ParseRow(cells: seq<Cell>): (r: Option<Record>)
    ensures r.Some? ==> |cells| == |Columns| && Row(r.value) == cells
  {
    if |cells| == 8
       && cells[0].Float? && cells[0].x >= 0.0
       && cells[1].Float? && cells[1].x >= 0.0
       && cells[2].Int? && cells[2].n >= 0
       && cells[3].Float? && cells[3].x >= 0.0
       && cells[4].Int? && cells[4].n >= 0
       && cells[5].Int? && cells[5].n >= 0
       && cells[6].Int?
       && !cells[7].Int?
    then
      Some(Record(cells[0].x, cells[1].x, cells[2].n, cells[3].x, cells[4].n, cells[5].n,
                  cells[6].n, if cells[7].Float? then Some(cells[7].x) else None))
    else None
  }

  /** A written row reads back as the same record: no field is lost, and the
      integer columns stay integers. */
  lemma RowRoundTrip(r: Record)
    ensures ParseRow(Row(r)) == Some(r)
  {
  }

  /** The rows of a log file; an absent file has none. */
  function Rows(file: Option<seq<Record>>): seq<Record> {
    file.GetOr([])
  }

  /** The log after one append: `[record]` when there was no file, otherwise
      the old rows, unchanged and in place, followed by the record. */
  function Appended(file: Option<seq<Record>>, r: Record): (log: seq<Record>)
    ensures file.None? ==> log == [r]
    ensures |log| == |Rows(file)| + 1
    ensures log[..|Rows(file)|] == Rows(file)
    ensures log[|log| - 1] == r
  {
    match file
    case None => [r]
    case Some(rows) => rows + [r]
  }

  /** The file after scoring `rs` one after the other. */
  function AfterAppends(file: Option<seq<Record>>, rs: seq<Record>): Option<seq<Record>>
    decreases |rs|
  {
    if rs == [] then file else AfterAppends(Some(Appended(file, rs[0])), rs[1..])
  }

  /** Appending N records yields the old rows followed by exactly those N
      records in append order; from no file, exactly the N records. */
  lemma {:induction false} AppendsInOrder(file: Option<seq<Record>>, rs: seq<Record>)
    ensures rs != [] ==> AfterAppends(file, rs) == Some(Rows(file) + rs)
    ensures rs == [] ==> AfterAppends(file, rs) == file
    decreases |rs|
  {
    if rs != [] {
      var next := Some(Appended(file, rs[0]));
      AppendsInOrder(next, rs[1..]);
      assert Rows(next) == Rows(file) + [rs[0]];
      assert AfterAppends(file, rs) == AfterAppends(next, rs[1..]);
      assert [rs[0]] + rs[1..] == rs;
      assert Rows(file) + [rs[0]] + rs[1..] == Rows(file) + rs;
      if rs[1..] == [] {
        assert rs == [rs[0]];
        assert AfterAppends(file, rs) == next;
      }
    }
  }

  /** The file `prediction_logs.csv`. */
  class LogStore {
    var file: Option<seq<Record>>

    constructor (initial: Option<seq<Record>>)
      ensures file == initial
    {
      file := initial;
    }

    /** `pd.read_csv`: `None` plays the part of `FileNotFoundError`. */
    method Read() returns (rows: Option<seq<Record>>)
      ensures rows == file
    {
      rows := file;
    }

    /** `df.to_csv`: the whole table replaces the file. */
    method Write(rows: seq<Record>)
      modifies this
      ensures file == Some(rows)
    {
      file := Some(rows);
    }

    /** Read the log if it exists, concatenate the record, write it all back. */
    method Append(r: Record)
      modifies this
      ensures file == Some(Appended(old(file), r))
      ensures |Rows(file)| == |Rows(old(file))| + 1
      ensures Rows(file)[..|Rows(old(file))|] == Rows(old(file))
      ensures Rows(file)[|Rows(file)| - 1] == r
    {
      var existing := Read();
      var df: seq<Record>;
      match existing {
        case Some(rows) => df := rows + [r];
        case None => df := [r];
      }
      Write(df);
    }
  }
}
