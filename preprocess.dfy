/**
 * The training-time feature encoder and label rule: `preprocess_data` and
 * `suspicious_rule`. A batch of transaction rows becomes the feature matrix X
 * (one row per transaction, columns Amount, Hour, SenderUPI, ReceiverUPI,
 * StateCode, CityCode) and the label column y. Reading the CSV file is left to
 * the caller: the batch arrives as a sequence of rows.
 */
module Preprocess {
  import opened Wrappers
  import opened Timestamp
  import opened Categories

  /** One row of the transactions table: Transaction ID, Amount, Sender UPI ID, Receiver UPI ID, Timestamp, State, City. */
  datatype RawRow = RawRow(transactionId: string, amount: real, senderUpiId: string, receiverUpiId: string,
                           timestamp: string, state: string, city: string)

  /** One row of X; the fields are the columns of X in their order. */
  datatype FeatureVector = FeatureVector(amount: real, hour: int, senderUpi: int, receiverUpi: int,
                                         stateCode: int, cityCode: int)

  /** A row of X as the classifier receives it: the six columns in order. */
  function Columns(fv: FeatureVector): seq<real> {
    [fv.amount, fv.hour as real, fv.senderUpi as real, fv.receiverUpi as real, fv.stateCode as real, fv.cityCode as real]
  }

  /** The value of X that `model.predict` receives. */
  function Matrix(x: seq<FeatureVector>): (m: seq<seq<real>>)
    ensures |m| == |x|
  {
    seq(|x|, i requires 0 <= i < |x| => Columns(x[i]))
  }

  /** What `preprocess_data` returns: X, y and the frame it read. */
  datatype Batch = Batch(x: seq<FeatureVector>, y: seq<int>, frame: seq<RawRow>)

  datatype EncodeError = MalformedTimestamp

  // ---------------------------------------------------------------------------
  // Label rule

  /** The rule that labels training rows: 1 for suspicious, 0 otherwise. */
  function SuspiciousRule(amount: real, hour: int): (flag: int)
    ensures flag == 0 || flag == 1
    ensures amount > 50000.0 ==> flag == 1
  {
    if amount > 50000.0 then 1
    else if hour >= 23 || hour <= 5 then 1
    else 0
  }

  /** Up to 50000 the amount does not matter: only the night hours 23 and 0..5 are labelled 1. */
  lemma {:induction false} RuleByHour(amount: real, hour: int)
    requires amount <= 50000.0 && 0 <= hour <= 23
    ensures SuspiciousRule(amount, hour) == 1 <==> hour == 23 || hour <= 5
    ensures SuspiciousRule(amount, hour) == 0 <==> 6 <= hour <= 22
  {
  }

  /** The amount threshold is strict: 50000 itself at 14:00 is not suspicious. */
  lemma {:induction false} RuleBoundary()
    ensures SuspiciousRule(50000.0, 14) == 0
    ensures SuspiciousRule(50000.01, 14) == 1
  {
  }

  // ---------------------------------------------------------------------------
  // Columns of the batch

  function TimestampColumn(rows: seq<RawRow>): seq<string> { seq(|rows|, i requires 0 <= i < |rows| => rows[i].timestamp) }
  function SenderColumn(rows: seq<RawRow>): seq<string> { seq(|rows|, i requires 0 <= i < |rows| => rows[i].senderUpiId) }
  function ReceiverColumn(rows: seq<RawRow>): seq<string> { seq(|rows|, i requires 0 <= i < |rows| => rows[i].receiverUpiId) }
  function StateColumn(rows: seq<RawRow>): seq<string> { seq(|rows|, i requires 0 <= i < |rows| => rows[i].state) }
  function CityColumn(rows: seq<RawRow>): seq<string> { seq(|rows|, i requires 0 <= i < |rows| => rows[i].city) }

  /** A timestamp string the `%d-%m-%Y %H:%M` parser accepts. */
  predicate Parses(s: string) {
    ParseTimestamp(s).Some?
  }

  /**
   * `pd.to_datetime(col, format="%d-%m-%Y %H:%M").dt.hour`: the hour of every entry,
   * or None (the ValueError) as soon as one entry does not parse.
   */
  function HourColumn(stamps: seq<string>): (r: Option<seq<int>>)
    ensures r.Some? <==> forall i :: 0 <= i < |stamps| ==> Parses(stamps[i])
    ensures r.Some? ==> |r.value| == |stamps|
    ensures r.Some? ==> forall i :: 0 <= i < |stamps| ==>
      r.value[i] == ParseTimestamp(stamps[i]).value.hour && 0 <= r.value[i] <= 23
  {
    if |stamps| == 0 then Some([])
    else match ParseTimestamp(stamps[0])
      case None => None
      case Some(p) =>
        match HourColumn(stamps[1..])
        case None =>
          assert forall i :: 1 <= i < |stamps| ==> stamps[i] == stamps[1..][i - 1];
          None
        case Some(rest) =>
          assert forall i :: 1 <= i < |stamps| ==> stamps[i] == stamps[1..][i - 1];
          Some([p.hour] + rest)
  }

  // ---------------------------------------------------------------------------
  // The encoder

  /** The row of X that preprocessing derives from row `i`, given the hour it parsed. */
  function FeatureRow(rows: seq<RawRow>, i: int, hour: int): FeatureVector
    requires 0 <= i < |rows|
  {
    FeatureVector(rows[i].amount, hour,
                  Code(SenderColumn(rows), rows[i].senderUpiId),
                  Code(ReceiverColumn(rows), rows[i].receiverUpiId),
                  Code(StateColumn(rows), rows[i].state),
                  Code(CityColumn(rows), rows[i].city))
  }

  /**
   * `preprocess_data` on an already read batch: the Hour column, the four category-code
   * columns, X in its fixed column order, and the rule label of each row.
   */
  function PreprocessData(rows: seq<RawRow>): (r: Result<Batch, EncodeError>)
    ensures r.Err? <==> exists i :: 0 <= i < |rows| && !Parses(rows[i].timestamp)
    ensures r.Ok? ==> |r.value.x| == |rows| && |r.value.y| == |r.value.x| && r.value.frame == rows
    ensures r.Ok? ==> forall i :: 0 <= i < |rows| ==>
      && r.value.x[i].amount == rows[i].amount
      && r.value.x[i].hour == ParseTimestamp(rows[i].timestamp).value.hour
      && 0 <= r.value.x[i].hour <= 23
      && 0 <= r.value.x[i].senderUpi < |Distinct(SenderColumn(rows))|
      && 0 <= r.value.x[i].receiverUpi < |Distinct(ReceiverColumn(rows))|
      && 0 <= r.value.x[i].stateCode < |Distinct(StateColumn(rows))|
      && 0 <= r.value.x[i].cityCode < |Distinct(CityColumn(rows))|
      && r.value.y[i] == SuspiciousRule(r.value.x[i].amount, r.value.x[i].hour)
    ensures r.Ok? ==> forall i :: 0 <= i < |rows| ==>
      r.value.x[i] == FeatureRow(rows, i, r.value.x[i].hour)
  {
    var stamps := TimestampColumn(rows);
    assert forall i :: 0 <= i < |rows| ==> stamps[i] == rows[i].timestamp;
    match HourColumn(stamps)
    case None => Err(MalformedTimestamp)
    case Some(hours) =>
      var x := EncodeRows(rows, hours);
      Ok(Batch(x, Labels(x), rows))
  }

  /** X: the amount, the parsed hour and the four category-code columns, row by row. */
  function EncodeRows(rows: seq<RawRow>, hours: seq<int>): (x: seq<FeatureVector>)
    requires |hours| == |rows|
    ensures |x| == |rows|
    ensures forall i :: 0 <= i < |rows| ==> x[i] == FeatureRow(rows, i, hours[i])
    ensures forall i :: 0 <= i < |rows| ==>
      && 0 <= x[i].senderUpi < |Distinct(SenderColumn(rows))|
      && 0 <= x[i].receiverUpi < |Distinct(ReceiverColumn(rows))|
      && 0 <= x[i].stateCode < |Distinct(StateColumn(rows))|
      && 0 <= x[i].cityCode < |Distinct(CityColumn(rows))|
  {
    var senders := CategoryCodes(SenderColumn(rows));
    var receivers := CategoryCodes(ReceiverColumn(rows));
    var states := CategoryCodes(StateColumn(rows));
    var cities := CategoryCodes(CityColumn(rows));
    seq(|rows|, i requires 0 <= i < |rows| =>
      FeatureVector(rows[i].amount, hours[i], senders[i], receivers[i], states[i], cities[i]))
  }

  /** y: the rule label of every row of X. */
  function Labels(x: seq<FeatureVector>): (y: seq<int>)
    ensures |y| == |x|
    ensures forall i :: 0 <= i < |x| ==> y[i] == SuspiciousRule(x[i].amount, x[i].hour)
  {
    seq(|x|, i requires 0 <= i < |x| => SuspiciousRule(x[i].amount, x[i].hour))
  }

  /** Equal rows of one batch are encoded and labelled identically. */
  lemma {:induction false} EncodingDeterministic(rows: seq<RawRow>, i: int, j: int)
    requires PreprocessData(rows).Ok? && 0 <= i < |rows| && 0 <= j < |rows| && rows[i] == rows[j]
    ensures PreprocessData(rows).value.x[i] == PreprocessData(rows).value.x[j]
    ensures PreprocessData(rows).value.y[i] == PreprocessData(rows).value.y[j]
  {
  }

  /** Within a batch, codes order the identifiers: distinct values get distinct codes, the smaller string the smaller code. */
  lemma {:induction false} SenderCodesOrdered(rows: seq<RawRow>, i: int, j: int)
    requires PreprocessData(rows).Ok? && 0 <= i < |rows| && 0 <= j < |rows|
    ensures var x := PreprocessData(rows).value.x;
      && (x[i].senderUpi == x[j].senderUpi <==> rows[i].senderUpiId == rows[j].senderUpiId)
      && (StringOrder.Less(rows[i].senderUpiId, rows[j].senderUpiId) ==> x[i].senderUpi < x[j].senderUpi)
  {
    var col := SenderColumn(rows);
    assert col[i] == rows[i].senderUpiId && col[j] == rows[j].senderUpiId;
    CodesFacts(col);
  }

  /** A one-row batch codes every categorical column as 0, whatever the identifiers are. */
  lemma {:induction false} SingleRowBatch(row: RawRow)
    requires Parses(row.timestamp)
    ensures PreprocessData([row]).Ok?
    ensures var x := PreprocessData([row]).value.x;
      |x| == 1 && x[0] == FeatureVector(row.amount, ParseTimestamp(row.timestamp).value.hour, 0, 0, 0, 0)
  {
    var rows := [row];
    assert SenderColumn(rows) == [row.senderUpiId];
    assert ReceiverColumn(rows) == [row.receiverUpiId];
    assert StateColumn(rows) == [row.state];
    assert CityColumn(rows) == [row.city];
    CodeSingleRow(row.senderUpiId);
    CodeSingleRow(row.receiverUpiId);
    CodeSingleRow(row.state);
    CodeSingleRow(row.city);
  }
}
