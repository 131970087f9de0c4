/**
 * The single-row encoder of the standalone scoring script, `prepare_single_transaction`:
 * the same six features as training, but identifiers are reduced to integers as
 * `abs(hash(x)) % N` instead of batch category codes. Python salts its string hash
 * per process, so the hash is a parameter: one function per process.
 */
module SingleRow {
  import opened Wrappers
  import opened Timestamp
  import opened Preprocess
  import Predict

  /** Buckets for sender and receiver UPI ids. */
  const IdBuckets := 10000
  /** Buckets for state and city. */
  const RegionBuckets := 1000

  function Abs(n: int): nat {
    if n < 0 then -n else n
  }

  /** `abs(hash(x)) % buckets`: Python's `%` with a positive divisor is never negative. */
  function HashCode(hash: string -> int, x: string, buckets: nat): (c: int)
    requires buckets > 0
    ensures 0 <= c < buckets
  {
    Abs(hash(x)) % buckets
  }

  /**
   * One feature row for one transaction, in the column order of the training X;
   * a timestamp outside the `%d-%m-%Y %H:%M` format is the parser's ValueError.
   */
  function PrepareSingleTransaction(hash: string -> int, senderUpi: string, receiverUpi: string, amount: real,
                                    state: string, city: string, timestamp: string): (r: Result<FeatureVector, EncodeError>)
    ensures r.Err? <==> !Parses(timestamp)
    ensures r.Ok? ==> r.value.amount == amount && r.value.hour == ParseTimestamp(timestamp).value.hour
    ensures r.Ok? ==> 0 <= r.value.hour <= 23
    ensures r.Ok? ==> 0 <= r.value.senderUpi < IdBuckets && 0 <= r.value.receiverUpi < IdBuckets
    ensures r.Ok? ==> 0 <= r.value.stateCode < RegionBuckets && 0 <= r.value.cityCode < RegionBuckets
    ensures r.Ok? ==> Columns(r.value) == [amount, r.value.hour as real,
                                           HashCode(hash, senderUpi, IdBuckets) as real,
                                           HashCode(hash, receiverUpi, IdBuckets) as real,
                                           HashCode(hash, state, RegionBuckets) as real,
                                           HashCode(hash, city, RegionBuckets) as real]
  {
    match ParseTimestamp(timestamp)
    case None => Err(MalformedTimestamp)
    case Some(p) =>
      Ok(FeatureVector(amount, p.hour,
                       HashCode(hash, senderUpi, IdBuckets), HashCode(hash, receiverUpi, IdBuckets),
                       HashCode(hash, state, RegionBuckets), HashCode(hash, city, RegionBuckets)))
  }

  /**
   * Within one process a code depends on the identifier alone: the same sender, state or
   * city gives the same code in any transaction, and a receiver that is some sender's id
   * gets that sender's code.
   */
  lemma {:induction false} CodesDependOnIdentifierOnly(hash: string -> int, t1: FeatureVector, t2: FeatureVector,
                                    s1: string, r1: string, st1: string, c1: string, ts1: string, a1: real,
                                    s2: string, r2: string, st2: string, c2: string, ts2: string, a2: real)
    requires PrepareSingleTransaction(hash, s1, r1, a1, st1, c1, ts1) == Ok(t1)
    requires PrepareSingleTransaction(hash, s2, r2, a2, st2, c2, ts2) == Ok(t2)
    ensures s1 == s2 ==> t1.senderUpi == t2.senderUpi
    ensures r1 == s2 ==> t1.receiverUpi == t2.senderUpi
    ensures st1 == st2 ==> t1.stateCode == t2.stateCode
    ensures c1 == c2 ==> t1.cityCode == t2.cityCode
  {
  }

  /** The label the script prints: `"SUSPICIOUS" if pred == 1 else "NOT_SUSPICIOUS"`. */
  function ScriptLabel(pred: int): (text: string)
    ensures text == "SUSPICIOUS" <==> pred == 1
    ensures text == "NOT_SUSPICIOUS" <==> pred != 1
  {
    if pred == 1 then "SUSPICIOUS" else "NOT_SUSPICIOUS"
  }

  /**
   * The script's label agrees with batch prediction's label map on the classes 0 and 1;
   * on any other class the script says NOT_SUSPICIOUS where the map gives NaN.
   */
  lemma {:induction false} ScriptLabelAgreesWithPredict(pred: int)
    ensures pred == 0 || pred == 1 ==> Predict.LabelOf(pred).Text() == Some(ScriptLabel(pred))
    ensures pred != 0 && pred != 1 ==> Predict.LabelOf(pred).Text().None? && ScriptLabel(pred) == "NOT_SUSPICIOUS"
  {
  }
}
