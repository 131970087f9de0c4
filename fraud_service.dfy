/**
 * The fraud scoring service: a lazily loaded, cached-forever model and a scoring
 * call that answers `{is_suspicious, score}` for one ledger transaction by sending
 * it, as a one-row batch, through batch prediction. The file system is the `disk`
 * oracle; the temporary CSV file the service writes and reads back is not modelled,
 * so the row it writes is the row prediction reads.
 */
module FraudService {
  import opened Wrappers
  import opened Timestamp
  import opened ModelStore
  import opened Preprocess
  import opened Predict
  import opened Transactions

  const DefaultModelPath := "model/fraud_model.joblib"

  /** The service's answer: `{'is_suspicious': bool, 'score': float or None}`. */
  datatype FraudResult = FraudResult(isSuspicious: bool, score: Option<real>)

  /** The fail-open answer, given whenever no prediction is available. */
  const NotScored := FraudResult(false, None)

  /** The one-row frame the service writes for a transaction; the table has no state or city. */
  function ScoringRow(t: Transaction): (row: RawRow)
    ensures row.transactionId == t.id && row.amount == t.amount
    ensures row.senderUpiId == t.senderUpiId && row.receiverUpiId == t.receiverUpiId
    ensures row.state == "Unknown" && row.city == "Unknown"
    ensures ParseTimestamp(row.timestamp) == Some(Truncate(t.timestamp))
  {
    ParseFormatRoundTrip(Truncate(t.timestamp));
    RawRow(t.id, t.amount, t.senderUpiId, t.receiverUpiId, Strftime(t.timestamp), "Unknown", "Unknown")
  }

  /** The feature row the classifier receives on the service path. */
  function ServiceFeatures(t: Transaction): seq<real> {
    [t.amount, t.timestamp.hour as real, 0.0, 0.0, 0.0, 0.0]
  }

  /** The answer for a predicted class: suspicious with score 1.0 for class 1, otherwise not, with 0.0. */
  function VerdictOf(p: int): (v: FraudResult)
    ensures v.isSuspicious <==> p == 1
    ensures v.score.Some? && (v.score.value == 1.0 <==> v.isSuspicious) && (v.score.value == 0.0 <==> !v.isSuspicious)
  {
    var isSuspicious := LabelOf(p) == Suspicious;
    FraudResult(isSuspicious, Some(if isSuspicious then 1.0 else 0.0))
  }

  /**
   * The service sends its transaction through the batch encoder as a batch of one, so the
   * classifier sees the amount, the hour of the timestamp and 0 for all four category codes.
   */
  lemma {:induction false} ServicePathFeatures(t: Transaction)
    ensures PreprocessData([ScoringRow(t)]).Ok?
    ensures Matrix(PreprocessData([ScoringRow(t)]).value.x) == [ServiceFeatures(t)]
  {
    OneRowClassifierInput(ScoringRow(t));
  }

  /** What batch prediction returns for the service's row, given the artifact on disk. */
  lemma {:induction false} ServicePrediction(t: Transaction, disk: Disk, path: string)
    requires path in disk && disk[path].Fitted?
    ensures var preds := disk[path].classify([ServiceFeatures(t)]);
      PredictNew([ScoringRow(t)], disk, path)
      == if |preds| == 1
         then Ok([OutputRow(t.id, t.amount, t.senderUpiId, t.receiverUpiId, LabelOf(preds[0]))])
         else Err(LengthMismatch)
  {
    var row := ScoringRow(t);
    var clf := disk[path].classify;
    ServicePathFeatures(t);
    assert LoadModel(disk, path) == Ok(clf);
    OneRowPrediction(row, disk, path);
    assert Classes(clf, PreprocessData([row]).value) == clf([ServiceFeatures(t)]);
  }

  class FraudDetectionService {
    const modelPath: string
    var model: Option<Classifier>

    /** A fresh service holds no model. */
    constructor (modelPath: string := DefaultModelPath)
      ensures this.modelPath == modelPath && model.None?
    {
      this.modelPath := modelPath;
      model := None;
    }

    /**
     * `load_model`: loads the artifact only while no model is held and the file exists; a file
     * that cannot be deserialised raises. Answers whether a model is held afterwards.
     */
    method LoadModel(disk: Disk) returns (r: Result<bool, StoreError>)
      modifies this
      ensures old(model).Some? ==> model == old(model) && r == Ok(true)
      ensures old(model).None? && modelPath !in disk ==> model.None? && r == Ok(false)
      ensures old(model).None? && modelPath in disk && disk[modelPath].Corrupt? ==> model.None? && r == Err(ModelCorrupt)
      ensures old(model).None? && modelPath in disk && disk[modelPath].Fitted? ==>
        model == Some(disk[modelPath].classify) && r == Ok(true)
      ensures r.Ok? ==> (r.value <==> model.Some?)
    {
      if model.None? && modelPath in disk {
        var loaded := ModelStore.LoadModel(disk, modelPath);
        if loaded.Err? {
          return Err(loaded.error);
        }
        model := Some(loaded.value);
      }
      return Ok(model.Some?);
    }

    /**
     * `check_transaction_fraud` as written: the model is loaded before the `try`, so a corrupt
     * artifact raises (Err) instead of giving the fail-open answer. Inside the `try`, batch
     * prediction reloads the artifact from disk, and any failure there gives the fail-open answer.
     */
    method CheckTransactionFraud(t: Transaction, disk: Disk) returns (r: Result<FraudResult, StoreError>)
      modifies this
      ensures old(model).Some? ==> model == old(model)
      ensures old(model).None? && modelPath in disk && disk[modelPath].Fitted? ==> model == Some(disk[modelPath].classify)
      ensures old(model).None? && !(modelPath in disk && disk[modelPath].Fitted?) ==> model.None?
      ensures r.Err? <==> old(model).None? && modelPath in disk && disk[modelPath].Corrupt?
      ensures r.Err? ==> r.error == ModelCorrupt
      ensures old(model).None? && modelPath !in disk ==> r == Ok(NotScored)
      ensures old(model).Some? && !(modelPath in disk && disk[modelPath].Fitted?) ==> r == Ok(NotScored)
      ensures modelPath in disk && disk[modelPath].Fitted? ==>
        var preds := disk[modelPath].classify([ServiceFeatures(t)]);
        r == Ok(if |preds| == 1 then VerdictOf(preds[0]) else NotScored)
      ensures r.Ok? && r.value.score.None? ==> !r.value.isSuspicious
      ensures r.Ok? && r.value.score.Some? ==>
        (r.value.score.value == 1.0 <==> r.value.isSuspicious) && (r.value.score.value == 0.0 <==> !r.value.isSuspicious)
    {
      var loaded := LoadModel(disk);
      if loaded.Err? {
        return Err(loaded.error);
      }
      if !loaded.value {
        return Ok(NotScored);
      }
      // the try block
      var out := PredictNew([ScoringRow(t)], disk, modelPath);
      if modelPath in disk && disk[modelPath].Fitted? {
        ServicePrediction(t, disk, modelPath);
      }
      if out.Err? {
        return Ok(NotScored);
      }
      if |out.value| > 0 {
        var isSuspicious := out.value[0].prediction == Suspicious;
        var score := if isSuspicious then 1.0 else 0.0;
        return Ok(FraudResult(isSuspicious, Some(score)));
      }
      return Ok(NotScored);
    }

    /**
     * The fail-open contract the service promises: the same scoring with the model load inside
     * the `try`, so that every failure, a corrupt artifact included, gives `{False, None}`.
     */
    method CheckTransactionFraudFailOpen(t: Transaction, disk: Disk) returns (r: FraudResult)
      modifies this
      ensures old(model).Some? ==> model == old(model)
      ensures old(model).None? && modelPath in disk && disk[modelPath].Fitted? ==> model == Some(disk[modelPath].classify)
      ensures old(model).None? && !(modelPath in disk && disk[modelPath].Fitted?) ==> model.None?
      ensures !(modelPath in disk && disk[modelPath].Fitted?) ==> r == NotScored
      ensures modelPath in disk && disk[modelPath].Fitted? ==>
        var preds := disk[modelPath].classify([ServiceFeatures(t)]);
        r == if |preds| == 1 then VerdictOf(preds[0]) else NotScored
      ensures r.score.None? ==> !r.isSuspicious
    {
      var outcome := CheckTransactionFraud(t, disk);
      r := if outcome.Err? then NotScored else outcome.value;
    }
  }

  /** Once a model is held, scoring the same transaction twice gives the same answer. */
  method ScoreTwice(service: FraudDetectionService, t: Transaction, disk: Disk)
    returns (first: Result<FraudResult, StoreError>, second: Result<FraudResult, StoreError>)
    requires service.model.Some?
    modifies service
    ensures service.model == old(service.model)
    ensures first == second && first.Ok?
  {
    first := service.CheckTransactionFraud(t, disk);
    second := service.CheckTransactionFraud(t, disk);
  }
}
