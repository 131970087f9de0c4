/**
 * Batch prediction, `predict_new`: load the model, encode the batch with the
 * training encoder, classify X, map the classes to labels and keep five columns.
 */
module Predict {
  import opened Wrappers
  import opened ModelStore
  import opened Preprocess
  import opened Timestamp

  /** The Prediction column after `.map({0: "NOT_SUSPICIOUS", 1: "SUSPICIOUS"})`; any other class maps to NaN. */
  datatype Prediction = NotSuspicious | Suspicious | Unmapped
  {
    /** The text of the label; None for NaN. */
    function Text(): Option<string> {
      match this
      case NotSuspicious => Some("NOT_SUSPICIOUS")
      case Suspicious => Some("SUSPICIOUS")
      case Unmapped => None
    }
  }

  /** The label of one predicted class. */
  function LabelOf(p: int): (l: Prediction)
    ensures l == Suspicious <==> p == 1
    ensures l == NotSuspicious <==> p == 0
    ensures l == Unmapped <==> p != 0 && p != 1
  {
    if p == 0 then NotSuspicious else if p == 1 then Suspicious else Unmapped
  }

  /** One row of the result: Transaction ID, Amount, Sender UPI ID, Receiver UPI ID, Prediction. */
  datatype OutputRow = OutputRow(transactionId: string, amount: real, senderUpiId: string, receiverUpiId: string,
                                 prediction: Prediction)

  datatype PredictError =
    | LoadFailed(cause: StoreError)
    | EncodeFailed(reason: EncodeError)
      /** `model.predict` returned a column whose length differs from the frame's. */
    | LengthMismatch

  /** The classes the loaded model predicts for X of the encoded batch. */
  function Classes(clf: Classifier, batch: Batch): seq<int> {
    clf(Matrix(batch.x))
  }

  /** Labels each predicted class and keeps the five output columns of every row. */
  function Project(frame: seq<RawRow>, classes: seq<int>): (out: seq<OutputRow>)
    requires |classes| == |frame|
    ensures |out| == |frame|
    ensures forall i :: 0 <= i < |frame| ==>
      && out[i].transactionId == frame[i].transactionId && out[i].amount == frame[i].amount
      && out[i].senderUpiId == frame[i].senderUpiId && out[i].receiverUpiId == frame[i].receiverUpiId
      && (out[i].prediction == Suspicious <==> classes[i] == 1)
      && (out[i].prediction == NotSuspicious <==> classes[i] == 0)
  {
    seq(|frame|, i requires 0 <= i < |frame| =>
      OutputRow(frame[i].transactionId, frame[i].amount, frame[i].senderUpiId, frame[i].receiverUpiId,
                LabelOf(classes[i])))
  }

  /** `predict_new` on an already read batch and the artifact at `modelPath`. */
  function PredictNew(rows: seq<RawRow>, disk: Disk, modelPath: string): (r: Result<seq<OutputRow>, PredictError>)
    ensures LoadModel(disk, modelPath).Err? ==> r == Err(LoadFailed(LoadModel(disk, modelPath).error))
    ensures LoadModel(disk, modelPath).Ok? && PreprocessData(rows).Err? ==> r == Err(EncodeFailed(MalformedTimestamp))
    ensures r.Ok? <==> LoadModel(disk, modelPath).Ok? && PreprocessData(rows).Ok?
                       && |Classes(LoadModel(disk, modelPath).value, PreprocessData(rows).value)| == |rows|
    ensures r.Ok? ==> |r.value| == |rows|
    ensures r.Ok? ==> forall i :: 0 <= i < |rows| ==>
      && r.value[i].transactionId == rows[i].transactionId && r.value[i].amount == rows[i].amount
      && r.value[i].senderUpiId == rows[i].senderUpiId && r.value[i].receiverUpiId == rows[i].receiverUpiId
      && r.value[i].prediction == LabelOf(Classes(LoadModel(disk, modelPath).value, PreprocessData(rows).value)[i])
  {
    match LoadModel(disk, modelPath)
    case Err(e) => Err(LoadFailed(e))
    case Ok(clf) =>
      match PreprocessData(rows)
      case Err(e) => Err(EncodeFailed(e))
      case Ok(batch) =>
        var classes := Classes(clf, batch);
        if |classes| != |batch.frame| then Err(LengthMismatch)
        else Ok(Project(batch.frame, classes))
  }

  /** Once the model loads and the batch encodes, the result hinges on the length of the predicted column. */
  lemma {:induction false} PredictNewLoaded(rows: seq<RawRow>, disk: Disk, modelPath: string)
    requires LoadModel(disk, modelPath).Ok? && PreprocessData(rows).Ok?
    ensures var classes := Classes(LoadModel(disk, modelPath).value, PreprocessData(rows).value);
      PredictNew(rows, disk, modelPath) == if |classes| == |rows| then Ok(Project(rows, classes)) else Err(LengthMismatch)
  {
  }

  /** A one-row batch that loads and encodes yields one output row, labelled with the single predicted class. */
  lemma {:induction false} OneRowPrediction(row: RawRow, disk: Disk, modelPath: string)
    requires LoadModel(disk, modelPath).Ok? && PreprocessData([row]).Ok?
    ensures var preds := Classes(LoadModel(disk, modelPath).value, PreprocessData([row]).value);
      PredictNew([row], disk, modelPath)
      == if |preds| == 1
         then Ok([OutputRow(row.transactionId, row.amount, row.senderUpiId, row.receiverUpiId, LabelOf(preds[0]))])
         else Err(LengthMismatch)
  {
    PredictNewLoaded([row], disk, modelPath);
    var preds := Classes(LoadModel(disk, modelPath).value, PreprocessData([row]).value);
    if |preds| == 1 {
      assert Project([row], preds)
          == [OutputRow(row.transactionId, row.amount, row.senderUpiId, row.receiverUpiId, LabelOf(preds[0]))];
    }
  }

  /** A one-row batch reaches the classifier as its amount, its hour and four zero codes. */
  lemma {:induction false} OneRowClassifierInput(row: RawRow)
    requires Parses(row.timestamp)
    ensures PreprocessData([row]).Ok?
    ensures Matrix(PreprocessData([row]).value.x)
            == [[row.amount, ParseTimestamp(row.timestamp).value.hour as real, 0.0, 0.0, 0.0, 0.0]]
  {
    SingleRowBatch(row);
  }
}
