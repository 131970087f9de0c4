/**
 * The `transactions` table: its record, the column declarations that bound what a
 * row can hold, the `amount_range` check constraint, and the `to_dict` serialiser
 * used for API responses.
 */
module Transactions {
  import opened Wrappers
  import opened Timestamp

  /** One row of the table. `amount` is the stored Numeric(10, 2) value. */
  datatype Transaction = Transaction(id: string, amount: real,
                                     senderUpiId: string, receiverUpiId: string,
                                     senderName: string, receiverName: string,
                                     senderPhone: string, receiverPhone: string,
                                     timestamp: DateTime)

  /** The `amount_range` check constraint: `amount > 0 AND amount <= 100000`. */
  predicate AmountRange(amount: real) {
    amount > 0.0 && amount <= 100000.0
  }

  /** The declared widths: String(50) id, String(100) UPI ids and names, String(15) phones. */
  predicate FitsColumns(t: Transaction) {
    && |t.id| <= 50
    && |t.senderUpiId| <= 100 && |t.receiverUpiId| <= 100
    && |t.senderName| <= 100 && |t.receiverName| <= 100
    && |t.senderPhone| <= 15 && |t.receiverPhone| <= 15
  }

  /** Numeric(10, 2) holds fewer than 10^8 in magnitude. */
  const NumericLimit: real := 100000000.0

  /** A Numeric(10, 2) column stores its value rounded to whole cents, halves away from zero. */
  function StoredCents(a: real): (c: int)
    ensures a >= 0.0 ==> a * 100.0 - 0.5 < c as real <= a * 100.0 + 0.5
    ensures a < 0.0 ==> a * 100.0 - 0.5 <= c as real < a * 100.0 + 0.5
    ensures a >= 0.0 ==> c >= 0
  {
    if a >= 0.0 then (a * 100.0 + 0.5).Floor
    else -((-a) * 100.0 + 0.5).Floor
  }

  /** The amount a Numeric(10, 2) column holds for `a`. */
  function StoredAmount(a: real): real {
    StoredCents(a) as real / 100.0
  }

  datatype DbError = StringTooLong | NumericOverflow | CheckViolation | DuplicateKey

  /**
   * What the table does with a new row: the value it stores, or the error with which
   * it refuses the insert, from the column types, the check constraint and the key.
   */
  function Admit(table: seq<Transaction>, t: Transaction): (r: Result<Transaction, DbError>)
    ensures r.Ok? ==> r.value == t.(amount := StoredAmount(t.amount))
    ensures r.Ok? <==> FitsColumns(t) && AmountRange(StoredAmount(t.amount))
                       && forall i :: 0 <= i < |table| ==> table[i].id != t.id
  {
    var stored := StoredAmount(t.amount);
    if !FitsColumns(t) then Err(StringTooLong)
    else if stored >= NumericLimit || stored <= -NumericLimit then Err(NumericOverflow)
    else if !AmountRange(stored) then Err(CheckViolation)
    else if exists i :: 0 <= i < |table| && table[i].id == t.id then Err(DuplicateKey)
    else Ok(t.(amount := stored))
  }

  /** What the table guarantees of its rows: the constraint, the widths, distinct primary keys. */
  predicate TableInvariant(table: seq<Transaction>) {
    && (forall i :: 0 <= i < |table| ==> AmountRange(table[i].amount) && FitsColumns(table[i]))
    && (forall i, j :: 0 <= i < j < |table| ==> table[i].id != table[j].id)
  }

  /** Inserting a row into the table, which keeps the invariant. */
  function Insert(table: seq<Transaction>, t: Transaction): (r: Result<seq<Transaction>, DbError>)
    ensures r.Ok? ==> Admit(table, t).Ok? && r.value == table + [Admit(table, t).value]
    ensures r.Err? ==> Admit(table, t).Err?
    ensures TableInvariant(table) && r.Ok? ==> TableInvariant(r.value)
  {
    match Admit(table, t)
    case Err(e) => Err(e)
    case Ok(row) => Ok(table + [row])
  }

  // ---------------------------------------------------------------------------
  // to_dict

  /** A value of the response dictionary. */
  datatype DictValue = Text(s: string) | Number(x: real)

  const DictKeys: set<string> := {"id", "amount", "sender_upi_id", "receiver_upi_id", "sender_name",
                                  "receiver_name", "sender_phone", "receiver_phone", "timestamp"}

  /** `to_dict`: the nine response fields. */
  function ToDict(t: Transaction): (d: map<string, DictValue>)
    ensures d.Keys == DictKeys && |d| == 9
    ensures d["id"] == Text(t.id) && d["amount"] == Number(t.amount)
    ensures d["sender_upi_id"] == Text(t.senderUpiId) && d["receiver_upi_id"] == Text(t.receiverUpiId)
    ensures d["sender_name"] == Text(t.senderName) && d["receiver_name"] == Text(t.receiverName)
    ensures d["sender_phone"] == Text(t.senderPhone) && d["receiver_phone"] == Text(t.receiverPhone)
    ensures d["timestamp"] == Text(IsoFormat(t.timestamp))
  {
    assert |DictKeys| == 9;
    map["id" := Text(t.id), "amount" := Number(t.amount),
        "sender_upi_id" := Text(t.senderUpiId), "receiver_upi_id" := Text(t.receiverUpiId),
        "sender_name" := Text(t.senderName), "receiver_name" := Text(t.receiverName),
        "sender_phone" := Text(t.senderPhone), "receiver_phone" := Text(t.receiverPhone),
        "timestamp" := Text(IsoFormat(t.timestamp))]
  }

  /** `to_dict` loses nothing: two records with the same dictionary are the same record. */
  lemma {:induction false} ToDictInjective(a: Transaction, b: Transaction)
    requires ToDict(a) == ToDict(b)
    ensures a == b
  {
    assert ToDict(a)["timestamp"] == ToDict(b)["timestamp"];
    IsoFormatInjective(a.timestamp, b.timestamp);
    assert ToDict(a)["id"] == ToDict(b)["id"];
    assert ToDict(a)["amount"] == ToDict(b)["amount"];
    assert ToDict(a)["sender_upi_id"] == ToDict(b)["sender_upi_id"];
    assert ToDict(a)["receiver_upi_id"] == ToDict(b)["receiver_upi_id"];
    assert ToDict(a)["sender_name"] == ToDict(b)["sender_name"];
    assert ToDict(a)["receiver_name"] == ToDict(b)["receiver_name"];
    assert ToDict(a)["sender_phone"] == ToDict(b)["sender_phone"];
    assert ToDict(a)["receiver_phone"] == ToDict(b)["receiver_phone"];
  }
}
