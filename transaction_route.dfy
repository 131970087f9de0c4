/**
 * The checks `create_transaction` makes on a request body before it builds a record:
 * the required fields in their order, the amount's format and range, and the id
 * derived from a fresh UUID.
 */
module TransactionRoute {
  import opened Wrappers
  import Transactions

  /** A JSON value as `request.get_json()` decodes it; the contents of lists and objects do not matter here. */
  datatype Json = JNull | JBool(b: bool) | JNumber(x: real) | JString(s: string) | JList | JObject

  /** The request body: a JSON object. */
  type RequestBody = map<string, Json>

  const RequiredFields: seq<string> := ["amount", "sender_upi_id", "receiver_upi_id",
                                        "sender_name", "receiver_name", "sender_phone", "receiver_phone"]

  const RangeMessage := "Amount must be between 1 and 100,000 rupees"
  const FormatMessage := "Invalid amount format"

  /** An error response: HTTP status and the `error` text. */
  datatype Rejection = Rejection(status: int, message: string)

  /** What validation hands on to record creation: the new id and the amount as a float. */
  datatype Accepted = Accepted(id: string, amount: real)

  predicate AllPresent(data: RequestBody)
    ensures AllPresent(data) ==> "amount" in data
  {
    assert RequiredFields[0] == "amount";
    forall k :: 0 <= k < |RequiredFields| ==> RequiredFields[k] in data
  }

  /** Field number `k` is the first required field the body lacks. */
  predicate FirstMissing(data: RequestBody, k: int) {
    && 0 <= k < |RequiredFields| && RequiredFields[k] !in data
    && forall j :: 0 <= j < k ==> RequiredFields[j] in data
  }

  /** The scan over the required fields, stopping at the first one absent. */
  method FindMissingField(data: RequestBody) returns (missing: Option<string>)
    ensures missing.None? <==> AllPresent(data)
    ensures missing.Some? ==> exists k :: FirstMissing(data, k) && missing.value == RequiredFields[k]
  {
    for i := 0 to |RequiredFields|
      invariant forall j :: 0 <= j < i ==> RequiredFields[j] in data
    {
      if RequiredFields[i] !in data {
        return Some(RequiredFields[i]);
      }
    }
    return None;
  }

  /**
   * `float(v)`: numbers as they are, booleans as 1.0 and 0.0, strings through the
   * string parser (None is its ValueError); null, lists and objects raise TypeError (None).
   */
  function ToFloat(v: Json, parseFloat: string -> Option<real>): (r: Option<real>)
    ensures r.None? <==> v.JNull? || v.JList? || v.JObject? || (v.JString? && parseFloat(v.s).None?)
    ensures v.JNumber? ==> r == Some(v.x)
    ensures v.JBool? ==> r.Some? && (r.value == 1.0 <==> v.b) && (r.value == 0.0 <==> !v.b)
  {
    match v
    case JNumber(x) => Some(x)
    case JBool(b) => Some(if b then 1.0 else 0.0)
    case JString(s) => parseFloat(s)
    case _ => None
  }

  /** The route's range check: rejected when `amount <= 0 or amount > 100000`. */
  predicate AmountAccepted(amount: real)
    ensures AmountAccepted(amount) <==> 0.0 < amount <= 100000.0
  {
    !(amount <= 0.0 || amount > 100000.0)
  }

  /** On the amount as sent, the route's check and the table's `amount_range` constraint agree. */
  lemma {:induction false} AmountCheckMatchesConstraint(amount: real)
    ensures AmountAccepted(amount) <==> Transactions.AmountRange(amount)
  {
  }

  /**
   * On the amount as stored, they do not: an accepted amount meets the constraint after
   * rounding to cents exactly when it is at least 0.005.
   */
  lemma {:induction false} AcceptedAmountStored(amount: real)
    requires AmountAccepted(amount)
    ensures Transactions.AmountRange(Transactions.StoredAmount(amount)) <==> amount >= 0.005
  {
    var c := Transactions.StoredCents(amount);
    if amount >= 0.005 {
      assert c as real >= amount * 100.0 - 0.5 >= 0.0;
      assert c >= 1 by {
        assert (amount * 100.0 + 0.5).Floor >= 1;
      }
    } else {
      assert c == 0;
    }
    assert c <= 10000000;
  }

  /** 0.004 is accepted and stored as 0.00, which the table's constraint refuses. */
  lemma {:induction false} TinyAmountViolatesConstraint()
    ensures AmountAccepted(0.004)
    ensures Transactions.StoredAmount(0.004) == 0.0
    ensures !Transactions.AmountRange(Transactions.StoredAmount(0.004))
  {
    AcceptedAmountStored(0.004);
  }

  /** The range the error text states: from 1 to 100,000 rupees. */
  predicate AmountInStatedRange(amount: real) {
    1.0 <= amount <= 100000.0
  }

  /** Every amount in the stated range still meets `amount_range` once rounded to cents. */
  lemma {:induction false} StatedRangeIsStorable(amount: real)
    requires AmountInStatedRange(amount)
    ensures Transactions.AmountRange(Transactions.StoredAmount(amount))
  {
    AcceptedAmountStored(amount);
  }

  // ---------------------------------------------------------------------------
  // Transaction id

  predicate IsLowerHex(c: char) { '0' <= c <= '9' || 'a' <= c <= 'f' }
  predicate IsUpperHex(c: char) { '0' <= c <= '9' || 'A' <= c <= 'F' }

  predicate IsHyphenPosition(i: int) { i == 8 || i == 13 || i == 18 || i == 23 }

  /** The text of `uuid.uuid4()`: 32 lower-case hex digits in groups 8-4-4-4-12. */
  predicate IsUuidText(s: string) {
    |s| == 36 && forall i :: 0 <= i < 36 ==> if IsHyphenPosition(i) then s[i] == '-' else IsLowerHex(s[i])
  }

  function UpperChar(c: char): char {
    if 'a' <= c <= 'z' then (c as int - 32) as char else c
  }

  function LowerChar(c: char): char {
    if 'A' <= c <= 'Z' then (c as int + 32) as char else c
  }

  /** `str(uuid)[:16].upper()`. */
  function DeriveId(uuidText: string): (id: string)
    requires IsUuidText(uuidText)
    ensures |id| == 16
    ensures id[8] == '-' && id[13] == '-'
    ensures forall i :: 0 <= i < 16 && !IsHyphenPosition(i) ==> IsUpperHex(id[i])
    ensures forall i :: 0 <= i < 16 ==> LowerChar(id[i]) == uuidText[i]
  {
    seq(16, i requires 0 <= i < 16 => UpperChar(uuidText[i]))
  }

  // ---------------------------------------------------------------------------
  // The validation part of create_transaction

  /**
   * Lines 21-40 of `create_transaction`: a 400 naming the first missing field, then a 400
   * for an amount that is not a number or is out of range, else the derived id and the amount.
   */
  method ValidateCreateRequest(data: RequestBody, parseFloat: string -> Option<real>, uuidText: string)
    returns (r: Result<Accepted, Rejection>)
    requires IsUuidText(uuidText)
    ensures !AllPresent(data) ==>
      exists k :: FirstMissing(data, k) && r == Err(Rejection(400, RequiredFields[k] + " is required"))
    ensures AllPresent(data) && ToFloat(data["amount"], parseFloat).None? ==> r == Err(Rejection(400, FormatMessage))
    ensures AllPresent(data) && ToFloat(data["amount"], parseFloat).Some? ==>
      var amount := ToFloat(data["amount"], parseFloat).value;
      r == if AmountAccepted(amount) then Ok(Accepted(DeriveId(uuidText), amount)) else Err(Rejection(400, RangeMessage))
    ensures r.Ok? ==> Transactions.AmountRange(r.value.amount) && |r.value.id| == 16
  {
    var missing := FindMissingField(data);
    if missing.Some? {
      return Err(Rejection(400, missing.value + " is required"));
    }
    var amount := ToFloat(data["amount"], parseFloat);
    if amount.None? {
      return Err(Rejection(400, FormatMessage));
    }
    if amount.value <= 0.0 || amount.value > 100000.0 {
      return Err(Rejection(400, RangeMessage));
    }
    r := Ok(Accepted(DeriveId(uuidText), amount.value));
  }
}
