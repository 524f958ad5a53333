/**
 * Money: an amount in atomic units of a currency (cents for the U.S. dollar),
 * validated when constructed and re-validated when deserialized.
 */
module Monetary {
  import opened Errors
  import opened Integers

  /** The currencies the API supports. */
  datatype Currency = USD

  /** The largest amount Square supports: nine digits, $9,999,999.99. */
  const MAX_AMOUNT: int64 := 999_999_999

  datatype Money = Money(amount: int64, currency: Currency) {
    /** The state the constructor establishes and `readObject` re-checks. */
    predicate Valid() {
      0 <= amount <= MAX_AMOUNT
    }
  }

  /**
   * `new Money(amount, currency)`: the currency is checked for null first,
   * then the lower bound, then the upper bound.
   */
  function NewMoney(amount: int64, currency: Option<Currency>): (r: Result<Money>)
    ensures r.Ok? <==> currency.Some? && 0 <= amount <= MAX_AMOUNT
    ensures r.Ok? ==> r.value.amount == amount && r.value.currency == currency.value && r.value.Valid()
    ensures currency.None? ==> r == Err(NullPointer(Some("currency")))
    ensures currency.Some? && amount < 0 ==> r == Err(IllegalArgument("amount < 0"))
    ensures currency.Some? && amount > MAX_AMOUNT ==> r == Err(IllegalArgument("amount > MAX_AMOUNT"))
    ensures r.Err? ==> r.error.IsUsageError()
  {
    if currency.None? then Err(NullPointer(Some("currency")))
    else if amount < 0 then Err(IllegalArgument("amount < 0"))
    else if amount > MAX_AMOUNT then Err(IllegalArgument("amount > MAX_AMOUNT"))
    else Ok(Money(amount, currency.value))
  }

  /**
   * The check `readObject` runs on the fields as read from the stream: the
   * same conditions as the constructor, reported as assertion failures.
   */
  function ReadMoney(amount: int64, currency: Option<Currency>): (r: Result<Money>)
    ensures r.Ok? <==> currency.Some? && Money(amount, currency.value).Valid()
    ensures r.Ok? ==> r.value == Money(amount, currency.value)
    ensures r.Err? ==> r.error.Assertion?
    ensures currency.None? ==> r == Err(Assertion("missing currency"))
    ensures currency.Some? && amount < 0 ==> r == Err(Assertion("amount < 0"))
    ensures currency.Some? && amount > MAX_AMOUNT ==> r == Err(Assertion("amount > MAX_AMOUNT"))
  {
    if currency.None? then Err(Assertion("missing currency"))
    else if amount < 0 then Err(Assertion("amount < 0"))
    else if amount > MAX_AMOUNT then Err(Assertion("amount > MAX_AMOUNT"))
    else Ok(Money(amount, currency.value))
  }

  /**
   * Deserialization accepts exactly the field values the constructor accepts,
   * yields the same Money, and fails with a different kind of error.
   */
  lemma ReadMoneyAgreesWithConstructor(amount: int64, currency: Option<Currency>)
    ensures ReadMoney(amount, currency).Ok? <==> NewMoney(amount, currency).Ok?
    ensures NewMoney(amount, currency).Ok? ==> ReadMoney(amount, currency) == NewMoney(amount, currency)
    ensures NewMoney(amount, currency).Err? ==>
              ReadMoney(amount, currency).error.Assertion? && !NewMoney(amount, currency).error.Assertion?
  {
  }

  /** Every Money the constructor returns survives a serialization round trip. */
  lemma ConstructedMoneyRevalidates(amount: int64, currency: Option<Currency>)
    requires NewMoney(amount, currency).Ok?
    ensures var m := NewMoney(amount, currency).value; ReadMoney(m.amount, Some(m.currency)) == Ok(m)
  {
  }

  /** MAX_AMOUNT is below Integer.MAX_VALUE, so a valid amount fits in an `int`. */
  lemma ValidAmountFitsInt(m: Money)
    requires m.Valid()
    ensures 0 <= m.amount <= INT32_MAX
  {
  }
}
