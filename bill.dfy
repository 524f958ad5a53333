/**
 * Bill: what a payment request carries, a list of line items (exactly one in
 * this version of the API) and an optional default payer email, assembled by a
 * Builder.
 */
module Bills {
  import opened Errors
  import LineItems

  type LineItem = LineItems.LineItem

  /**
   * `lineItems` holds Java references, so an element may be null: `build()`
   * does not check that an item was added.
   */
  datatype Bill = Bill(lineItems: seq<Option<LineItem>>, defaultEmail: Option<string>) {
    /** What `readObject` re-checks. */
    predicate Valid() {
      |lineItems| == 1
    }
  }

  /** The check `readObject` runs on the fields as read: a list of exactly one element. */
  function ReadBill(lineItems: Option<seq<Option<LineItem>>>, defaultEmail: Option<string>): (r: Result<Bill>)
    ensures r.Ok? <==> lineItems.Some? && |lineItems.value| == 1
    ensures r.Ok? ==> r.value == Bill(lineItems.value, defaultEmail) && r.value.Valid()
    ensures r.Err? ==> r == Err(Assertion("invalid items"))
  {
    if lineItems.None? || |lineItems.value| != 1 then Err(Assertion("invalid items"))
    else Ok(Bill(lineItems.value, defaultEmail))
  }

  /** Every valid Bill survives a serialization round trip with its items and email intact. */
  lemma ValidBillRevalidates(b: Bill)
    requires b.Valid()
    ensures ReadBill(Some(b.lineItems), b.defaultEmail) == Ok(b)
  {
  }

  /** `Bill.Builder`. */
  class Builder {
    var lineItem: Option<LineItem>
    var defaultEmail: Option<string>

    /** A default email is only ever accepted once an item is present. */
    ghost predicate Valid()
      reads this
    {
      defaultEmail.Some? ==> lineItem.Some?
    }

    constructor ()
      ensures Valid()
      ensures lineItem == None && defaultEmail == None
    {
      lineItem, defaultEmail := None, None;
    }

    /** `add(item)`: a second item is refused before the null check. */
    method Add(item: Option<LineItem>) returns (r: Outcome)
      requires Valid()
      modifies this
      ensures Valid()
      ensures old(lineItem).Some? ==> r == Fail(IllegalState("> 1 line item"))
      ensures old(lineItem).None? && item.None? ==> r == Fail(NullPointer(Some("lineItem")))
      ensures r.Pass? <==> old(lineItem).None? && item.Some?
      ensures lineItem == (if r.Pass? then item else old(lineItem))
      ensures defaultEmail == old(defaultEmail)
    {
      if lineItem.Some? {
        return Fail(IllegalState("> 1 line item"));
      }
      if item.None? {
        return Fail(NullPointer(Some("lineItem")));
      }
      lineItem := item;
      r := Pass;
    }

    /**
     * `defaultEmail(email)`: already set, then no item yet. The email itself
     * is not null-checked, so `defaultEmail(null)` succeeds and leaves it unset.
     */
    method SetDefaultEmail(email: Option<string>) returns (r: Outcome)
      requires Valid()
      modifies this
      ensures Valid()
      ensures old(defaultEmail).Some? ==> r == Fail(AlreadySet("default email"))
      ensures old(defaultEmail).None? && old(lineItem).None? ==> r == Fail(NullPointer(Some("item")))
      ensures r.Pass? <==> old(defaultEmail).None? && old(lineItem).Some?
      ensures defaultEmail == (if r.Pass? then email else old(defaultEmail))
      ensures lineItem == old(lineItem)
    {
      if defaultEmail.Some? {
        return Fail(AlreadySet("default email"));
      }
      if lineItem.None? {
        return Fail(NullPointer(Some("item")));
      }
      defaultEmail := email;
      r := Pass;
    }

    /**
     * `build()`: a one-element list of the item (null when none was added)
     * and the email. It never fails, and what it returns passes `readObject`'s
     * check; a bill with a default email always holds an item.
     */
    method Build() returns (b: Bill)
      requires Valid()
      ensures b.lineItems == [lineItem] && b.defaultEmail == defaultEmail
      ensures b.Valid() && ReadBill(Some(b.lineItems), b.defaultEmail) == Ok(b)
      ensures b.defaultEmail.Some? ==> b.lineItems[0].Some?
    {
      b := Bill([lineItem], defaultEmail);
    }
  }

  /** `Bill.containing(item)`, i.e. `new Builder().add(item).build()`. */
  method Containing(item: Option<LineItem>) returns (r: Result<Bill>)
    ensures item.None? ==> r == Err(NullPointer(Some("lineItem")))
    ensures item.Some? ==> r == Ok(Bill([item], None))
    ensures r.Ok? ==> r.value.Valid()
  {
    var builder := new Builder();
    var added := builder.Add(item);
    if added.Fail? {
      return Err(added.error);
    }
    var bill := builder.Build();
    r := Ok(bill);
  }

  /** On a fresh builder, a default email before any item fails, and a second item fails. */
  method OutOfOrderCalls(first: LineItem, second: LineItem, email: string) returns (early: Outcome, extra: Outcome)
    ensures early == Fail(NullPointer(Some("item")))
    ensures extra == Fail(IllegalState("> 1 line item"))
  {
    var b := new Builder();
    early := b.SetDefaultEmail(Some(email));
    var ok := b.Add(Some(first));
    extra := b.Add(Some(second));
  }
}
