/**
 * LineItem: one entry of a bill, with an optional description, a required
 * price and an optional image, assembled by a Builder whose fields can each be
 * set once.
 */
module LineItems {
  import opened Errors
  import opened Integers
  import opened Monetary
  import opened Images

  const MAX_DESCRIPTION_LENGTH := 140

  datatype LineItem = LineItem(description: Option<string>, price: Money, image: Option<Image>) {
    /** What the builder guarantees and `readObject` re-checks. */
    predicate Valid() {
      && price.amount <= INT32_MAX
      && (description.Some? ==> |description.value| <= MAX_DESCRIPTION_LENGTH)
    }
  }

  /**
   * The check `readObject` runs on the fields as read: the price is present,
   * its amount fits in an `int`, and the description is absent or short enough.
   */
  function ReadLineItem(description: Option<string>, price: Option<Money>, image: Option<Image>): (r: Result<LineItem>)
    ensures r.Ok? <==> price.Some? && LineItem(description, price.value, image).Valid()
    ensures r.Ok? ==> r.value == LineItem(description, price.value, image)
    ensures r.Err? ==> r.error.Assertion?
    ensures price.None? ==> r == Err(Assertion("missing price"))
    ensures price.Some? && price.value.amount > INT32_MAX ==>
              r == Err(Assertion("price.amount() > Integer.MAX_VALUE"))
    ensures price.Some? && price.value.amount <= INT32_MAX &&
            description.Some? && |description.value| > MAX_DESCRIPTION_LENGTH ==>
              r == Err(Assertion("description.length() > 140"))
  {
    if price.None? then Err(Assertion("missing price"))
    else if price.value.amount > INT32_MAX then Err(Assertion("price.amount() > Integer.MAX_VALUE"))
    else if description.Some? && |description.value| > MAX_DESCRIPTION_LENGTH then
      Err(Assertion("description.length() > 140"))
    else Ok(LineItem(description, price.value, image))
  }

  /** Every valid LineItem survives a serialization round trip. */
  lemma ValidItemRevalidates(item: LineItem)
    requires item.Valid()
    ensures ReadLineItem(item.description, Some(item.price), item.image) == Ok(item)
  {
  }

  /** `LineItem.Builder`. */
  class Builder {
    var description: Option<string>
    var price: Option<Money>
    var image: Option<Image>

    /** What the setters' guards establish about the fields set so far. */
    ghost predicate Valid()
      reads this
    {
      && (description.Some? ==> |description.value| <= MAX_DESCRIPTION_LENGTH)
      && (price.Some? ==> price.value.amount <= INT32_MAX)
    }

    constructor ()
      ensures Valid()
      ensures description == None && price == None && image == None
    {
      description, price, image := None, None, None;
    }

    /** `description(d)`: already set, then null, then too long. */
    method SetDescription(d: Option<string>) returns (r: Outcome)
      requires Valid()
      modifies this
      ensures Valid()
      ensures old(description).Some? ==> r == Fail(AlreadySet("description"))
      ensures old(description).None? && d.None? ==> r == Fail(NullPointer(Some("description")))
      ensures old(description).None? && d.Some? && |d.value| > MAX_DESCRIPTION_LENGTH ==>
                r == Fail(IllegalArgument("description > 140 chars"))
      ensures r.Pass? <==> old(description).None? && d.Some? && |d.value| <= MAX_DESCRIPTION_LENGTH
      ensures description == (if r.Pass? then d else old(description))
      ensures price == old(price) && image == old(image)
    {
      if description.Some? {
        return Fail(AlreadySet("description"));
      }
      if d.None? {
        return Fail(NullPointer(Some("description")));
      }
      if |d.value| > MAX_DESCRIPTION_LENGTH {
        return Fail(IllegalArgument("description > 140 chars"));
      }
      description := d;
      r := Pass;
    }

    /**
     * `price(p)`: already set, then null (the dereference of `p`), then the
     * amount over Integer.MAX_VALUE, which no valid Money reaches.
     */
    method SetPrice(p: Option<Money>) returns (r: Outcome)
      requires Valid()
      modifies this
      ensures Valid()
      ensures old(price).Some? ==> r == Fail(AlreadySet("price"))
      ensures old(price).None? && p.None? ==> r == Fail(NullPointer(None))
      ensures old(price).None? && p.Some? && p.value.amount > INT32_MAX ==>
                r == Fail(IllegalArgument("price.amount() > Integer.MAX_VALUE"))
      ensures r.Pass? <==> old(price).None? && p.Some? && p.value.amount <= INT32_MAX
      ensures p.Some? && p.value.Valid() ==> r != Fail(IllegalArgument("price.amount() > Integer.MAX_VALUE"))
      ensures price == (if r.Pass? then p else old(price))
      ensures description == old(description) && image == old(image)
    {
      if price.Some? {
        return Fail(AlreadySet("price"));
      }
      if p.None? {
        return Fail(NullPointer(None));
      }
      if p.value.amount > INT32_MAX {
        return Fail(IllegalArgument("price.amount() > Integer.MAX_VALUE"));
      }
      price := p;
      r := Pass;
    }

    /**
     * `price(amount, currency)`, i.e. `price(new Money(amount, currency))`:
     * Money's own errors come first, even when a price is already set.
     */
    method SetPriceAmount(amount: int32, currency: Option<Currency>) returns (r: Outcome)
      requires Valid()
      modifies this
      ensures Valid()
      ensures NewMoney(amount, currency).Err? ==> r == Fail(NewMoney(amount, currency).error)
      ensures NewMoney(amount, currency).Ok? && old(price).Some? ==> r == Fail(AlreadySet("price"))
      ensures r.Pass? <==> NewMoney(amount, currency).Ok? && old(price).None?
      ensures r.Pass? ==> currency.Some? && price == Some(Money(amount, currency.value))
      ensures r.Fail? ==> price == old(price)
      ensures description == old(description) && image == old(image)
    {
      var m := NewMoney(amount, currency);
      if m.Err? {
        return Fail(m.error);
      }
      r := SetPrice(Some(m.value));
    }

    /** `image(i)`: already set, then null. */
    method SetImage(i: Option<Image>) returns (r: Outcome)
      requires Valid()
      modifies this
      ensures Valid()
      ensures old(image).Some? ==> r == Fail(AlreadySet("image"))
      ensures old(image).None? && i.None? ==> r == Fail(NullPointer(Some("image")))
      ensures r.Pass? <==> old(image).None? && i.Some?
      ensures image == (if r.Pass? then i else old(image))
      ensures description == old(description) && price == old(price)
    {
      if image.Some? {
        return Fail(AlreadySet("image"));
      }
      if i.None? {
        return Fail(NullPointer(Some("image")));
      }
      image := i;
      r := Pass;
    }

    /**
     * `image(url, type)`, i.e. `image(new Image(url, type))`: Image's null
     * checks come first, even when an image is already set.
     */
    method SetImageUrl(url: Option<Uri>, imageType: Option<ImageType>) returns (r: Outcome)
      requires Valid()
      modifies this
      ensures Valid()
      ensures NewImage(url, imageType).Err? ==> r == Fail(NullPointer(None))
      ensures NewImage(url, imageType).Ok? && old(image).Some? ==> r == Fail(AlreadySet("image"))
      ensures r.Pass? <==> url.Some? && imageType.Some? && old(image).None?
      ensures r.Pass? ==> image == Some(Image(url.value, imageType.value))
      ensures r.Fail? ==> image == old(image)
      ensures description == old(description) && price == old(price)
    {
      var i := NewImage(url, imageType);
      if i.Err? {
        return Fail(i.error);
      }
      r := SetImage(Some(i.value));
    }

    /**
     * `build()`: fails iff no price was set; otherwise a LineItem holding the
     * builder's fields, which passes `readObject`'s check. The builder is not changed.
     */
    method Build() returns (r: Result<LineItem>)
      requires Valid()
      ensures r.Ok? <==> price.Some?
      ensures price.None? ==> r == Err(IllegalState("price not set."))
      ensures r.Ok? ==> r.value.description == description && Some(r.value.price) == price && r.value.image == image
      ensures r.Ok? ==> r.value.Valid() && ReadLineItem(description, price, image) == r
    {
      if price.None? {
        return Err(IllegalState("price not set."));
      }
      r := Ok(LineItem(description, price.value, image));
    }
  }

  /** A character Java stores as one UTF-16 code unit. */
  predicate InBasicPlane(s: string) {
    forall i :: 0 <= i < |s| ==> s[i] as int < 0x1_0000
  }

  /**
   * On fresh builders, a description of 140 characters of the Basic
   * Multilingual Plane (140 UTF-16 code units) is accepted and one of 141 is
   * rejected.
   */
  method DescriptionLengthBoundary(atLimit: string, overLimit: string) returns (accepted: Outcome, rejected: Outcome)
    requires InBasicPlane(atLimit) && InBasicPlane(overLimit)
    requires |atLimit| == MAX_DESCRIPTION_LENGTH && |overLimit| == MAX_DESCRIPTION_LENGTH + 1
    ensures accepted == Pass
    ensures rejected == Fail(IllegalArgument("description > 140 chars"))
  {
    var b1 := new Builder();
    accepted := b1.SetDescription(Some(atLimit));
    var b2 := new Builder();
    rejected := b2.SetDescription(Some(overLimit));
  }

  /** On a fresh builder, setting the price twice fails the second time. */
  method PriceSetTwice(first: Money, second: Money) returns (r: Outcome)
    requires first.Valid()
    ensures r == Fail(AlreadySet("price"))
  {
    var b := new Builder();
    var ok := b.SetPrice(Some(first));
    r := b.SetPrice(Some(second));
  }
}
