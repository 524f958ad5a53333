# Square for Android API — Dafny model

This project models the core of the Square for Android client SDK: the value
objects a merchant application builds (Money, Image, LineItem, Bill), the
builders that validate them field by field, the checks their `readObject`
methods re-run when a serialized object is read back, and the decision logic of
the `Square` entry point (installation status, the payment-request launch, the
market launch and `billFrom`).

Modules follow the source files: `Monetary` (Money.java, with `Currency` folded
in), `Images` (Image.java), `LineItems` (LineItem.java), `Bills` (Bill.java),
`Square` (Square.java), plus `Errors` (null as `Option`, exceptions as
`Result`/`Outcome` carrying the Java exception kind and its detail message) and
`Integers` (Java `int`/`long` ranges and the decimal form Java gives an `int` in
string concatenation).

How the source maps onto Dafny:

- Immutable value objects are datatypes; their accessors (`amount()`,
  `currency()`, `type()`, `url()`, `description()`, `price()`, `image()`,
  `lineItems()`, `defaultEmail()`) are the datatype's fields. Money, LineItem
  and Bill each have a `Valid()` predicate: exactly what their `readObject`
  re-checks. Image has none: its `readObject` checks only that the url and the
  type are non-null, and its fields are not `Option`s, so every Image value
  passes them.
- Constructors that validate (`new Money`, `new Image`) are functions returning
  `Result`. Each `readObject` check is a function over the field values as read
  (nested objects already read) that returns the object or an `Assertion` error.
- `LineItem.Builder` and `Bill.Builder` are classes whose fields the setter
  methods update in place. Each setter returns `Pass` where Java returns `this`,
  or `Fail(e)` where Java throws. Their `build()` methods change nothing.
- `squareUp` is a method that builds the intent step by step, as the source
  does. `PaymentRequest` is the function that specifies it; it is needed to
  state that `squareUp(bill)` equals `squareUp(bill, 0)`.
- The Android package lookup is an input (`Option<int32>`: the version code,
  or None for "name not found"). The activity launches are returned as
  `Launch` values instead of being performed. A `Uri` is its string form. A
  `Context` is given by its package name.

Where the documentation and the code disagree, the model follows the code:

- `Bill.Builder.build()` is documented to fail without an item but does not
  check. It returns a bill whose one-element list holds null (`[None]`), and
  that bill passes `readObject`'s check.
- `Bill.Builder.defaultEmail(email)` is documented to throw
  NullPointerException for a null email. In fact it throws
  NullPointerException("item") when no item has been added yet. A null email is
  accepted and leaves the email unset, so a later call may still set it.
- `LineItem.Builder.image(image)` is documented to throw
  IllegalArgumentException for an unsupported or malformed URL scheme, but it
  checks only "already set" and null. `SetImage` has no such error case.

## Model

| member | source | states |
|---|---|---|
| `Integers.Digits` | src/com/squareup/android/Image.java:61-62 | the decimal digits of a natural number: non-empty, all digits, no leading zero |
| `Integers.Decimal` | src/com/squareup/android/Image.java:61-62 | the string Java gives an `int` in concatenation: digits, with a leading minus sign exactly for negative values, and no leading zero except in "0" itself |
| `Integers.DigitsRoundTrip` | src/com/squareup/android/Image.java:61-62 | reading the digits back gives the number |
| `Integers.DecimalRoundTrip` | src/com/squareup/android/Image.java:61-62 | reading the decimal form back gives the integer, sign included |
| `Integers.DecimalInjective` | src/com/squareup/android/Image.java:61-62 | distinct integers have distinct decimal forms |
| `Monetary.NewMoney` | src/com/squareup/android/Money.java:39-48 | succeeds iff the currency is non-null and 0 <= amount <= 999999999; the checks run in the order null currency (NullPointerException "currency"), amount < 0, amount > MAX_AMOUNT (IllegalArgumentException); on success `amount()`/`currency()` are the arguments; errors are usage errors |
| `Monetary.ReadMoney` | src/com/squareup/android/Money.java:71-77 | the deserialization check: accepts iff the currency is present and the amount is in range, each failure an AssertionError with its message, in the same order |
| `Monetary.ReadMoneyAgreesWithConstructor` | src/com/squareup/android/Money.java:39-77 | deserialization accepts exactly what the constructor accepts and yields the same Money; its failures are assertions, the constructor's never are |
| `Monetary.ConstructedMoneyRevalidates` | src/com/squareup/android/Money.java:71-77 | every constructed Money passes re-validation unchanged |
| `Monetary.ValidAmountFitsInt` | src/com/squareup/android/Money.java:21 | every valid amount lies in 0..Integer.MAX_VALUE, since MAX_AMOUNT is below it |
| `Images.ImageType.MimeType` | src/com/squareup/android/Image.java:19-35 | JPEG maps to "image/jpeg" and PNG to "image/png", both of the form "image/..." |
| `Images.MimeTypeInjective` | src/com/squareup/android/Image.java:21-34 | two image types have the same MIME type iff they are the same type |
| `Errors.AlreadySet` | src/com/squareup/android/LineItem.java:173-175 | the IllegalStateException "<name> is already set." that both builders' `alreadySet` helpers throw (also Bill.java:116-118) |
| `Images.ResourceUrl` | src/com/squareup/android/Image.java:61-62 | "android.resource://" then the package name, then a slash and the resource id in decimal, which is exactly what follows the URL's last slash |
| `Images.NewImage` | src/com/squareup/android/Image.java:47-51 | fails with a message-less NullPointerException iff the url or the type is null; otherwise `type()` is the type and the stored url is the argument's string form |
| `Images.ForResource` | src/com/squareup/android/Image.java:60-63 | an Image of the given type at "android.resource://" + package + "/" + decimal(id); a null type gives the constructor's NullPointerException |
| `Images.ResourceUrlInjective` | src/com/squareup/android/Image.java:60-63 | distinct (package, resource id) pairs get distinct resource URLs: both can be read back from the URL |
| `Images.ReadImage` | src/com/squareup/android/Image.java:86-91 | the deserialization check accepts iff url and type are both present; missing url is reported before missing type |
| `Images.ReadImageAgreesWithConstructor` | src/com/squareup/android/Image.java:47-91 | the check accepts exactly what the constructor accepts, so every constructed Image survives a round trip |
| `LineItems.ReadLineItem` | src/com/squareup/android/LineItem.java:188-198 | the deserialization check: accepts iff the price is present, its amount is at most Integer.MAX_VALUE and the description is absent or at most 140 characters, checked in that order, every failure an AssertionError |
| `LineItems.ValidItemRevalidates` | src/com/squareup/android/LineItem.java:188-198 | every valid LineItem passes re-validation unchanged |
| `LineItems.Builder.constructor` | src/com/squareup/android/LineItem.java:71-73 | a new builder has no field set and satisfies the builder invariant |
| `LineItems.Builder.SetDescription` | src/com/squareup/android/LineItem.java:85-93 | fails with IllegalStateException if a description is set, else NullPointerException for null, else IllegalArgumentException over 140 characters; succeeds otherwise; only `description` changes, and only on success |
| `LineItems.Builder.SetPrice` | src/com/squareup/android/LineItem.java:120-128 | fails if a price is set, else with a NullPointerException for null, else if the amount exceeds Integer.MAX_VALUE, a check no valid Money can fail; only `price` changes, and only on success |
| `LineItems.Builder.SetPriceAmount` | src/com/squareup/android/LineItem.java:106-108 | behaves as setting `new Money(amount, currency)`: Money's errors come before the already-set error; on success the price is Money(amount, currency) |
| `LineItems.Builder.SetImage` | src/com/squareup/android/LineItem.java:165-171 | fails if an image is set, else with NullPointerException for null; only `image` changes, and only on success |
| `LineItems.Builder.SetImageUrl` | src/com/squareup/android/LineItem.java:138-140 | behaves as setting `new Image(url, type)`: Image's null check comes before the already-set error |
| `LineItems.Builder.Build` | src/com/squareup/android/LineItem.java:182-185 | fails with IllegalStateException iff no price was set; otherwise returns the builder's three fields as a LineItem that passes the deserialization check; the builder is not modified |
| `LineItems.DescriptionLengthBoundary` | src/com/squareup/android/LineItem.java:85-93 | a description of 140 characters of the Basic Multilingual Plane (140 UTF-16 code units) is accepted, one of 141 is rejected |
| `LineItems.PriceSetTwice` | src/com/squareup/android/LineItem.java:120-128 | setting a price twice fails the second time with IllegalStateException |
| `Bills.ReadBill` | src/com/squareup/android/Bill.java:130-136 | the deserialization check accepts iff the item list is present and has exactly one element; otherwise AssertionError "invalid items" |
| `Bills.ValidBillRevalidates` | src/com/squareup/android/Bill.java:130-136 | a valid Bill read back has the same line items and default email |
| `Bills.Builder.constructor` | src/com/squareup/android/Bill.java:69-71 | a new builder has no item and no email |
| `Bills.Builder.Add` | src/com/squareup/android/Bill.java:81-88 | fails with IllegalStateException "> 1 line item" if an item was added (even for null), else NullPointerException for null; otherwise records the item; the email never changes |
| `Bills.Builder.SetDefaultEmail` | src/com/squareup/android/Bill.java:109-114 | fails with IllegalStateException if an email is set, else NullPointerException "item" if no item was added; otherwise stores the argument, null included; keeps "an email implies an item" |
| `Bills.Builder.Build` | src/com/squareup/android/Bill.java:125-127 | never fails: the items are the one-element list of the builder's item (null if none) and the email is the builder's, and the result passes the deserialization check |
| `Bills.Containing` | src/com/squareup/android/Bill.java:53-56 | `new Builder().add(item).build()`: NullPointerException "lineItem" for null, otherwise the bill [item] with no default email |
| `Bills.OutOfOrderCalls` | src/com/squareup/android/Bill.java:81-114 | a default email before any item fails, and a second item fails |
| `Square.InstallationStatusOf` | src/com/squareup/android/Square.java:80-88 | MISSING iff the package is not found, OUTDATED iff its version is below 2, AVAILABLE iff it is 2 or more |
| `Square.InstallationStatusMonotone` | src/com/squareup/android/Square.java:84 | a missing package or a lower version never yields a readier status (MISSING < OUTDATED < AVAILABLE) |
| `Square.BillFrom` | src/com/squareup/android/Square.java:156-159 | null when the intent has no extras; otherwise the bill stored under "bill", if any |
| `Square.RequestInstallation` | src/com/squareup/android/Square.java:93-96 | starts a VIEW intent for "market://search?q=pname:com.squareup", which carries no bill |
| `Square.PaymentRequest` | src/com/squareup/android/Square.java:127-136 | IllegalArgumentException for a negative request code, checked before the NullPointerException for a null bill; otherwise one start-for-result launch with the request code, action "com.squareup.REQUEST_PAYMENT", exactly the exclude-from-recents flag, and extras holding only "bill", from which `billFrom` returns the bill |
| `Square.SquareUp` | src/com/squareup/android/Square.java:127-136 | the intent built step by step (new intent, add flag, put extra) is the launch `PaymentRequest` specifies |
| `Square.SquareUpWithDefaultCode` | src/com/squareup/android/Square.java:103-105 | the same launch as `squareUp(bill, 0)` |
| `Square.RequestAdvice` | src/com/squareup/android/Square.java:38-48 | the documented usage: request installation unless Square is available, otherwise a payment request with code 0 whose bill holds the single item (description "Advice", 2 cents USD, no image) |

## Left out

- Java serialization's byte format and field read order are left out. The model
  keeps only the check each `readObject` runs after `defaultReadObject`, with
  nested objects taken as already read. So when several nested objects are
  corrupted at once, which error Java would report first is not modelled.
- Unknown enum names in a serialized stream, and `ClassCastException` from a
  non-Bill value under "bill" in `billFrom`, are not modelled. Only bills can be
  stored as extras.
- `PackageManager.getPackageInfo`, `startActivity`/`startActivityForResult`,
  `Uri.parse`/`toString` and `Context.getPackageName` are Android calls. The
  first is an input, the launches are returned values, a `Uri` is its string
  and a context is its package name. A null context or activity, which would
  raise a NullPointerException inside those calls, is not modelled.
- `ActivityNotFoundException` at launch time, the asynchronous
  `onActivityResult` callback (request code, CANCELED/OK) and
  `ImageNotFoundException` come from the host system or the Square application.
  Nothing in the core raises them.
- `toString` methods are debugging output and are left out.
- The builders' fluent `return this` is left out: each setter returns an outcome
  instead.
- `LineItems.Builder.SetDescription`: the length limit counts Unicode scalar
  values, not UTF-16 code units as Java's `String.length()` does. Descriptions
  with characters outside the Basic Multilingual Plane are therefore measured
  shorter than Java measures them.
- `LineItems.ReadLineItem`: the deserialization length check counts the same
  way, and so do `LineItem.Valid` and `Builder.Valid`. A description with
  characters outside the Basic Multilingual Plane may pass here although Java
  rejects it.
- `Currency.java` is folded into `Monetary.Currency`. `package-info.java` and
  the TwoCents example activity hold no logic and are not part of this model.
