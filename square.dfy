/**
 * The entry point of the API: it reports whether the Square application is
 * installed, sends the user to the market to install it, and requests a
 * payment by launching Square with a bill. The package registry lookup is an
 * input and each launch is returned as a value instead of being performed.
 */
module Square {
  import opened Errors
  import opened Integers
  import opened Monetary
  import opened Bills
  import LineItems

  /** The oldest Square version that supports this version of the API. */
  const MINIMUM_VERSION: int32 := 2

  const PACKAGE := "com.squareup"
  const REQUEST_PAYMENT := PACKAGE + ".REQUEST_PAYMENT"
  const BILL_KEY := "bill"

  /** `Intent.ACTION_VIEW`. */
  const ACTION_VIEW := "android.intent.action.VIEW"

  datatype InstallationStatus = MISSING | OUTDATED | AVAILABLE {
    /** How ready Square is: MISSING < OUTDATED < AVAILABLE. */
    function Readiness(): nat {
      match this
      case MISSING => 0
      case OUTDATED => 1
      case AVAILABLE => 2
    }
  }

  /**
   * `installationStatus()`, given what the package manager reports for
   * Square's package: its version code, or None for "name not found", which
   * is a normal answer rather than an error.
   */
  function InstallationStatusOf(versionCode: Option<int32>): (s: InstallationStatus)
    ensures s == MISSING <==> versionCode.None?
    ensures s == OUTDATED <==> versionCode.Some? && versionCode.value < MINIMUM_VERSION
    ensures s == AVAILABLE <==> versionCode.Some? && versionCode.value >= MINIMUM_VERSION
  {
    match versionCode
    case None => MISSING
    case Some(v) => if v >= MINIMUM_VERSION then AVAILABLE else OUTDATED
  }

  /** Installing Square, or a newer version of it, never makes the status less ready. */
  lemma InstallationStatusMonotone(before: Option<int32>, after: Option<int32>)
    requires before.Some? ==> after.Some? && before.value <= after.value
    ensures InstallationStatusOf(before).Readiness() <= InstallationStatusOf(after).Readiness()
  {
  }

  datatype Flag = FLAG_ACTIVITY_EXCLUDE_FROM_RECENTS

  /** The parts of an `android.content.Intent` the API uses; extras are None until one is put. */
  datatype Intent = Intent(action: string, data: Option<string>, flags: set<Flag>, extras: Option<map<string, Bill>>) {
    /** `intent.addFlags(f)`. */
    function AddFlags(f: set<Flag>): Intent {
      this.(flags := flags + f)
    }

    /** `intent.putExtra(key, value)`, which creates the extras on first use. */
    function PutExtra(key: string, value: Bill): Intent {
      var current := if extras.None? then map[] else extras.value;
      this.(extras := Some(current[key := value]))
    }
  }

  /** `new Intent(action)`. */
  function ActionIntent(action: string): Intent {
    Intent(action, None, {}, None)
  }

  /** A request to the host system to start an activity. */
  datatype Launch =
    | StartActivity(intent: Intent)
    | StartActivityForResult(intent: Intent, requestCode: int32)

  /** `billFrom(intent)`: no extras gives null; otherwise whatever is stored under "bill". */
  function BillFrom(intent: Intent): (b: Option<Bill>)
    ensures intent.extras.None? ==> b.None?
    ensures b.Some? <==> intent.extras.Some? && BILL_KEY in intent.extras.value
    ensures b.Some? ==> b.value == intent.extras.value[BILL_KEY]
  {
    if intent.extras.None? then None
    else if BILL_KEY in intent.extras.value then Some(intent.extras.value[BILL_KEY])
    else None
  }

  /** `requestInstallation()`: view Square in the Android Market. */
  function RequestInstallation(): (l: Launch)
    ensures l.StartActivity? && l.intent.action == ACTION_VIEW
    ensures l.intent.data == Some("market://search?q=pname:" + PACKAGE)
    ensures BillFrom(l.intent).None?
  {
    StartActivity(Intent(ACTION_VIEW, Some("market://search?q=pname:" + PACKAGE), {}, None))
  }

  /**
   * What `squareUp(bill, requestCode)` asks the host system to start: the
   * request code is checked before the bill, and the intent carries the
   * payment action, the exclude-from-recents flag and the bill under "bill".
   */
  function PaymentRequest(bill: Option<Bill>, requestCode: int32): (r: Result<Launch>)
    ensures requestCode < 0 ==> r == Err(IllegalArgument("requestCode < 0"))
    ensures requestCode >= 0 && bill.None? ==> r == Err(NullPointer(Some("bill")))
    ensures r.Ok? <==> requestCode >= 0 && bill.Some?
    ensures r.Ok? ==> r.value.StartActivityForResult? && r.value.requestCode == requestCode
    ensures r.Ok? ==> r.value.intent.action == REQUEST_PAYMENT && r.value.intent.data.None?
    ensures r.Ok? ==> r.value.intent.flags == {FLAG_ACTIVITY_EXCLUDE_FROM_RECENTS}
    ensures r.Ok? ==> r.value.intent.extras.Some? && r.value.intent.extras.value.Keys == {BILL_KEY}
    ensures r.Ok? ==> BillFrom(r.value.intent) == bill
  {
    if requestCode < 0 then Err(IllegalArgument("requestCode < 0"))
    else if bill.None? then Err(NullPointer(Some("bill")))
    else
      var intent := Intent(REQUEST_PAYMENT, None, {FLAG_ACTIVITY_EXCLUDE_FROM_RECENTS}, Some(map[BILL_KEY := bill.value]));
      Ok(StartActivityForResult(intent, requestCode))
  }

  /** `squareUp(bill, requestCode)`, building the intent step by step. */
  method SquareUp(bill: Option<Bill>, requestCode: int32) returns (r: Result<Launch>)
    ensures r == PaymentRequest(bill, requestCode)
  {
    if requestCode < 0 {
      return Err(IllegalArgument("requestCode < 0"));
    }
    if bill.None? {
      return Err(NullPointer(Some("bill")));
    }
    var intent := ActionIntent(REQUEST_PAYMENT);
    // The calling application, not Square, stays in the recent-tasks list.
    intent := intent.AddFlags({FLAG_ACTIVITY_EXCLUDE_FROM_RECENTS});
    intent := intent.PutExtra(BILL_KEY, bill.value);
    assert intent.flags == {FLAG_ACTIVITY_EXCLUDE_FROM_RECENTS};
    assert intent.extras == Some(map[BILL_KEY := bill.value]);
    r := Ok(StartActivityForResult(intent, requestCode));
  }

  /** `squareUp(bill)`, which is `squareUp(bill, 0)`. */
  method SquareUpWithDefaultCode(bill: Option<Bill>) returns (r: Result<Launch>)
    ensures r == PaymentRequest(bill, 0)
  {
    r := SquareUp(bill, 0);
  }

  /**
   * The usage the API documents: install Square unless it is available,
   * otherwise request two cents for "Advice".
   */
  method RequestAdvice(versionCode: Option<int32>) returns (l: Launch)
    ensures InstallationStatusOf(versionCode) != AVAILABLE ==> l == RequestInstallation()
    ensures InstallationStatusOf(versionCode) == AVAILABLE ==>
              && l.StartActivityForResult? && l.requestCode == 0
              && l.intent.action == REQUEST_PAYMENT
              && FLAG_ACTIVITY_EXCLUDE_FROM_RECENTS in l.intent.flags
              && BillFrom(l.intent) == Some(Bill([Some(LineItems.LineItem(Some("Advice"), Money(2, USD), None))], None))
  {
    if InstallationStatusOf(versionCode) != AVAILABLE {
      return RequestInstallation();
    }
    var builder := new LineItems.Builder();
    var priced := builder.SetPriceAmount(2, Some(USD));
    var described := builder.SetDescription(Some("Advice"));
    var advice := builder.Build();
    var bill := Containing(Some(advice.value));
    var request := SquareUpWithDefaultCode(Some(bill.value));
    l := request.value;
  }
}
