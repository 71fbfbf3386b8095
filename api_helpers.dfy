/** Response shapes, error classification and invoice numbers
    (src/lib/api-helpers.ts). */
module ApiHelpers {
  import opened Wrappers

  // ---------------------------------------------------------------------
  // Response bodies
  // ---------------------------------------------------------------------

  /** The JSON body `{ success, message, data | errors }` of a reply,
      together with its HTTP status. */
  datatype Response<T> = Response(
    status: int,
    success: bool,
    message: string,
    data: Option<T>,
    errors: Option<seq<string>>)

  /** `successResponse(data, message = "Success", statusCode = 200)`. */
  function SuccessResponse<T>(data: T, message: string := "Success", status: int := 200): (r: Response<T>)
    ensures r.success && r.data == Some(data) && r.errors == None
    ensures r.message == message && r.status == status
  {
    Response(status, true, message, Some(data), None)
  }

  /** `errorResponse(message, statusCode = 500, errors?)`; `errors || null`
      keeps a supplied list and turns a missing one into `null`. */
  function ErrorResponse<T>(message: string, status: int := 500, errors: Option<seq<string>> := None): (r: Response<T>)
    ensures !r.success && r.data == None
    ensures r.message == message && r.status == status && r.errors == errors
  {
    Response(status, false, message, None, errors)
  }

  /** The defaults of the two response builders. */
  lemma ResponseDefaults<T>(data: T, message: string)
    ensures SuccessResponse(data).status == 200 && SuccessResponse(data).message == "Success"
    ensures ErrorResponse<T>(message).status == 500 && ErrorResponse<T>(message).errors == None
  {
  }

  // ---------------------------------------------------------------------
  // Thrown values and their classification
  // ---------------------------------------------------------------------

  /** What a route's `catch` block can receive.
      - `ApiErrorThrown`: an instance of `ApiError`;
      - `ErrorThrown`: any other `Error` instance (every one has a `name`),
        with the messages of its `errors` array when it has one;
      - `NamedObjectThrown`: a plain object with a `name` field;
      - `OtherThrown`: anything else. */
  datatype Thrown =
    | ApiErrorThrown(message: string, statusCode: int)
    | ErrorThrown(name: string, message: string, errors: Option<seq<string>>)
    | NamedObjectThrown(name: string, errors: Option<seq<string>>)
    | OtherThrown

  /** `new ApiError(message, statusCode = 500)`. */
  function NewApiError(message: string, statusCode: int := 500): (e: Thrown)
    ensures e.ApiErrorThrown? && e.message == message && e.statusCode == statusCode
  {
    ApiErrorThrown(message, statusCode)
  }

  const ValidationErrorName := "SequelizeValidationError"
  const UniqueConstraintErrorName := "SequelizeUniqueConstraintError"

  /** The two Sequelize error names that `handleApiError` reports as 400. */
  predicate IsValidationKind(e: Thrown) {
    (e.ErrorThrown? || e.NamedObjectThrown?) &&
    (e.name == ValidationErrorName || e.name == UniqueConstraintErrorName)
  }

  /** `err.errors?.map((e) => e.message) || ["Validation error"]`. */
  function ValidationMessages(e: Thrown): seq<string>
    requires IsValidationKind(e)
  {
    e.errors.GetOr(["Validation error"])
  }

  /** `Array.prototype.join(sep)`. */
  function Join(parts: seq<string>, sep: string): string
    decreases |parts|
  {
    if |parts| == 0 then ""
    else if |parts| == 1 then parts[0]
    else parts[0] + sep + Join(parts[1..], sep)
  }

  function TotalLength(parts: seq<string>): nat
    decreases |parts|
  {
    if |parts| == 0 then 0 else |parts[0]| + TotalLength(parts[1..])
  }

  /** A joined message is as long as all parts plus one separator between
      each two. */
  lemma {:induction false} JoinLength(parts: seq<string>, sep: string)
    requires |parts| >= 1
    ensures |Join(parts, sep)| == TotalLength(parts) + (|parts| - 1) * |sep|
    decreases |parts|
  {
    if |parts| > 1 {
      JoinLength(parts[1..], sep);
    }
  }

  /** A joined message is the join of all parts but the last, one separator
      and the last part; since one part joins to itself, this fixes the
      message part by part. */
  lemma {:induction false} JoinLast(parts: seq<string>, sep: string)
    requires |parts| >= 2
    ensures Join(parts, sep) == Join(parts[..|parts| - 1], sep) + sep + parts[|parts| - 1]
    decreases |parts|
  {
    var n := |parts|;
    if n > 2 {
      JoinLast(parts[1..], sep);
      assert parts[1..][..n - 2] == parts[..n - 1][1..];
      assert parts[1..][n - 2] == parts[n - 1];
      assert Join(parts[..n - 1], sep) == parts[0] + sep + Join(parts[..n - 1][1..], sep);
    } else {
      assert Join(parts[1..], sep) == parts[1];
      assert Join(parts[..1], sep) == parts[0];
    }
  }

  /** `handleApiError`: every thrown value becomes an error response. */
  function HandleApiError<T>(e: Thrown): (r: Response<T>)
    ensures !r.success && r.data == None
    ensures e.ApiErrorThrown? ==>
      r.status == e.statusCode && r.message == e.message && r.errors == None
    ensures IsValidationKind(e) ==>
      r.status == 400 && r.errors == Some(ValidationMessages(e)) &&
      r.message == Join(ValidationMessages(e), ", ")
    ensures !e.ApiErrorThrown? && !IsValidationKind(e) ==>
      r.status == 500 && r.errors == None &&
      r.message == (if e.ErrorThrown? then e.message else "Internal server error")
  {
    if e.ApiErrorThrown? then
      ErrorResponse(e.message, e.statusCode)
    else if IsValidationKind(e) then
      var messages := ValidationMessages(e);
      ErrorResponse(Join(messages, ", "), 400, Some(messages))
    else if e.ErrorThrown? then
      ErrorResponse(e.message, 500)
    else
      ErrorResponse("Internal server error", 500)
  }

  /** The status a thrown value maps to is 400 exactly for the two
      Sequelize validation kinds, unless it is an `ApiError`. */
  lemma StatusClassification<T>(e: Thrown)
    requires !e.ApiErrorThrown?
    ensures HandleApiError<T>(e).status == 400 <==> IsValidationKind(e)
    ensures HandleApiError<T>(e).status == 500 <==> !IsValidationKind(e)
  {
  }

  /** A validation error with no `errors` list, or with a single one, reports
      exactly one message. */
  lemma ValidationSingleMessage<T>(e: Thrown, m: string)
    requires IsValidationKind(e)
    requires e.errors == None || e.errors == Some([m])
    ensures var r := HandleApiError<T>(e);
      r.status == 400 &&
      r.message == (if e.errors == None then "Validation error" else m)
  {
  }

  // ---------------------------------------------------------------------
  // Invoice numbers: "INV-" + YYYYMMDD + "-" + NNNN
  // ---------------------------------------------------------------------

  predicate IsDigit(c: char) { '0' <= c <= '9' }

  predicate AllDigits(s: string) { forall i :: 0 <= i < |s| ==> IsDigit(s[i]) }

  function DigitChar(d: int): (c: char)
    requires 0 <= d <= 9
    ensures IsDigit(c)
  {
    ('0' as int + d) as char
  }

  function Pow10(k: nat): nat
  {
    if k == 0 then 1 else 10 * Pow10(k - 1)
  }

  /** `Number.prototype.toString()` of a non-negative integer. */
  function ToDecimal(n: nat): (s: string)
    ensures |s| >= 1 && AllDigits(s)
    decreases n
  {
    if n < 10 then [DigitChar(n)] else ToDecimal(n / 10) + [DigitChar(n % 10)]
  }

  /** An integer interpolated into a template literal. */
  function IntToString(n: int): (s: string)
    ensures |s| >= 1
  {
    if n < 0 then "-" + ToDecimal(-n) else ToDecimal(n)
  }

  /** The number a string of decimal digits denotes. */
  function DecimalValue(s: string): nat
    requires AllDigits(s)
    decreases |s|
  {
    if s == [] then 0
    else DecimalValue(s[..|s| - 1]) * 10 + (s[|s| - 1] as int - '0' as int)
  }

  /** Reading back a printed number gives the number. */
  lemma {:induction false} DecimalRoundTrip(n: nat)
    ensures DecimalValue(ToDecimal(n)) == n
    decreases n
  {
    if n >= 10 {
      DecimalRoundTrip(n / 10);
      var s := ToDecimal(n);
      assert s[..|s| - 1] == ToDecimal(n / 10);
    }
  }

  /** A number below 10^k prints in at most k digits. */
  lemma {:induction false} ToDecimalLength(n: nat, k: nat)
    requires k >= 1 && n < Pow10(k)
    ensures |ToDecimal(n)| <= k
    decreases n
  {
    if n >= 10 {
      assert k >= 2;
      assert n / 10 < Pow10(k - 1);
      ToDecimalLength(n / 10, k - 1);
    }
  }

  /** `String.prototype.padStart(width, fill)` with a one-character fill. */
  function PadStart(s: string, width: nat, fill: char): (r: string)
    ensures |r| == if |s| >= width then |s| else width
    ensures r[|r| - |s|..] == s
    ensures forall i :: 0 <= i < |r| - |s| ==> r[i] == fill
    decreases width - |s|
  {
    if |s| >= width then s else PadStart([fill] + s, width, fill)
  }

  lemma {:induction false} LeadingZeros(z: string, s: string)
    requires AllDigits(s)
    requires forall i :: 0 <= i < |z| ==> z[i] == '0'
    ensures AllDigits(z + s) && DecimalValue(z + s) == DecimalValue(s)
    decreases |s|
  {
    if s == [] {
      assert z + s == z;
      AllZeros(z);
    } else {
      var t := z + s;
      assert t[..|t| - 1] == z + s[..|s| - 1];
      LeadingZeros(z, s[..|s| - 1]);
    }
  }

  lemma {:induction false} AllZeros(z: string)
    requires forall i :: 0 <= i < |z| ==> z[i] == '0'
    ensures AllDigits(z) && DecimalValue(z) == 0
    decreases |z|
  {
    if z != [] {
      AllZeros(z[..|z| - 1]);
    }
  }

  /** Zero padding keeps the digits and their value. */
  lemma PadZerosValue(s: string, width: nat)
    requires AllDigits(s)
    ensures AllDigits(PadStart(s, width, '0'))
    ensures DecimalValue(PadStart(s, width, '0')) == DecimalValue(s)
  {
    var r := PadStart(s, width, '0');
    var z := r[..|r| - |s|];
    assert r == z + s;
    LeadingZeros(z, s);
  }

  /** A number below 10^width, printed and zero-padded to width digits. */
  function Fixed(n: nat, width: nat): (s: string)
    requires width >= 1 && n < Pow10(width)
    ensures |s| == width && AllDigits(s) && DecimalValue(s) == n
  {
    ToDecimalLength(n, width);
    DecimalRoundTrip(n);
    PadZerosValue(ToDecimal(n), width);
    PadStart(ToDecimal(n), width, '0')
  }

  /** `s.replace(/-/g, "")`. */
  function RemoveDashes(s: string): (r: string)
    decreases |s|
  {
    if s == [] then []
    else (if s[0] == '-' then [] else [s[0]]) + RemoveDashes(s[1..])
  }

  lemma {:induction false} RemoveDashesAppend(a: string, b: string)
    ensures RemoveDashes(a + b) == RemoveDashes(a) + RemoveDashes(b)
    decreases |a|
  {
    if a != [] {
      assert (a + b)[1..] == a[1..] + b;
      RemoveDashesAppend(a[1..], b);
    } else {
      assert a + b == b;
    }
  }

  lemma {:induction false} RemoveDashesDigits(s: string)
    requires AllDigits(s)
    ensures RemoveDashes(s) == s
    decreases |s|
  {
    if s != [] {
      RemoveDashesDigits(s[1..]);
    }
  }

  /** A calendar date as `Date.prototype.toISOString()` renders it for the
      years 0 to 9999, `YYYY-MM-DD` (the first ten characters). */
  predicate ValidDate(year: nat, month: nat, day: nat) {
    year <= 9999 && 1 <= month <= 12 && 1 <= day <= 31
  }

  function IsoDate(year: nat, month: nat, day: nat): string
    requires ValidDate(year, month, day)
  {
    Fixed(year, 4) + "-" + Fixed(month, 2) + "-" + Fixed(day, 2)
  }

  /** `Math.floor(Math.random() * 10000)` for a draw `u` in [0, 1). */
  function RandomSuffix(u: real): (n: int)
    requires 0.0 <= u < 1.0
    ensures 0 <= n <= 9999
  {
    (u * 10000.0).Floor
  }

  /** `generateInvoiceNumber()` with the UTC date and the random draw passed in. */
  function GenerateInvoiceNumber(year: nat, month: nat, day: nat, u: real): (inv: string)
    requires ValidDate(year, month, day)
    requires 0.0 <= u < 1.0
  {
    var dateStr := RemoveDashes(IsoDate(year, month, day));
    var random := PadStart(ToDecimal(RandomSuffix(u)), 4, '0');
    "INV-" + dateStr + "-" + random
  }

  /** The four numbers an invoice number carries. */
  datatype InvoiceParts = InvoiceParts(year: nat, month: nat, day: nat, serial: nat)

  /** Reads a string of decimal digits; `None` when a character is not a digit. */
  function ParseDigits(s: string): (r: Option<nat>)
    ensures r.Some? <==> AllDigits(s)
    ensures r.Some? ==> r.value == DecimalValue(s)
    decreases |s|
  {
    if s == [] then Some(0)
    else if !IsDigit(s[|s| - 1]) then None
    else match ParseDigits(s[..|s| - 1])
      case None => None
      case Some(v) => Some(v * 10 + (s[|s| - 1] as int - '0' as int))
  }

  /** Splits `INV-YYYYMMDD-NNNN` back into its date and serial. */
  function ParseInvoice(inv: string): Option<InvoiceParts>
  {
    if |inv| != 17 || inv[..4] != "INV-" || inv[12] != '-' then None
    else match (ParseDigits(inv[4..8]), ParseDigits(inv[8..10]), ParseDigits(inv[10..12]), ParseDigits(inv[13..]))
      case (Some(y), Some(m), Some(d), Some(n)) => Some(InvoiceParts(y, m, d, n))
      case _ => None
  }

  lemma {:induction false} RemoveDateDashes(y: string, m: string, d: string)
    requires AllDigits(y) && AllDigits(m) && AllDigits(d)
    ensures RemoveDashes(y + "-" + m + "-" + d) == y + m + d
  {
    var a1 := y + "-";
    var a2 := a1 + m;
    var a3 := a2 + "-";
    assert RemoveDashes("-") == [];
    RemoveDashesDigits(y);
    RemoveDashesDigits(m);
    RemoveDashesDigits(d);
    RemoveDashesAppend(y, "-");
    assert RemoveDashes(a1) == y;
    RemoveDashesAppend(a1, m);
    assert RemoveDashes(a2) == y + m;
    RemoveDashesAppend(a2, "-");
    assert RemoveDashes(a3) == y + m;
    RemoveDashesAppend(a3, d);
    assert RemoveDashes(a3 + d) == y + m + d;
  }

  lemma InvoiceLayout(year: nat, month: nat, day: nat, u: real)
    requires ValidDate(year, month, day)
    requires 0.0 <= u < 1.0
    ensures GenerateInvoiceNumber(year, month, day, u) ==
      "INV-" + (Fixed(year, 4) + Fixed(month, 2) + Fixed(day, 2)) + "-" + Fixed(RandomSuffix(u), 4)
  {
    var y, m, d := Fixed(year, 4), Fixed(month, 2), Fixed(day, 2);
    assert IsoDate(year, month, day) == y + "-" + m + "-" + d;
    RemoveDateDashes(y, m, d);
    assert Pow10(4) == 10000;
    assert PadStart(ToDecimal(RandomSuffix(u)), 4, '0') == Fixed(RandomSuffix(u), 4);
  }

  /** Any `INV-` string laid out with digit fields of widths 4, 2, 2 and 4
      reads back as those fields' values. */
  lemma ParseLayout(y: string, m: string, d: string, n: string)
    requires |y| == 4 && |m| == 2 && |d| == 2 && |n| == 4
    requires AllDigits(y) && AllDigits(m) && AllDigits(d) && AllDigits(n)
    ensures |"INV-" + (y + m + d) + "-" + n| == 17
    ensures ParseInvoice("INV-" + (y + m + d) + "-" + n) ==
      Some(InvoiceParts(DecimalValue(y), DecimalValue(m), DecimalValue(d), DecimalValue(n)))
  {
    var inv := "INV-" + (y + m + d) + "-" + n;
    assert inv[..4] == "INV-";
    assert inv[4..8] == y;
    assert inv[8..10] == m;
    assert inv[10..12] == d;
    assert inv[12] == '-';
    assert inv[13..] == n;
    assert ParseDigits(inv[4..8]) == Some(DecimalValue(y));
    assert ParseDigits(inv[8..10]) == Some(DecimalValue(m));
    assert ParseDigits(inv[10..12]) == Some(DecimalValue(d));
    assert ParseDigits(inv[13..]) == Some(DecimalValue(n));
  }

  /** The invoice number has 17 characters and reads back as the date it
      was made on and the random draw. */
  lemma InvoiceRoundTrip(year: nat, month: nat, day: nat, u: real)
    requires ValidDate(year, month, day)
    requires 0.0 <= u < 1.0
    ensures |GenerateInvoiceNumber(year, month, day, u)| == 17
    ensures ParseInvoice(GenerateInvoiceNumber(year, month, day, u)) ==
      Some(InvoiceParts(year, month, day, RandomSuffix(u)))
  {
    var inv := GenerateInvoiceNumber(year, month, day, u);
    var y, m, d, n := Fixed(year, 4), Fixed(month, 2), Fixed(day, 2), Fixed(RandomSuffix(u), 4);
    InvoiceLayout(year, month, day, u);
    assert inv == "INV-" + (y + m + d) + "-" + n;
    ParseLayout(y, m, d, n);
    assert DecimalValue(y) == year && DecimalValue(m) == month && DecimalValue(d) == day;
    assert DecimalValue(n) == RandomSuffix(u);
  }
}
