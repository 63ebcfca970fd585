/**
 * Shared vocabulary of the library back end: optional values, the error kinds the
 * services raise, the HTTP statuses they attach, and Java's integer text and
 * remainder, which the services use and which differ from Dafny's own.
 */
module Common {

  datatype Option<T> = None | Some(value: T)

  /** The HTTP statuses the services attach to their exceptions. */
  datatype HttpStatus = BadRequest | Forbidden | NotFound | Conflict | InternalServerError

  /** The kinds a `GeneralException` is tagged with. */
  datatype ExceptionType =
    | CardAlreadyExists | CardLost | CardNotFound
    | FineAlreadyExists | FineNotFound
    | InvalidInput | InvalidLoan | InvalidOperation
    | InvoiceNotFound
    | MediaNotAvailable | MediaNotFound
    | PatronAlreadyExists | PatronIneligible | PatronNotFound
    | SequenceGenerationFailed

  /**
   * Everything a service call can throw: the application's own tagged exception, and
   * the Java runtime exceptions that the code lets escape.
   */
  datatype Error =
    | General(kind: ExceptionType, message: string, status: HttpStatus)
    | IllegalArgument(message: string)
    | NullPointer
    | ClassCast
    | DateTimeParse(text: string)

  /** A call that returns a value or throws. */
  datatype Result<T> = Ok(value: T) | Err(error: Error)

  /** A call that returns nothing or throws. */
  datatype Outcome = Pass | Fail(error: Error)

  /** A possibly-null string as string concatenation shows it. */
  function TextOrNull(s: Option<string>): string
  {
    match s
    case Some(t) => t
    case None => "null"
  }

  function DigitChar(d: nat): (c: char)
    requires d < 10
    ensures '0' <= c <= '9' && c as int - '0' as int == d
  {
    "0123456789"[d]
  }

  /** Decimal text of a non-negative number, without leading zeros. */
  function NatToString(n: nat): (s: string)
    ensures |s| >= 1
    ensures forall i :: 0 <= i < |s| ==> '0' <= s[i] <= '9'
    decreases n
  {
    if n < 10 then [DigitChar(n)] else NatToString(n / 10) + [DigitChar(n % 10)]
  }

  /** `Integer.toString` and string concatenation of an `int`: a '-' for negatives. */
  function IntToString(n: int): (s: string)
    ensures n >= 0 ==> s == NatToString(n)
    ensures n < 0 ==> s == "-" + NatToString(-n)
  {
    if n < 0 then "-" + NatToString(-n) else NatToString(n)
  }

  /** Value of a string of decimal digits, the inverse of `NatToString`. */
  function DigitsValue(s: string): nat
    requires forall i :: 0 <= i < |s| ==> '0' <= s[i] <= '9'
  {
    if s == [] then 0 else DigitsValue(s[..|s| - 1]) * 10 + (s[|s| - 1] as int - '0' as int)
  }

  lemma {:induction false} NatToStringRoundTrip(n: nat)
    ensures DigitsValue(NatToString(n)) == n
    decreases n
  {
    var s := NatToString(n);
    if n >= 10 {
      NatToStringRoundTrip(n / 10);
      assert s[..|s| - 1] == NatToString(n / 10);
    }
  }

  /** Numbers with `k + 1` decimal digits print as exactly `k + 1` characters. */
  lemma {:induction false} NatToStringLength(n: nat, k: nat)
    requires Pow10(k) <= n < Pow10(k + 1)
    ensures |NatToString(n)| == k + 1
    decreases k
  {
    if k > 0 {
      NatToStringLength(n / 10, k - 1);
    }
  }

  function Pow10(k: nat): (p: nat)
    ensures p >= 1
  {
    if k == 0 then 1 else 10 * Pow10(k - 1)
  }

  /** Java's `%` on `int`: the remainder takes the sign of the dividend. */
  function JavaRem(a: int, b: int): (r: int)
    requires b > 0
    ensures Abs(r) == Abs(a) % b
    ensures a >= 0 ==> r >= 0
    ensures a < 0 ==> r <= 0
  {
    if a >= 0 then a % b else -((-a) % b)
  }

  /** Java's `/` on `int`: the quotient is truncated toward zero. */
  function JavaDiv(a: int, b: int): (q: int)
    requires b > 0
    ensures Abs(q) == Abs(a) / b
    ensures a >= 0 ==> q >= 0
    ensures a < 0 ==> q <= 0
  {
    if a >= 0 then a / b else -((-a) / b)
  }

  /** `Math.abs` on `int` (the overflow at the smallest `int` is not modelled). */
  function Abs(n: int): (r: nat)
    ensures r == n || r == -n
  {
    if n < 0 then -n else n
  }
}
