/** The `.pid` record: `savePid` writes the decimal text of a process id and
    `getPid` reads it back through JavaScript's `Number(content)`. */
module PidRecord {
  import opened Wrappers

  /** The JavaScript numbers `Number` can produce from the record: a non-negative
      integer, or `NaN`. */
  datatype JsNumber = Num(n: nat) | NaN

  predicate IsDigit(c: char) {
    '0' <= c <= '9'
  }

  predicate IsDigits(s: string) {
    forall i :: 0 <= i < |s| ==> IsDigit(s[i])
  }

  function DigitValue(c: char): nat
    requires IsDigit(c)
  {
    c as int - '0' as int
  }

  function DigitChar(d: nat): (c: char)
    requires d < 10
    ensures IsDigit(c) && DigitValue(c) == d
  {
    ('0' as int + d) as char
  }

  /** The value of a string of decimal digits, most significant digit first. */
  function DigitsValue(s: string): nat
    requires IsDigits(s)
    decreases |s|
  {
    if s == [] then 0 else DigitsValue(s[..|s| - 1]) * 10 + DigitValue(s[|s| - 1])
  }

  /** `Number(s)` restricted to decimal digit strings: the empty string is `0`,
      a digit string is its value, anything else is `NaN`. */
  function Number(s: string): (r: JsNumber)
    ensures s == "" ==> r == Num(0)
    ensures r.NaN? <==> exists i :: 0 <= i < |s| && !IsDigit(s[i])
  {
    if IsDigits(s) then Num(DigitsValue(s)) else NaN
  }

  /** The template literal `${pid}`: the shortest decimal text of `n`. */
  function FormatDecimal(n: nat): (s: string)
    ensures |s| >= 1 && IsDigits(s)
    ensures s[0] == '0' ==> n == 0
    decreases n
  {
    if n < 10 then [DigitChar(n)] else FormatDecimal(n / 10) + [DigitChar(n % 10)]
  }

  /** `getPid()`: nothing when the record file is absent, `Number(content)` otherwise. */
  function GetPid(record: Option<string>): (r: Option<JsNumber>)
    ensures r.None? <==> record.None?
  {
    match record
    case None => None
    case Some(content) => Some(Number(content))
  }

  /** JavaScript truthiness of what `getPid` returns: `undefined`, `0` and `NaN`
      are falsy. */
  predicate Truthy(v: Option<JsNumber>)
    ensures v.None? || v == Some(Num(0)) || v == Some(NaN) ==> !Truthy(v)
    ensures Truthy(v) ==> v.value.Num? && v.value.n > 0
  {
    v.Some? && v.value.Num? && v.value.n != 0
  }

  /** The decimal text of `n` is read back as `n`. */
  lemma {:induction false} FormatDecimalValue(n: nat)
    ensures DigitsValue(FormatDecimal(n)) == n
    decreases n
  {
    var s := FormatDecimal(n);
    if n >= 10 {
      FormatDecimalValue(n / 10);
      assert s[..|s| - 1] == FormatDecimal(n / 10);
    }
  }

  /** Round trip: `savePid(p)` followed by `getPid()` returns `p`, which is truthy
      exactly when `p` is not 0. */
  lemma SavedPidReadsBack(p: nat)
    ensures GetPid(Some(FormatDecimal(p))) == Some(Num(p))
    ensures Truthy(GetPid(Some(FormatDecimal(p)))) <==> p != 0
  {
    FormatDecimalValue(p);
  }

  /** Different process ids are saved as different texts. */
  lemma FormatDecimalInjective(p: nat, q: nat)
    requires FormatDecimal(p) == FormatDecimal(q)
    ensures p == q
  {
    FormatDecimalValue(p);
    FormatDecimalValue(q);
  }

  /** The empty record written when the plugin is created reads as `0`, which is falsy. */
  lemma EmptyRecordIsFalsy()
    ensures GetPid(Some("")) == Some(Num(0))
    ensures !Truthy(GetPid(Some("")))
  {
  }

  /** A record with any non-digit character reads as `NaN`, which is falsy. */
  lemma NonNumericRecordIsFalsy(content: string, i: nat)
    requires i < |content| && !IsDigit(content[i])
    ensures GetPid(Some(content)) == Some(NaN)
    ensures !Truthy(GetPid(Some(content)))
  {
  }
}
