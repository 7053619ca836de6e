/** Small shared vocabulary: optional values and JavaScript truthiness. */
module Common {

  /** A value that may be absent (`null` in the front end). */
  datatype Option<+T> = None | Some(value: T)

  /** JavaScript truthiness of a `string | null`: `null` and `""` are falsy, every other string is truthy. */
  predicate Truthy(s: Option<string>)
  {
    s.Some? && s.value != ""
  }

  /** The decimal digit character for 0 <= d < 10. */
  function DigitChar(d: int): (c: char)
    requires 0 <= d < 10
    ensures '0' <= c <= '9'
    ensures c as int - '0' as int == d
  {
    ['0', '1', '2', '3', '4', '5', '6', '7', '8', '9'][d]
  }

  /** Every character of `s` is an ASCII decimal digit. */
  predicate AllDigits(s: string)
  {
    forall i :: 0 <= i < |s| ==> '0' <= s[i] <= '9'
  }

  /** The number a string of decimal digits spells, read most significant digit first. */
  function DigitsValue(s: string): nat
    requires AllDigits(s)
  {
    if s == [] then 0 else 10 * DigitsValue(s[..|s| - 1]) + (s[|s| - 1] as int - '0' as int)
  }

  /**
   * `String(n)` for an integer id, as `localStorage.setItem` stores a number: the
   * decimal digits of |n| without leading zeros, after a `-` when n is negative.
   */
  function NumberText(n: int): (s: string)
    ensures |s| > 0
    ensures n >= 0 ==> AllDigits(s) && DigitsValue(s) == n && (s[0] == '0' ==> s == "0")
    ensures n < 0 ==> |s| > 1 && s[0] == '-' && AllDigits(s[1..]) && DigitsValue(s[1..]) == -n && s[1] != '0'
    decreases if n < 0 then -n + 1 else n
  {
    if n < 0 then
      var t := NumberText(-n);
      assert ("-" + t)[1..] == t;
      "-" + t
    else if n < 10 then
      [DigitChar(n)]
    else
      var t := NumberText(n / 10);
      var s := t + [DigitChar(n % 10)];
      assert s[..|s| - 1] == t;
      assert s[0] == t[0];
      s
  }

  /** What a data screen renders: the spinner, its error text alone, or its content. */
  datatype ScreenView = Spinner | ErrorText(message: string) | Content

  /**
   * The render precedence every data screen follows: while loading only the
   * spinner; else a truthy error replaces the whole body; else the content.
   */
  function RenderPrecedence(loading: bool, error: Option<string>): (v: ScreenView)
    ensures v.Spinner? <==> loading
    ensures v.ErrorText? <==> !loading && Truthy(error)
    ensures v.ErrorText? ==> v.message == error.value && v.message != ""
    ensures v.Content? <==> !loading && !Truthy(error)
  {
    if loading then Spinner
    else if Truthy(error) then ErrorText(error.value)
    else Content
  }
}
