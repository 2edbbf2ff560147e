/**
 * The error line printed when the external editor fails:
 * `"{}: {}".format(err.strip(), return_code)` (editor_process_cb in edit.py),
 * with Python's `str.strip()` and `str(int)` written out.
 */
module Messages {

  /** Python's `str.isspace` on one character. */
  predicate IsSpace(c: char)
    ensures c == ' ' || c == '\t' || c == '\n' || c == '\r' ==> IsSpace(c)
    ensures '0' <= c <= '9' || 'A' <= c <= 'Z' || 'a' <= c <= 'z' ==> !IsSpace(c)
  {
    || '\t' <= c <= '\r'
    || '\U{1C}' <= c <= ' '
    || c == '\U{85}' || c == '\U{A0}' || c == '\U{1680}'
    || '\U{2000}' <= c <= '\U{200A}'
    || c == '\U{2028}' || c == '\U{2029}' || c == '\U{202F}' || c == '\U{205F}' || c == '\U{3000}'
  }

  /** Drops the leading whitespace: what is left is a suffix of s, and only whitespace went. */
  function TrimStart(s: string): (r: string)
    ensures |r| <= |s| && r == s[|s| - |r|..]
    ensures forall i :: 0 <= i < |s| - |r| ==> IsSpace(s[i])
    ensures r == [] || !IsSpace(r[0])
  {
    if s != [] && IsSpace(s[0]) then TrimStart(s[1..]) else s
  }

  /** Drops the trailing whitespace: what is left is a prefix of s, and only whitespace went. */
  function TrimEnd(s: string): (r: string)
    ensures |r| <= |s| && r == s[..|r|]
    ensures forall i :: |r| <= i < |s| ==> IsSpace(s[i])
    ensures r == [] || !IsSpace(r[|r| - 1])
  {
    if s != [] && IsSpace(s[|s| - 1]) then TrimEnd(s[..|s| - 1]) else s
  }

  /** Python's `str.strip()` with no argument. */
  function Strip(s: string): (r: string)
    ensures r == [] || (!IsSpace(r[0]) && !IsSpace(r[|r| - 1]))
  {
    TrimEnd(TrimStart(s))
  }

  /** Strip keeps a contiguous piece of s and removes whitespace only. */
  lemma StripIsInnerSlice(s: string) returns (lo: nat, hi: nat)
    ensures lo <= hi <= |s| && Strip(s) == s[lo..hi]
    ensures forall i :: 0 <= i < lo ==> IsSpace(s[i])
    ensures forall i :: hi <= i < |s| ==> IsSpace(s[i])
  {
    var t := TrimStart(s);
    lo := |s| - |t|;
    hi := lo + |TrimEnd(t)|;
    forall i | hi <= i < |s| ensures IsSpace(s[i]) {
      assert s[i] == t[i - lo];
    }
  }

  /** Stripping twice is stripping once. */
  lemma StripIdempotent(s: string)
    ensures Strip(Strip(s)) == Strip(s)
  {
  }

  function DigitChar(d: nat): (c: char)
    requires d < 10
    ensures '0' <= c <= '9'
  {
    ('0' as int + d) as char
  }

  /** The decimal digits of n, most significant first, without leading zeros. */
  function Digits(n: nat): (r: string)
    ensures |r| >= 1
    ensures forall i :: 0 <= i < |r| ==> '0' <= r[i] <= '9'
    ensures r[0] == '0' ==> n == 0 && |r| == 1
  {
    if n < 10 then [DigitChar(n)] else Digits(n / 10) + [DigitChar(n % 10)]
  }

  /** Python's `str(n)` for an integer. */
  function Decimal(n: int): (r: string)
    ensures |r| >= 1
    ensures n < 0 <==> r[0] == '-'
  {
    if n < 0 then "-" + Digits(-n) else Digits(n)
  }

  /** The number a string of decimal digits denotes. */
  function DigitsValue(s: string): int {
    if s == [] then 0 else 10 * DigitsValue(s[..|s| - 1]) + (s[|s| - 1] as int - '0' as int)
  }

  /** Reading the digits back gives the number they were written from. */
  lemma {:induction false} DigitsRoundTrip(n: nat)
    ensures DigitsValue(Digits(n)) == n
  {
    if n >= 10 {
      var r := Digits(n);
      assert r[..|r| - 1] == Digits(n / 10);
      DigitsRoundTrip(n / 10);
    }
  }

  /** The integer an optional "-" followed by decimal digits denotes. */
  function SignedValue(s: string): int {
    if |s| > 0 && s[0] == '-' then -DigitsValue(s[1..]) else DigitsValue(s)
  }

  /** Reading the text of an exit code back gives the exit code. */
  lemma DecimalRoundTrip(n: int)
    ensures SignedValue(Decimal(n)) == n
  {
    var text := Decimal(n);
    if n < 0 {
      var d := Digits(-n);
      assert text == "-" + d;
      assert text[0] == '-' && text[1..] == d;
      DigitsRoundTrip(-n);
      assert SignedValue(text) == -DigitsValue(d);
    } else {
      assert text == Digits(n);
      assert text[0] != '-';
      DigitsRoundTrip(n);
      assert SignedValue(text) == DigitsValue(text);
    }
  }

  /** The reported error: the stripped standard error, a colon and the exit code. */
  function ErrorLine(err: string, code: int): (line: string)
    ensures |line| == |Strip(err)| + 2 + |Decimal(code)|
    ensures line[..|Strip(err)|] == Strip(err) && line[|Strip(err)|..|Strip(err)| + 2] == ": "
    ensures line[|Strip(err)| + 2..] == Decimal(code)
  {
    Strip(err) + ": " + Decimal(code)
  }

  /** Leading and trailing whitespace of a sample error text goes, the inside stays. */
  lemma StripExample()
    ensures Strip(" oops\n") == "oops"
  {
    var err := " oops\n";
    assert IsSpace(err[0]) && err[1..] == "oops\n";
    assert TrimStart("oops\n") == "oops\n" by { assert !IsSpace('o'); }
    assert IsSpace("oops\n"[4]) && "oops\n"[..4] == "oops";
    assert TrimEnd("oops") == "oops" by { assert !IsSpace('s'); }
  }

  /** A positive and a negative exit code as text. */
  lemma DecimalExample()
    ensures Decimal(1) == "1" && Decimal(-2) == "-2"
  {
    assert DigitChar(1) == '1' && DigitChar(2) == '2';
    assert Digits(2) == "2";
  }

  /** Surrounding whitespace of the error text goes; the code keeps its sign. */
  lemma ErrorLineExample()
    ensures ErrorLine(" oops\n", 1) == "oops: 1"
    ensures ErrorLine("", -2) == ": -2"
  {
    StripExample();
    DecimalExample();
    assert Strip("") == "";
  }
}
