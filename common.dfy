/** Failure-compatible wrappers for the exceptions the repository raises, and
    the handful of Python string operations (upper, lower, split, strip of
    whitespace, prefix and suffix tests, int() and float() on plain decimal
    text) that the rest of the model relies on. Characters are classified by
    their ASCII code only. */
module Common {

  datatype Option<T> = None | Some(value: T) {
    function GetOr(default: T): T {
      match this
      case Some(v) => v
      case None => default
    }
  }

  /** The Python exceptions (built-in and the package's own) that the modelled
      code raises or lets propagate. */
  datatype Error =
    | AssertionError
    | ValueError
    | KeyError
    | IndexError
    | TypeError
    | AttributeError
    | ZeroDivisionError
    | NotImplementedError
    | FileNotFoundError
    | FileExistsError
    | NotADirectoryError
    | StopIteration
    | InvalidSource
    | InvalidApiCall
    | RateLimitExceeded
    | MissingRequiredColumns

  datatype Result<T> = Ok(value: T) | Err(error: Error) {
    predicate IsFailure() {
      Err?
    }
    function PropagateFailure<U>(): Result<U>
      requires Err?
    {
      Err(error)
    }
    function Extract(): T
      requires Ok?
    {
      value
    }
  }

  /** A result without a value: an operation that returns None in Python. */
  datatype Outcome = Pass | Fail(error: Error) {
    predicate IsFailure() {
      Fail?
    }
    function PropagateFailure<U>(): Result<U>
      requires Fail?
    {
      Err(error)
    }
  }

  /** `assert cond` in Python. */
  function Check(cond: bool): (r: Outcome)
    ensures r.Pass? <==> cond
    ensures r.Fail? ==> r.error == AssertionError
  {
    if cond then Pass else Fail(AssertionError)
  }

  /** The names of a list of named pairs, in order: the keys of a dict's
      items, or `df.columns` of a frame of named columns. */
  function Keys<V>(items: seq<(string, V)>): (r: seq<string>)
    ensures |r| == |items|
    ensures forall i :: 0 <= i < |items| ==> r[i] == items[i].0
  {
    if items == [] then [] else [items[0].0] + Keys(items[1..])
  }

  /** A scalar as stored in the repository's YAML and JSON files. */
  datatype Value = VNone | VBool(b: bool) | VNum(n: real) | VStr(s: string)

  // ---------------------------------------------------------------------------
  // Characters and strings

  predicate IsAsciiLower(c: char) { 'a' <= c <= 'z' }
  predicate IsAsciiUpper(c: char) { 'A' <= c <= 'Z' }
  predicate IsAsciiLetter(c: char) { IsAsciiLower(c) || IsAsciiUpper(c) }
  predicate IsDigit(c: char) { '0' <= c <= '9' }

  /** The characters `str.split()` with no argument splits on, restricted to
      the ASCII range: space, \t \n \v \f \r and the separators \x1c-\x1f. */
  predicate IsSpace(c: char) {
    c == ' ' || (9 <= c as int <= 13) || (28 <= c as int <= 31)
  }

  function UpperChar(c: char): char {
    if IsAsciiLower(c) then (c as int - 32) as char else c
  }

  function LowerChar(c: char): char {
    if IsAsciiUpper(c) then (c as int + 32) as char else c
  }

  /** `str.upper(s)` */
  function Upper(s: string): (r: string)
    ensures |r| == |s|
    ensures forall i :: 0 <= i < |s| ==> r[i] == UpperChar(s[i])
  {
    if s == [] then [] else [UpperChar(s[0])] + Upper(s[1..])
  }

  /** `s.lower()` */
  function Lower(s: string): (r: string)
    ensures |r| == |s|
    ensures forall i :: 0 <= i < |s| ==> r[i] == LowerChar(s[i])
  {
    if s == [] then [] else [LowerChar(s[0])] + Lower(s[1..])
  }

  /** `"".join(s.split())`: every whitespace character removed. */
  function RemoveSpaces(s: string): (r: string)
    ensures forall i :: 0 <= i < |r| ==> !IsSpace(r[i])
    ensures forall c :: c in s && !IsSpace(c) ==> c in r
    ensures forall c :: c in r ==> c in s
    ensures |r| <= |s|
  {
    if s == [] then []
    else if IsSpace(s[0]) then RemoveSpaces(s[1..])
    else [s[0]] + RemoveSpaces(s[1..])
  }

  /** Lower-casing an upper-cased string gives the lower-cased original. */
  lemma LowerOfUpper(s: string)
    ensures Lower(Upper(s)) == Lower(s)
  {
    forall i | 0 <= i < |s| ensures Lower(Upper(s))[i] == Lower(s)[i] {
      assert Upper(s)[i] == UpperChar(s[i]);
    }
  }

  /** Upper-casing twice is upper-casing once. */
  lemma UpperIdempotent(s: string)
    ensures Upper(Upper(s)) == Upper(s)
  {
    forall i | 0 <= i < |s| ensures Upper(Upper(s))[i] == Upper(s)[i] {
      assert Upper(s)[i] == UpperChar(s[i]);
    }
  }

  predicate StartsWith(s: string, prefix: string) {
    |prefix| <= |s| && s[..|prefix|] == prefix
  }

  predicate EndsWith(s: string, suffix: string) {
    |suffix| <= |s| && s[|s| - |suffix|..] == suffix
  }

  /** Python's `sub in s` on strings. */
  predicate Contains(s: string, sub: string)
    decreases |s|
  {
    StartsWith(s, sub) || (|s| > 0 && Contains(s[1..], sub))
  }

  /** Python's `s.split(sep)` for a one-character separator. */
  function Split(s: string, sep: char): (r: seq<string>)
    ensures |r| >= 1
    ensures forall k :: 0 <= k < |r| ==> sep !in r[k]
  {
    if s == [] then [""]
    else
      var rest := Split(s[1..], sep);
      if s[0] == sep then [""] + rest
      else [[s[0]] + rest[0]] + rest[1..]
  }

  /** Python's `s.split(sep)[-1]` for a one-character separator. */
  function LastPiece(s: string, sep: char): string {
    var pieces := Split(s, sep);
    pieces[|pieces| - 1]
  }

  /** Python's `s.split(sep)` for a separator of any non-zero length: the
      text is scanned from the left and each occurrence cuts it. */
  function SplitStr(s: string, sep: string): (r: seq<string>)
    requires |sep| > 0
    ensures |r| >= 1
    decreases |s|
  {
    if |s| < |sep| then [s]
    else if s[..|sep|] == sep then [""] + SplitStr(s[|sep|..], sep)
    else
      var rest := SplitStr(s[1..], sep);
      [[s[0]] + rest[0]] + rest[1..]
  }

  /** Python's `s.split(sep)[-1]` */
  function LastPieceStr(s: string, sep: string): string
    requires |sep| > 0
  {
    var pieces := SplitStr(s, sep);
    pieces[|pieces| - 1]
  }

  /** Text without the separator is not cut. */
  lemma {:induction false} SplitStrNoSep(u: string, sep: string)
    requires |sep| > 0
    requires !Contains(u, sep)
    ensures SplitStr(u, sep) == [u]
    decreases |u|
  {
    if |u| >= |sep| {
      assert u[..|sep|] != sep;
      SplitStrNoSep(u[1..], sep);
      assert [u[0]] + u[1..] == u;
    }
  }

  /** A text contains every text that occurs in it between two others. */
  lemma {:induction false} ContainsMiddle(p: string, u: string, q: string)
    ensures Contains(p + u + q, u)
    decreases |p|
  {
    if p == [] {
      assert p + u + q == u + q;
      assert (u + q)[..|u|] == u;
    } else {
      ContainsMiddle(p[1..], u, q);
      assert (p + u + q)[1..] == p[1..] + u + q;
    }
  }

  predicate AllDigits(s: string) {
    forall i :: 0 <= i < |s| ==> IsDigit(s[i])
  }

  function DigitsValue(s: string): (n: nat)
    requires AllDigits(s)
  {
    if s == [] then 0
    else DigitsValue(s[..|s| - 1]) * 10 + (s[|s| - 1] as int - '0' as int)
  }

  /** Python's `int(s)` on an optionally signed run of decimal digits; any
      other text is a ValueError (None). */
  function ParseInt(s: string): (r: Option<int>)
    ensures r.Some? ==> |s| > 0
  {
    if |s| > 0 && AllDigits(s) then Some(DigitsValue(s))
    else if |s| > 1 && (s[0] == '-' || s[0] == '+') && AllDigits(s[1..]) then
      var v: int := DigitsValue(s[1..]);
      Some(if s[0] == '-' then -v else v)
    else None
  }

  function Pow10(n: nat): (r: nat)
    ensures r >= 1
  {
    if n == 0 then 1 else 10 * Pow10(n - 1)
  }

  /** Python's `float(s)` on plain decimal text: an optional sign, digits, and
      an optional fractional part (`12`, `-1.5`, `.25`, `3.`). */
  function ParseDecimal(s: string): (r: Option<real>)
  {
    if |s| > 0 && (s[0] == '-' || s[0] == '+') then
      var v := ParseUnsignedDecimal(s[1..]);
      if v.Some? then Some(if s[0] == '-' then -v.value else v.value) else None
    else ParseUnsignedDecimal(s)
  }

  function ParseUnsignedDecimal(s: string): (r: Option<real>)
    ensures r.Some? ==> r.value >= 0.0
  {
    var pieces := Split(s, '.');
    if |pieces| == 1 && |s| > 0 && AllDigits(s) then Some(DigitsValue(s) as real)
    else if |pieces| == 2 && |pieces[0]| + |pieces[1]| > 0
            && AllDigits(pieces[0]) && AllDigits(pieces[1]) then
      Some(DigitsValue(pieces[0]) as real
           + DigitsValue(pieces[1]) as real / Pow10(|pieces[1]|) as real)
    else None
  }

  function DigitChar(d: int): char
    requires 0 <= d < 10
  {
    ('0' as int + d) as char
  }

  /** `str(n)` for a natural number. */
  function NatToString(n: nat): (r: string)
    ensures |r| >= 1
    ensures AllDigits(r)
  {
    if n < 10 then [DigitChar(n)] else NatToString(n / 10) + [DigitChar(n % 10)]
  }

  /** `str(n)` for an integer. */
  function IntToString(n: int): string {
    if n < 0 then "-" + NatToString(-n) else NatToString(n)
  }

  /** `int(str(n)) == n` */
  lemma {:induction false} DigitsOfNat(n: nat)
    ensures DigitsValue(NatToString(n)) == n
  {
    if n >= 10 {
      DigitsOfNat(n / 10);
      var s := NatToString(n / 10);
      var t := s + [DigitChar(n % 10)];
      assert t[..|t| - 1] == s;
    }
  }

  /** Zero-padded decimal text of at least `width` characters. */
  function PadNat(n: nat, width: nat): (r: string)
    ensures |r| >= width
  {
    var s := NatToString(n);
    if |s| >= width then s else Zeros(width - |s|) + s
  }

  function Zeros(k: nat): (r: string)
    ensures |r| == k
    ensures forall i :: 0 <= i < k ==> r[i] == '0'
  {
    if k == 0 then "" else "0" + Zeros(k - 1)
  }

  lemma {:induction false} ZerosSnoc(k: nat)
    requires k > 0
    ensures Zeros(k) == Zeros(k - 1) + "0"
  {
    if k > 1 {
      ZerosSnoc(k - 1);
    }
  }

  /** Leading zeros change neither the digits test nor the value. */
  lemma {:induction false} DigitsOfZeros(k: nat, s: string)
    requires AllDigits(s)
    ensures AllDigits(Zeros(k) + s)
    ensures DigitsValue(Zeros(k) + s) == DigitsValue(s)
  {
    if s == [] {
      assert Zeros(k) + s == Zeros(k);
      if k > 0 {
        ZerosSnoc(k);
        DigitsOfZeros(k - 1, s);
        assert Zeros(k - 1) + s == Zeros(k - 1);
        assert Zeros(k)[..k - 1] == Zeros(k - 1);
        assert Zeros(k)[k - 1] == '0';
      }
    } else {
      var t := Zeros(k) + s;
      DigitsOfZeros(k, s[..|s| - 1]);
      assert t[..|t| - 1] == Zeros(k) + s[..|s| - 1];
    }
  }

  /** `int` reads zero-padded decimal text back as its number. */
  lemma PadNatParses(n: nat, width: nat)
    ensures ParseInt(PadNat(n, width)) == Some(n)
  {
    var s := NatToString(n);
    var t := PadNat(n, width);
    DigitsOfNat(n);
    if |s| < width {
      DigitsOfZeros(width - |s|, s);
      assert t == Zeros(width - |s|) + s;
    } else {
      assert t == s;
    }
    assert |t| > 0 && AllDigits(t) && DigitsValue(t) == n;
  }

  /** A number below 10^k has at most k digits. */
  lemma {:induction false} NatToStringLength(n: nat, k: nat)
    requires k >= 1 && n < Pow10(k)
    ensures |NatToString(n)| <= k
  {
    if n >= 10 {
      assert k >= 2;
      NatToStringLength(n / 10, k - 1);
    }
  }

  /** Python's truthiness of an optional string: None and "" are false. */
  predicate Truthy(s: Option<string>) {
    s.Some? && s.value != ""
  }
}
