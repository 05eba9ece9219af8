/** Text helpers used throughout httpdiff: the token splitter of `Blob`
    (`re.split(r",|\.|\s|;", line)`), `str.strip()`, `str.isdigit()`,
    `int(...)` and `str(int)`, all over ASCII text. */
module Text {

  datatype Option<T> = None | Some(value: T)

  /** ASCII whitespace: space and the control characters TAB, LF, VT, FF, CR,
      as `bytes.strip()` and a bytes pattern's `\s` see it. Python `str`
      whitespace also has 0x1C-0x1F and the Unicode spaces; they are not
      modelled. */
  predicate IsSpace(c: char) {
    c == ' ' || 9 <= c as int <= 13
  }

  /** The delimiter class `,|\.|\s|;` of the payload splitter. */
  predicate IsDelim(c: char) {
    c == ',' || c == '.' || c == ';' || IsSpace(c)
  }

  /** `re.split` over single-character delimiters: every delimiter ends one
      token and starts the next, so the result is never empty. */
  function Split(s: string): (r: seq<string>)
    ensures |r| >= 1
  {
    if s == [] then [[]]
    else
      var rest := Split(s[1..]);
      if IsDelim(s[0]) then [[]] + rest
      else [[s[0]] + rest[0]] + rest[1..]
  }

  /** The delimiter characters of `s`, in order. */
  function Delims(s: string): seq<char> {
    if s == [] then []
    else if IsDelim(s[0]) then [s[0]] + Delims(s[1..])
    else Delims(s[1..])
  }

  /** Puts the tokens back together with one delimiter between each two. */
  function Interleave(tokens: seq<string>, ds: seq<char>): string
    requires |tokens| == |ds| + 1
  {
    if ds == [] then tokens[0]
    else tokens[0] + [ds[0]] + Interleave(tokens[1..], ds[1..])
  }

  /** Splitting loses nothing but the delimiters: there is one token more
      than there are delimiters, no token holds a delimiter, and putting the
      delimiters back between the tokens gives the payload again. */
  lemma {:induction false} SplitRoundTrip(s: string)
    ensures |Split(s)| == |Delims(s)| + 1
    ensures forall i, j :: 0 <= i < |Split(s)| && 0 <= j < |Split(s)[i]| ==> !IsDelim(Split(s)[i][j])
    ensures Interleave(Split(s), Delims(s)) == s
  {
    if s != [] {
      SplitRoundTrip(s[1..]);
      var rest := Split(s[1..]);
      if IsDelim(s[0]) {
        assert Split(s) == [[]] + rest;
        assert Split(s)[1..] == rest;
      } else {
        var ds := Delims(s[1..]);
        assert Split(s) == [[s[0]] + rest[0]] + rest[1..];
        assert Split(s)[1..] == rest[1..];
        forall i, j | 0 <= i < |Split(s)| && 0 <= j < |Split(s)[i]|
          ensures !IsDelim(Split(s)[i][j])
        {
          if i == 0 && j > 0 {
            assert Split(s)[0][j] == rest[0][j - 1];
          } else if i > 0 {
            assert Split(s)[i] == rest[i];
          }
        }
        if ds != [] {
          calc {
            Interleave(Split(s), ds);
            [s[0]] + rest[0] + [ds[0]] + Interleave(rest[1..], ds[1..]);
            [s[0]] + (rest[0] + [ds[0]] + Interleave(rest[1..], ds[1..]));
            [s[0]] + Interleave(rest, ds);
            s;
          }
        }
      }
    }
  }

  /** `str.lstrip()` */
  function TrimStart(s: string): (r: string)
    ensures |r| <= |s|
    ensures r == [] || !IsSpace(r[0])
  {
    if s != [] && IsSpace(s[0]) then TrimStart(s[1..]) else s
  }

  /** `str.rstrip()` */
  function TrimEnd(s: string): (r: string)
    ensures |r| <= |s|
    ensures r == [] || !IsSpace(r[|r| - 1])
  {
    if s != [] && IsSpace(s[|s| - 1]) then TrimEnd(s[..|s| - 1]) else s
  }

  /** `str.strip()` */
  function Strip(s: string): string
    decreases |s|
  {
    if s != [] && IsSpace(s[0]) then Strip(s[1..])
    else if s != [] && IsSpace(s[|s| - 1]) then Strip(s[..|s| - 1])
    else s
  }

  lemma {:induction false} StripTrims(s: string)
    ensures Strip(s) == TrimEnd(TrimStart(s))
    decreases |s|
  {
    if s != [] && IsSpace(s[0]) {
      StripTrims(s[1..]);
    } else if s != [] && IsSpace(s[|s| - 1]) {
      StripTrims(s[..|s| - 1]);
      assert |s| > 1;
      assert s[..|s| - 1][0] == s[0];
    }
  }

  predicate IsDigit(c: char) {
    '0' <= c <= '9'
  }

  /** `str.isdigit()`: non-empty and nothing but digits. */
  predicate IsDigits(s: string) {
    |s| > 0 && forall i :: 0 <= i < |s| ==> IsDigit(s[i])
  }

  /** The decimal value of a run of digits. */
  function DigitsValue(s: string): nat
    requires forall i :: 0 <= i < |s| ==> IsDigit(s[i])
  {
    if s == [] then 0
    else
      assert IsDigit(s[|s| - 1]);
      10 * DigitsValue(s[..|s| - 1]) + (s[|s| - 1] as int - '0' as int)
  }

  /** `int(s)`: surrounding whitespace is ignored and one sign is allowed;
      anything else is a parse failure. */
  function ParseInt(s: string): Option<int> {
    var t := Strip(s);
    if IsDigits(t) then Some(DigitsValue(t) as int)
    else if |t| >= 2 && t[0] == '-' && IsDigits(t[1..]) then Some(0 - DigitsValue(t[1..]))
    else if |t| >= 2 && t[0] == '+' && IsDigits(t[1..]) then Some(DigitsValue(t[1..]) as int)
    else None
  }

  /** Text that passes `strip().isdigit()` parses to its digit value. */
  lemma DigitsParse(s: string)
    requires IsDigits(Strip(s))
    ensures ParseInt(s) == Some(DigitsValue(Strip(s)))
  {
  }

  function DigitChar(d: nat): char
    requires d < 10
  {
    ('0' as int + d) as char
  }

  /** `str(n)` for a natural number. */
  function NatToString(n: nat): string
    decreases n
  {
    if n < 10 then [DigitChar(n)] else NatToString(n / 10) + [DigitChar(n % 10)]
  }

  /** `str(i)` for any integer. */
  function IntToString(i: int): string {
    if i < 0 then "-" + NatToString(-i) else NatToString(i)
  }

  lemma {:induction false} NatToStringDigits(n: nat)
    ensures IsDigits(NatToString(n))
    ensures DigitsValue(NatToString(n)) == n
    decreases n
  {
    if n >= 10 {
      NatToStringDigits(n / 10);
      var s := NatToString(n);
      assert s[..|s| - 1] == NatToString(n / 10);
    }
  }

  lemma StripDigits(s: string)
    requires IsDigits(s)
    ensures Strip(s) == s
  {
    assert !IsSpace(s[0]) && !IsSpace(s[|s| - 1]);
  }

  /** `int(str(i)) == i` */
  lemma IntToStringRoundTrip(i: int)
    ensures ParseInt(IntToString(i)) == Some(i)
  {
    NatToStringDigits(if i < 0 then -i else i);
    var s := IntToString(i);
    if i < 0 {
      assert s[0] == '-' && s[1..] == NatToString(-i);
      assert !IsSpace(s[0]) && !IsSpace(s[|s| - 1]);
      assert Strip(s) == s;
      assert !IsDigit(s[0]);
    } else {
      StripDigits(s);
    }
  }
}
