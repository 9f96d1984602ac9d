/** The pieces of Java semantics the game code relies on: 32-bit `int`
    bounds, `/` that truncates toward zero, `Integer.toString`,
    `Integer.valueOf`, `String.format("%7s", ..)` followed by `replace`, and
    `String.split` on a one-character separator. */
module Java {

  datatype Option<+T> = None | Some(value: T)

  const INT_MIN: int := -0x8000_0000
  const INT_MAX: int := 0x7fff_ffff

  predicate IsInt(n: int) { INT_MIN <= n <= INT_MAX }

  function Abs(n: int): nat { if n < 0 then -n else n }

  /** Java's `a / b` on `int`: the quotient truncated toward zero. */
  function Div(a: int, b: int): int
    requires b != 0
  {
    var q := Abs(a) / Abs(b);
    if (a < 0) != (b < 0) then -q else q
  }

  lemma DivOfNonNegatives(a: int, b: int)
    requires 0 <= a && 0 < b
    ensures Div(a, b) == a / b
  {
  }

  // ---------------------------------------------------------------- digits

  predicate IsDigit(c: char) { '0' <= c <= '9' }

  predicate AllDigits(s: string) { forall i | 0 <= i < |s| :: IsDigit(s[i]) }

  function DigitChar(d: nat): (c: char)
    requires d < 10
    ensures IsDigit(c)
  {
    (48 + d) as char
  }

  /** The value of a string of decimal digits (leading zeros allowed). */
  function DigitsValue(s: string): nat
    requires AllDigits(s)
  {
    if s == [] then 0 else DigitsValue(s[..|s| - 1]) * 10 + (s[|s| - 1] as int - 48)
  }

  /** The shortest decimal spelling of a natural number. */
  function NatToString(n: nat): (s: string)
  {
    if n < 10 then [DigitChar(n)] else NatToString(n / 10) + [DigitChar(n % 10)]
  }

  lemma {:induction false} NatToStringDigits(n: nat)
    ensures |NatToString(n)| >= 1 && AllDigits(NatToString(n))
    ensures DigitsValue(NatToString(n)) == n
    ensures NatToString(n)[0] != '0' || n == 0
  {
    if n >= 10 {
      NatToStringDigits(n / 10);
      var s := NatToString(n);
      assert s[..|s| - 1] == NatToString(n / 10);
    }
  }

  /** `Integer.toString(n)` / `String.valueOf(n)`. */
  function IntToString(n: int): string
  {
    if n < 0 then "-" + NatToString(-n) else NatToString(n)
  }

  /** `Integer.valueOf(s)`: an optional sign then at least one ASCII digit,
      with a value inside the `int` range; anything else is the
      NumberFormatException, here `None`. */
  function ParseInt(s: string): (r: Option<int>)
    ensures r.Some? ==> IsInt(r.value)
  {
    if |s| >= 1 && (s[0] == '-' || s[0] == '+') then
      var body := s[1..];
      if body != [] && AllDigits(body) then
        var v: int := if s[0] == '-' then -(DigitsValue(body) as int) else DigitsValue(body);
        if IsInt(v) then Some(v) else None
      else None
    else if s != [] && AllDigits(s) && IsInt(DigitsValue(s)) then Some(DigitsValue(s))
    else None
  }

  /** Every Java `int` survives a trip through its decimal spelling. */
  lemma IntToStringRoundTrip(n: int)
    requires IsInt(n)
    ensures ParseInt(IntToString(n)) == Some(n)
    ensures |IntToString(n)| >= 1 && ';' !in IntToString(n) && ' ' !in IntToString(n)
  {
    NatToStringDigits(Abs(n));
    var d := NatToString(Abs(n));
    assert forall i | 0 <= i < |d| :: IsDigit(d[i]);
    if n < 0 {
      assert IntToString(n)[1..] == d;
    }
  }

  /** Two different `int`s never share a spelling. */
  lemma IntToStringInjective(a: int, b: int)
    requires IsInt(a) && IsInt(b) && IntToString(a) == IntToString(b)
    ensures a == b
  {
    IntToStringRoundTrip(a);
    IntToStringRoundTrip(b);
  }

  // ---------------------------------------------------- String.format("%7s")

  function Repeat(c: char, k: nat): (s: string)
    ensures |s| == k && forall i | 0 <= i < k :: s[i] == c
  {
    if k == 0 then [] else Repeat(c, k - 1) + [c]
  }

  /** `String.format("%" + width + "s", s)`: right-aligned, padded with
      spaces, never truncated. */
  function FormatWidth(s: string, width: nat): string
  {
    if |s| >= width then s else Repeat(' ', width - |s|) + s
  }

  /** `s.replace(from, to)` for single characters. */
  function Replace(s: string, from: char, to: char): (r: string)
    ensures |r| == |s|
    ensures forall i | 0 <= i < |s| :: r[i] == if s[i] == from then to else s[i]
  {
    if s == [] then [] else Replace(s[..|s| - 1], from, to) + [if s[|s| - 1] == from then to else s[|s| - 1]]
  }

  /** The HUD spelling of a score: `String.format("%7s", valueOf(n)).replace(' ', '0')`. */
  function ZeroPadded7(n: int): string
  {
    Replace(FormatWidth(IntToString(n), 7), ' ', '0')
  }

  lemma {:induction false} LeadingZerosValue(k: nat, s: string)
    requires AllDigits(s)
    ensures AllDigits(Repeat('0', k) + s)
    ensures DigitsValue(Repeat('0', k) + s) == DigitsValue(s)
    decreases |s|, k
  {
    var z := Repeat('0', k);
    assert AllDigits(z + s) by {
      forall i | 0 <= i < |z + s| ensures IsDigit((z + s)[i]) {
        if i >= k { assert (z + s)[i] == s[i - k]; }
      }
    }
    if s == [] {
      assert z + s == z;
      if k > 0 {
        LeadingZerosValue(k - 1, []);
        assert z[..k - 1] == Repeat('0', k - 1) + [];
      }
    } else {
      LeadingZerosValue(k, s[..|s| - 1]);
      assert (z + s)[..|z + s| - 1] == z + s[..|s| - 1];
    }
  }

  lemma IntToStringHasNoSpace(n: int)
    ensures |IntToString(n)| >= 1 && ' ' !in IntToString(n)
    ensures n >= 0 ==> AllDigits(IntToString(n)) && DigitsValue(IntToString(n)) == n
  {
    NatToStringDigits(Abs(n));
    var d := IntToString(n);
    if n < 0 {
      forall i | 1 <= i < |d| ensures d[i] != ' ' {
        assert d[i] == NatToString(-n)[i - 1];
      }
    }
  }

  lemma ReplacePadding(k: nat, d: string)
    requires ' ' !in d
    ensures Replace(Repeat(' ', k) + d, ' ', '0') == Repeat('0', k) + d
  {
    var f := Repeat(' ', k) + d;
    var r := Replace(f, ' ', '0');
    forall i | 0 <= i < |r| ensures r[i] == (Repeat('0', k) + d)[i] {
      if i >= k { assert f[i] == d[i - k]; }
    }
  }

  /** The score text is the decimal spelling of the score, left-padded with
      '0' to at least seven characters and never cut; for a non-negative
      score it reads back as the same number. */
  lemma ZeroPadded7Spelling(n: int)
    ensures var d := IntToString(n);
            var pad := if |d| >= 7 then 0 else 7 - |d|;
            ZeroPadded7(n) == Repeat('0', pad) + d && |ZeroPadded7(n)| == if |d| >= 7 then |d| else 7
    ensures n >= 0 ==> AllDigits(ZeroPadded7(n)) && DigitsValue(ZeroPadded7(n)) == n
  {
    IntToStringHasNoSpace(n);
    var d := IntToString(n);
    var pad := if |d| >= 7 then 0 else 7 - |d|;
    assert FormatWidth(d, 7) == Repeat(' ', pad) + d;
    ReplacePadding(pad, d);
    if n >= 0 {
      LeadingZerosValue(pad, d);
    }
  }

  // ------------------------------------------------------------ String.split

  /** Every field between separators, the empty ones included. */
  function Fields(s: string, sep: char): (r: seq<string>)
    ensures |r| >= 1
  {
    if s == [] then [""]
    else if s[0] == sep then [""] + Fields(s[1..], sep)
    else var rest := Fields(s[1..], sep); [[s[0]] + rest[0]] + rest[1..]
  }

  function DropTrailingEmpty(fs: seq<string>): seq<string>
  {
    if fs == [] then []
    else if fs[|fs| - 1] == "" then DropTrailingEmpty(fs[..|fs| - 1])
    else fs
  }

  /** `s.split(String.valueOf(sep))` for a separator that is not a regular
      expression metacharacter: with no separator the whole string is the
      one field, otherwise trailing empty fields are dropped. */
  function Split(s: string, sep: char): seq<string>
  {
    if sep !in s then [s] else DropTrailingEmpty(Fields(s, sep))
  }

  lemma {:induction false} FieldsAfterWord(w: string, sep: char, t: string)
    requires sep !in w
    ensures Fields(w + [sep] + t, sep) == [w] + Fields(t, sep)
    decreases |w|
  {
    if w == [] {
      assert w + [sep] + t == [sep] + t;
      assert ([sep] + t)[1..] == t;
    } else {
      FieldsAfterWord(w[1..], sep, t);
      assert (w + [sep] + t)[1..] == w[1..] + [sep] + t;
      assert [w[0]] + w[1..] == w;
    }
  }
}
