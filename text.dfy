/** The text primitives the example game uses: Rust's `str::split_whitespace`,
    the decimal `Display` of an unsigned integer, and `u16::from_str`. */
module Text {
  import opened Common

  /** `char::is_whitespace`: the Unicode White_Space property. */
  predicate IsWhitespace(c: char)
  {
    ('\t' <= c <= '\r') || c == ' ' || c == '\U{0085}' || c == '\U{00A0}'
    || c == '\U{1680}' || ('\U{2000}' <= c <= '\U{200A}') || c == '\U{2028}'
    || c == '\U{2029}' || c == '\U{202F}' || c == '\U{205F}' || c == '\U{3000}'
  }

  predicate NoWhitespace(s: string)
  {
    forall i :: 0 <= i < |s| ==> !IsWhitespace(s[i])
  }

  predicate AllWhitespace(s: string)
  {
    forall i :: 0 <= i < |s| ==> IsWhitespace(s[i])
  }

  /** A word: what `split_whitespace` yields, never empty. */
  predicate IsWord(w: string)
  {
    |w| > 0 && NoWhitespace(w)
  }

  /** The length of the leading run of non-whitespace characters. */
  function WordLength(s: string): (n: nat)
    ensures n <= |s|
    ensures NoWhitespace(s[..n])
    ensures n < |s| ==> IsWhitespace(s[n])
  {
    if |s| == 0 || IsWhitespace(s[0]) then 0
    else
      var n := 1 + WordLength(s[1..]);
      assert s[..n] == [s[0]] + s[1..][..n - 1];
      n
  }

  /** `split_whitespace`: the maximal runs of non-whitespace characters, in
      order.  There are none exactly when the text is all whitespace. */
  function Tokens(s: string): (ts: seq<string>)
    ensures forall i :: 0 <= i < |ts| ==> IsWord(ts[i])
    ensures |ts| == 0 <==> AllWhitespace(s)
    decreases |s|
  {
    if |s| == 0 then []
    else if IsWhitespace(s[0]) then
      var ts := Tokens(s[1..]);
      assert AllWhitespace(s[1..]) ==> AllWhitespace(s) by {
        if AllWhitespace(s[1..]) {
          forall i | 0 <= i < |s| ensures IsWhitespace(s[i]) {
            if i > 0 { assert s[i] == s[1..][i - 1]; }
          }
        }
      }
      ts
    else
      var n := WordLength(s);
      [s[..n]] + Tokens(s[n..])
  }

  /** Leading whitespace does not change the words. */
  lemma {:induction false} TokensSkipSpace(sp: string, rest: string)
    requires AllWhitespace(sp)
    ensures Tokens(sp + rest) == Tokens(rest)
    decreases |sp|
  {
    if |sp| > 0 {
      assert (sp + rest)[0] == sp[0];
      assert (sp + rest)[1..] == sp[1..] + rest;
      TokensSkipSpace(sp[1..], rest);
    } else {
      assert sp + rest == rest;
    }
  }

  /** A word followed by whitespace or by nothing is the first token. */
  lemma TokensOfWord(w: string, rest: string)
    requires IsWord(w)
    requires |rest| > 0 ==> IsWhitespace(rest[0])
    ensures Tokens(w + rest) == [w] + Tokens(rest)
  {
    var s := w + rest;
    WordLengthOfWord(w, rest);
    assert s[..|w|] == w;
    assert s[|w|..] == rest;
  }

  lemma {:induction false} WordLengthOfWord(w: string, rest: string)
    requires NoWhitespace(w)
    requires |rest| > 0 ==> IsWhitespace(rest[0])
    ensures WordLength(w + rest) == |w|
    decreases |w|
  {
    if |w| > 0 {
      assert (w + rest)[1..] == w[1..] + rest;
      WordLengthOfWord(w[1..], rest);
    } else {
      assert w + rest == rest;
    }
  }

  /** Two words joined by one space split back into the two words. */
  lemma TokensOfPair(a: string, b: string)
    requires IsWord(a) && IsWord(b)
    ensures Tokens(a + " " + b) == [a, b]
  {
    assert a + " " + b == a + (" " + b);
    TokensOfWord(a, " " + b);
    TokensSkipSpace(" ", b);
    TokensOfWord(b, "");
    assert b + "" == b;
  }

  // ---------------------------------------------------------------------
  // Decimal numbers

  predicate IsDigit(c: char)
  {
    '0' <= c <= '9'
  }

  predicate AllDigits(s: string)
  {
    forall i :: 0 <= i < |s| ==> IsDigit(s[i])
  }

  function DigitValue(c: char): (d: nat)
    requires IsDigit(c)
    ensures d < 10
  {
    (c as int) - ('0' as int)
  }

  function DigitChar(d: nat): (c: char)
    requires d < 10
    ensures IsDigit(c) && DigitValue(c) == d
  {
    (('0' as int) + d) as char
  }

  /** The number a digit string denotes, read left to right onto `acc`. */
  ghost function DecimalValue(s: string, acc: nat): (v: nat)
    requires AllDigits(s)
    ensures v >= acc
    decreases |s|
  {
    if |s| == 0 then acc else DecimalValue(s[1..], acc * 10 + DigitValue(s[0]))
  }

  lemma {:induction false} DecimalValueSnoc(s: string, c: char, acc: nat)
    requires AllDigits(s) && IsDigit(c)
    ensures AllDigits(s + [c])
    ensures DecimalValue(s + [c], acc) == DecimalValue(s, acc) * 10 + DigitValue(c)
    decreases |s|
  {
    if |s| > 0 {
      assert (s + [c])[1..] == s[1..] + [c];
      DecimalValueSnoc(s[1..], c, acc * 10 + DigitValue(s[0]));
    }
  }

  /** `Display` of an unsigned integer: its shortest decimal digits. */
  function ShowNat(n: nat): (r: string)
    ensures |r| > 0 && AllDigits(r)
    ensures DecimalValue(r, 0) == n
    ensures n < 10 <==> |r| == 1
    ensures r[0] == '0' <==> n == 0
  {
    if n < 10 then
      [DigitChar(n)]
    else
      var p := ShowNat(n / 10);
      DecimalValueSnoc(p, DigitChar(n % 10), 0);
      p + [DigitChar(n % 10)]
  }

  lemma DigitsAreWord(s: string)
    requires |s| > 0 && AllDigits(s)
    ensures IsWord(s)
  {
  }

  /** The kinds of `ParseIntError` an unsigned parse reports. */
  datatype IntErrorKind = Empty | InvalidDigit | PosOverflow

  /** The `Display` text of a `ParseIntError`. */
  function IntErrorMessage(k: IntErrorKind): string
  {
    match k
    case Empty => "cannot parse integer from empty string"
    case InvalidDigit => "invalid digit found in string"
    case PosOverflow => "number too large to fit in target type"
  }

  /** The digit loop of `from_str_radix` for `u16`: each character is first
      checked to be a digit, then the accumulator is checked for overflow. */
  function ParseDigits(s: string, acc: u16): (r: Result<u16, IntErrorKind>)
    ensures r.Ok? <==> AllDigits(s) && DecimalValue(s, acc) < U16_MODULUS
    ensures r.Ok? ==> r.value == DecimalValue(s, acc)
    ensures r.Err? ==> r.error != Empty
    decreases |s|
  {
    if |s| == 0 then Ok(acc)
    else if !IsDigit(s[0]) then Err(InvalidDigit)
    else if acc * 10 + DigitValue(s[0]) >= U16_MODULUS then
      assert AllDigits(s) ==> DecimalValue(s, acc) >= acc * 10 + DigitValue(s[0]);
      Err(PosOverflow)
    else
      var next: u16 := acc * 10 + DigitValue(s[0]);
      ParseDigits(s[1..], next)
  }

  /** `u16::from_str`: an optional `+`, then the digits.  An empty text, and
      a sign with nothing after it, are rejected; a `-` is an invalid digit
      of an unsigned type. */
  function ParseU16(s: string): (r: Result<u16, IntErrorKind>)
    ensures r == Err(Empty) <==> |s| == 0
    ensures s == "+" ==> r == Err(InvalidDigit)
    ensures |s| > 0 && s[0] != '+' ==>
      (r.Ok? <==> AllDigits(s) && DecimalValue(s, 0) < U16_MODULUS)
    ensures |s| > 0 && s[0] != '+' && r.Ok? ==> r.value == DecimalValue(s, 0)
  {
    if |s| == 0 then Err(Empty)
    else if (s[0] == '+' || s[0] == '-') && |s| == 1 then Err(InvalidDigit)
    else if s[0] == '+' then ParseDigits(s[1..], 0)
    else ParseDigits(s, 0)
  }

  /** Printing a number that fits in 16 bits and parsing it back gives the
      number. */
  lemma ParseShowNat(n: nat)
    requires n < U16_MODULUS
    ensures ParseU16(ShowNat(n)) == Ok(n)
  {
  }

  /** A text holding whitespace never parses. */
  lemma ParseRejectsWhitespace(s: string, i: nat)
    requires i < |s| && IsWhitespace(s[i])
    ensures ParseU16(s).Err?
  {
    if s[0] == '+' && |s| > 1 {
      assert s[1..][i - 1] == s[i];
    }
  }

  // ---------------------------------------------------------------------
  // C strings

  /** A C string as the host reads it: a NUL byte ends it and occurs
      nowhere before. */
  predicate IsCString(m: string)
  {
    |m| > 0 && m[|m| - 1] == '\0' && '\0' !in m[..|m| - 1]
  }

  /** What the host reads from a message handed over as a C string: the
      characters up to the first NUL, or nothing when the message holds no
      NUL and the host would read past its end. */
  function ReadCString(m: string): (r: Option<string>)
    ensures r.Some? ==> |r.value| < |m| && m[|r.value|] == '\0' && m[..|r.value|] == r.value
    decreases |m|
  {
    if |m| == 0 then None
    else if m[0] == '\0' then Some([])
    else
      match ReadCString(m[1..])
      case None => None
      case Some(t) => Some([m[0]] + t)
  }

  /** A C string reads back as itself without its terminator. */
  lemma {:induction false} ReadTerminated(m: string)
    requires IsCString(m)
    ensures ReadCString(m) == Some(m[..|m| - 1])
    decreases |m|
  {
    if m[0] != '\0' {
      var t := m[1..];
      assert m[..|m| - 1] == [m[0]] + t[..|t| - 1];
      ReadTerminated(t);
      assert [m[0]] + t[..|t| - 1] == m[..|m| - 1];
    }
  }

  /** A message without any NUL cannot be read as a C string. */
  lemma {:induction false} ReadUnterminated(m: string)
    requires '\0' !in m
    ensures ReadCString(m).None?
    decreases |m|
  {
    if |m| > 0 {
      var t := m[1..];
      assert m == [m[0]] + t;
      ReadUnterminated(t);
    }
  }
}
