/**
 * The JavaScript built-ins the core depends on, written out as functions:
 * `parseInt` with no radix, the decimal rendering of an integer that a
 * template literal produces, `String.prototype.indexOf`, and
 * `String.prototype.split` with a non-empty string separator.
 */
module JsText {
  import opened Options

  /** A number as `parseInt` can return it: an integer, or NaN when no digit was read. */
  datatype JsNumber = Num(value: int) | NaN

  /** JavaScript truthiness of a number: 0 and NaN are falsy, everything else is truthy. */
  predicate Truthy(x: JsNumber) {
    x.Num? && x.value != 0
  }

  /** The WhiteSpace and LineTerminator code points that `parseInt` skips at the start. */
  predicate IsJsWhitespace(c: char) {
    c == '\t' || c == '\n' || c == '\U{000B}' || c == '\U{000C}' || c == '\r' || c == ' '
    || c == '\U{00A0}' || c == '\U{1680}' || ('\U{2000}' <= c <= '\U{200A}')
    || c == '\U{2028}' || c == '\U{2029}' || c == '\U{202F}' || c == '\U{205F}'
    || c == '\U{3000}' || c == '\U{FEFF}'
  }

  /** Drops the leading white space, as `parseInt` does before reading a sign. */
  function TrimStart(s: string): (t: string)
    ensures |t| <= |s| && t == s[|s| - |t|..]
    ensures t == [] || !IsJsWhitespace(t[0])
    ensures forall k :: 0 <= k < |s| - |t| ==> IsJsWhitespace(s[k])
  {
    if s != [] && IsJsWhitespace(s[0]) then TrimStart(s[1..]) else s
  }

  predicate ValidRadix(radix: nat) {
    radix == 10 || radix == 16
  }

  predicate IsDigit(c: char, radix: nat) {
    ('0' <= c <= '9') || (radix == 16 && (('a' <= c <= 'f') || ('A' <= c <= 'F')))
  }

  predicate AllDigits(z: string, radix: nat) {
    forall k :: 0 <= k < |z| ==> IsDigit(z[k], radix)
  }

  function DigitValue(c: char, radix: nat): (d: nat)
    requires ValidRadix(radix) && IsDigit(c, radix)
    ensures d < radix
  {
    if '0' <= c <= '9' then c as int - '0' as int
    else if 'a' <= c <= 'f' then c as int - 'a' as int + 10
    else c as int - 'A' as int + 10
  }

  /** The longest prefix of `s` made of digits of the radix: where `parseInt` stops reading. */
  function DigitRun(s: string, radix: nat): (z: string)
    ensures |z| <= |s| && z == s[..|z|]
    ensures AllDigits(z, radix)
    ensures |z| == |s| || !IsDigit(s[|z|], radix)
  {
    if s != [] && IsDigit(s[0], radix) then [s[0]] + DigitRun(s[1..], radix) else []
  }

  /** The value of a digit string, most significant digit first. */
  function DigitsValue(z: string, radix: nat): nat
    requires ValidRadix(radix) && AllDigits(z, radix)
  {
    if z == [] then 0
    else DigitsValue(z[..|z| - 1], radix) * radix + DigitValue(z[|z| - 1], radix)
  }

  /** The value of the longest digit run at the start of `v`, if that run is not empty. */
  function RunValue(v: string, radix: nat): Option<nat>
    requires ValidRadix(radix)
  {
    var z := DigitRun(v, radix);
    if z == [] then None else Some(DigitsValue(z, radix))
  }

  /** The magnitude `parseInt` reads after the sign: base 16 after a `0x`/`0X` prefix, else base 10. */
  function UnsignedValue(u: string): Option<nat> {
    if |u| >= 2 && u[0] == '0' && (u[1] == 'x' || u[1] == 'X') then RunValue(u[2..], 16)
    else RunValue(u, 10)
  }

  /**
   * `parseInt(s)` with no radix: skip leading white space, read an optional
   * sign, then the magnitude; NaN when no digit was read.
   */
  function ParseInt(s: string): (r: JsNumber)
    ensures TrimStart(s) == [] ==> r == NaN
    ensures r.Num? && r.value < 0 ==> TrimStart(s)[0] == '-'
  {
    var t := TrimStart(s);
    if t != [] && t[0] == '-' then
      match UnsignedValue(t[1..])
      case None => NaN
      case Some(v) => Num(0 - v)
    else
      match UnsignedValue(if t != [] && t[0] == '+' then t[1..] else t)
      case None => NaN
      case Some(v) => Num(v)
  }

  function DigitChar(d: nat): (c: char)
    requires d < 10
    ensures IsDigit(c, 10) && DigitValue(c, 10) == d
  {
    ('0' as int + d) as char
  }

  /** The decimal digits of a natural number, without leading zeros. */
  function NatToDecimal(n: nat): (s: string)
    ensures |s| >= 1 && AllDigits(s, 10)
    ensures s[0] == '0' ==> n == 0 && |s| == 1
  {
    if n < 10 then [DigitChar(n)] else NatToDecimal(n / 10) + [DigitChar(n % 10)]
  }

  /** The text a template literal `${n}` produces for an integer `n`. */
  function IntToDecimal(n: int): (s: string)
    ensures s != [] && (s[0] == '-' || IsDigit(s[0], 10))
  {
    if n < 0 then "-" + NatToDecimal(-n) else NatToDecimal(n)
  }

  lemma {:induction false} DigitsValueOfDecimal(n: nat)
    ensures DigitsValue(NatToDecimal(n), 10) == n
  {
    if n >= 10 {
      var s := NatToDecimal(n);
      assert s[..|s| - 1] == NatToDecimal(n / 10);
      DigitsValueOfDecimal(n / 10);
    }
  }

  lemma {:induction false} DigitRunOfDigits(z: string, radix: nat)
    requires AllDigits(z, radix)
    ensures DigitRun(z, radix) == z
  {
    if z != [] {
      DigitRunOfDigits(z[1..], radix);
    }
  }

  lemma UnsignedValueOfDecimal(m: nat)
    ensures UnsignedValue(NatToDecimal(m)) == Some(m)
  {
    DigitRunOfDigits(NatToDecimal(m), 10);
    DigitsValueOfDecimal(m);
  }

  /** Reading back the decimal rendering of any integer gives that integer. */
  lemma ParseIntOfDecimal(n: int)
    ensures ParseInt(IntToDecimal(n)) == Num(n)
  {
    var s := IntToDecimal(n);
    assert !IsJsWhitespace(s[0]);
    assert TrimStart(s) == s;
    if n < 0 {
      var u := NatToDecimal(-n);
      assert s == "-" + u && s[1..] == u;
      UnsignedValueOfDecimal(-n);
    } else {
      assert s[0] != '-' && s[0] != '+';
      UnsignedValueOfDecimal(n);
    }
  }

  /** The position `k` starts an occurrence of `sep` in `s`. */
  predicate OccursAt(s: string, sep: string, k: int) {
    0 <= k && k + |sep| <= |s| && s[k..k + |sep|] == sep
  }

  /**
   * `s.indexOf(sep, from)` for a non-empty `sep`: the first occurrence at or
   * after `from`. (For an empty `sep` JavaScript clamps `from` to `|s|` and
   * finds a match there; this function answers None past the end.)
   */
  function IndexOf(s: string, sep: string, from: nat): (r: Option<nat>)
    ensures r.Some? ==> from <= r.value && OccursAt(s, sep, r.value)
    ensures forall k :: from <= k && (r.None? || k < r.value) ==> !OccursAt(s, sep, k)
    decreases |s| - from
  {
    if from + |sep| > |s| then None
    else if s[from..from + |sep|] == sep then Some(from)
    else IndexOf(s, sep, from + 1)
  }

  /**
   * `s.split(sep)` for a non-empty string separator: the pieces between
   * successive non-overlapping occurrences, searched from left to right.
   */
  function Split(s: string, sep: string): (parts: seq<string>)
    requires sep != []
    ensures |parts| >= 1
    decreases |s|
  {
    match IndexOf(s, sep, 0)
    case None => [s]
    case Some(j) => [s[..j]] + Split(s[j + |sep|..], sep)
  }

  lemma Rejoin(s: string, a: nat, b: nat)
    requires a <= b <= |s|
    ensures s == s[..a] + s[a..b] + s[b..]
  {
    assert s[..a] + s[a..b] == s[..b];
  }

  /** No piece of a split contains the separator. */
  lemma {:induction false} SplitPiecesFree(s: string, sep: string)
    requires sep != []
    ensures forall i, k :: 0 <= i < |Split(s, sep)| ==> !OccursAt(Split(s, sep)[i], sep, k)
    decreases |s|
  {
    match IndexOf(s, sep, 0)
    case None =>
    case Some(j) =>
      var head := s[..j];
      forall k | OccursAt(head, sep, k) ensures false {
        assert s[k..k + |sep|] == head[k..k + |sep|];
        assert OccursAt(s, sep, k);
      }
      SplitPiecesFree(s[j + |sep|..], sep);
      assert Split(s, sep) == [head] + Split(s[j + |sep|..], sep);
  }

  /** `parts.join(sep)`. */
  function Join(parts: seq<string>, sep: string): string {
    if parts == [] then ""
    else if |parts| == 1 then parts[0]
    else parts[0] + sep + Join(parts[1..], sep)
  }

  /** Splitting loses nothing: joining the pieces with the separator rebuilds the text. */
  lemma {:induction false} JoinSplit(s: string, sep: string)
    requires sep != []
    ensures Join(Split(s, sep), sep) == s
    decreases |s|
  {
    match IndexOf(s, sep, 0)
    case None =>
    case Some(j) =>
      var rest := s[j + |sep|..];
      var parts := Split(s, sep);
      assert parts == [s[..j]] + Split(rest, sep);
      assert parts[1..] == Split(rest, sep);
      JoinSplit(rest, sep);
      assert Join(parts, sep) == s[..j] + sep + rest;
      assert OccursAt(s, sep, j);
      Rejoin(s, j, j + |sep|);
  }

  /** Searching a suffix from 0 is searching the whole text from where the suffix starts. */
  lemma {:induction false} IndexOfSuffix(s: string, sep: string, a: nat, k: nat)
    requires a <= |s|
    ensures IndexOf(s[a..], sep, k) == match IndexOf(s, sep, a + k)
                                       case None => None
                                       case Some(j) => Some(j - a)
    decreases |s| - a - k
  {
    if a + k + |sep| <= |s| {
      assert s[a..][k..k + |sep|] == s[a + k..a + k + |sep|];
      if s[a + k..a + k + |sep|] != sep {
        IndexOfSuffix(s, sep, a, k + 1);
      }
    }
  }

  /** Where the piece that starts at `start` ends: the next occurrence of `sep`, or the end of `s`. */
  function PieceEnd(s: string, sep: string, start: nat): nat {
    match IndexOf(s, sep, start)
    case None => |s|
    case Some(j) => j
  }

  /** The first piece of a split is the text before the first occurrence, or all of it. */
  lemma FirstPiece(s: string, sep: string)
    requires sep != []
    ensures PieceEnd(s, sep, 0) <= |s| && Split(s, sep)[0] == s[..PieceEnd(s, sep, 0)]
  {
  }

  lemma SplitHasSecond(s: string, sep: string)
    requires sep != []
    ensures IndexOf(s, sep, 0).None? <==> |Split(s, sep)| == 1
  {
  }

  lemma SecondIsFirstOfRest(s: string, sep: string, i: nat)
    requires sep != [] && IndexOf(s, sep, 0) == Some(i)
    ensures |Split(s, sep)| >= 2 && Split(s, sep)[1] == Split(s[i + |sep|..], sep)[0]
  {
  }

  lemma PieceEndOfSuffix(s: string, sep: string, start: nat)
    requires start <= |s|
    ensures start <= PieceEnd(s, sep, start) <= |s|
    ensures PieceEnd(s[start..], sep, 0) == PieceEnd(s, sep, start) - start
  {
    IndexOfSuffix(s, sep, start, 0);
  }

  /**
   * `s.split(sep)[1]`: defined exactly when `sep` occurs, and then the text
   * between its first occurrence and the next one (or the end of `s`).
   */
  lemma SecondPiece(s: string, sep: string)
    requires sep != []
    ensures IndexOf(s, sep, 0).None? <==> |Split(s, sep)| == 1
    ensures IndexOf(s, sep, 0).Some? ==>
              var start := IndexOf(s, sep, 0).value + |sep|;
              start <= PieceEnd(s, sep, start) <= |s|
              && Split(s, sep)[1] == s[start..PieceEnd(s, sep, start)]
  {
    SplitHasSecond(s, sep);
    if IndexOf(s, sep, 0).Some? {
      var i := IndexOf(s, sep, 0).value;
      var start := i + |sep|;
      var rest := s[start..];
      SecondIsFirstOfRest(s, sep, i);
      FirstPiece(rest, sep);
      PieceEndOfSuffix(s, sep, start);
      var e := PieceEnd(s, sep, start);
      assert rest[..e - start] == s[start..e];
    }
  }
}
