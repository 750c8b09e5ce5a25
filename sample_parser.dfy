/**
 * Reading one sensor line on the Python host: `map(float, line.split(','))`
 * unpacked into `yaw, pitch, roll`. Any other number of fields, or a field
 * `float()` rejects, raises ValueError, which the callers swallow.
 */
module SampleParser {
  import opened Wrappers

  const Separator: char := ','

  // ---------------------------------------------------------------------------
  // str.split(',') and its inverse, ','.join

  /** The fields of `s` between separators, like Python's `s.split(',')`. */
  function Split(s: string): (fields: seq<string>)
    ensures |fields| >= 1
    ensures forall i :: 0 <= i < |fields| ==> Separator !in fields[i]
    ensures Join(fields) == s
  {
    if s == [] then [[]]
    else
      var rest := Split(s[1..]);
      if s[0] == Separator then
        assert Join([[]] + rest) == [Separator] + Join(rest) by {
          assert ([[]] + rest)[1..] == rest;
        }
        [[]] + rest
      else
        var fields := [[s[0]] + rest[0]] + rest[1..];
        assert Join(fields) == [s[0]] + Join(rest) by {
          if |rest| > 1 {
            assert fields[1..] == rest[1..];
          }
        }
        fields
  }

  /** The fields joined with separators, like Python's `','.join(fields)`. */
  function Join(fields: seq<string>): string
  {
    if fields == [] then []
    else if |fields| == 1 then fields[0]
    else fields[0] + [Separator] + Join(fields[1..])
  }

  /** Splitting a join of separator-free fields gives the fields back. */
  lemma {:induction false} SplitJoin(fields: seq<string>)
    requires |fields| >= 1
    requires forall i :: 0 <= i < |fields| ==> Separator !in fields[i]
    ensures Split(Join(fields)) == fields
  {
    if |fields| == 1 {
      SplitFree(fields[0]);
    } else {
      SplitJoin(fields[1..]);
      SplitPrefix(fields[0], Join(fields[1..]));
    }
  }

  /** A separator-free string is one field. */
  lemma {:induction false} SplitFree(s: string)
    requires Separator !in s
    ensures Split(s) == [s]
  {
    if s != [] {
      assert Separator !in s[1..];
      SplitFree(s[1..]);
    }
  }

  /** A separator-free head followed by a separator splits off as the first field. */
  lemma {:induction false} SplitPrefix(head: string, tail: string)
    requires Separator !in head
    ensures Split(head + [Separator] + tail) == [head] + Split(tail)
  {
    if head == [] {
      assert ([Separator] + tail)[1..] == tail;
    } else {
      var s := head + [Separator] + tail;
      assert s[1..] == head[1..] + [Separator] + tail;
      assert Separator !in head[1..];
      SplitPrefix(head[1..], tail);
      assert [head[0]] + head[1..] == head;
    }
  }

  // ---------------------------------------------------------------------------
  // float() on one field, for plain decimal notation with an optional exponent

  /** The ASCII characters Python treats as whitespace: tab to carriage return, 0x1C to 0x1F and space. */
  predicate IsSpace(c: char) {
    (9 as char <= c <= 13 as char) || (28 as char <= c <= 31 as char) || c == ' '
  }

  predicate IsDigit(c: char) {
    '0' <= c <= '9'
  }

  predicate AllDigits(s: string) {
    forall i :: 0 <= i < |s| ==> IsDigit(s[i])
  }

  function DigitValue(c: char): nat
    requires IsDigit(c)
  {
    (c as int) - ('0' as int)
  }

  /** The number a non-empty run of decimal digits denotes. */
  function DigitsValue(s: string): nat
    requires AllDigits(s)
  {
    if s == [] then 0 else DigitsValue(s[..|s| - 1]) * 10 + DigitValue(s[|s| - 1])
  }

  function Pow10(n: nat): (p: nat)
    ensures p >= 1
  {
    if n == 0 then 1 else 10 * Pow10(n - 1)
  }

  /** Length of the run of digits at the start of `s`. */
  function DigitRun(s: string): (n: nat)
    ensures n <= |s| && AllDigits(s[..n])
    ensures n < |s| ==> !IsDigit(s[n])
  {
    if |s| > 0 && IsDigit(s[0]) then
      var n := 1 + DigitRun(s[1..]);
      assert s[..n] == [s[0]] + s[1..][..n - 1];
      n
    else 0
  }

  function TrimLeft(s: string): string {
    if |s| > 0 && IsSpace(s[0]) then TrimLeft(s[1..]) else s
  }

  function TrimRight(s: string): string {
    if |s| > 0 && IsSpace(s[|s| - 1]) then TrimRight(s[..|s| - 1]) else s
  }

  /** Leading and trailing whitespace removed, as `float()` ignores it. */
  function Strip(s: string): string {
    TrimRight(TrimLeft(s))
  }

  /** An optional exponent part `e[+-]digits` applied to mantissa `m`. */
  function ApplyExponent(m: real, tail: string): Option<real>
  {
    if tail == [] then Some(m)
    else if tail[0] == 'e' || tail[0] == 'E' then
      var e := tail[1..];
      var negative := |e| > 0 && e[0] == '-';
      var ds := if |e| > 0 && (e[0] == '+' || e[0] == '-') then e[1..] else e;
      if |ds| > 0 && AllDigits(ds) then
        var scale := Pow10(DigitsValue(ds)) as real;
        Some(if negative then m / scale else m * scale)
      else None
    else None
  }

  /** An unsigned number: `digits`, `digits.`, `digits.digits` or `.digits`, then an optional exponent. */
  function ParseUnsigned(u: string): Option<real>
  {
    var i := DigitRun(u);
    var whole := DigitsValue(u[..i]) as real;
    var rest := u[i..];
    if |rest| > 0 && rest[0] == '.' then
      var after := rest[1..];
      var j := DigitRun(after);
      if i + j == 0 then None
      else ApplyExponent(whole + DigitsValue(after[..j]) as real / Pow10(j) as real, after[j..])
    else if i == 0 then None
    else ApplyExponent(whole, rest)
  }

  /** `float(field)` for decimal notation; None where the model rejects the field. */
  function ParseNumber(field: string): Option<real>
  {
    var t := Strip(field);
    var negative := |t| > 0 && t[0] == '-';
    var u := if |t| > 0 && (t[0] == '+' || t[0] == '-') then t[1..] else t;
    match ParseUnsigned(u)
    case None => None
    case Some(v) => Some(if negative then -v else v)
  }

  // ---------------------------------------------------------------------------
  // A whole line

  /** One orientation sample in degrees, in the wire order yaw, pitch, roll. */
  datatype Sample = Sample(yaw: real, pitch: real, roll: real)

  /** `yaw, pitch, roll = map(float, line.split(','))`; None where that raises ValueError. */
  function ParseLine(line: string): Option<Sample>
  {
    var fields := Split(line);
    if |fields| != 3 then None
    else
      match (ParseNumber(fields[0]), ParseNumber(fields[1]), ParseNumber(fields[2]))
      case (Some(yaw), Some(pitch), Some(roll)) => Some(Sample(yaw, pitch, roll))
      case _ => None
  }

  /**
   * A line is accepted exactly when it has three fields that all read as
   * numbers, and the fields are read as yaw, pitch and roll in that order.
   */
  lemma ParseLineAccepts(line: string)
    ensures ParseLine(line).Some? <==>
      |Split(line)| == 3 && ParseNumber(Split(line)[0]).Some?
      && ParseNumber(Split(line)[1]).Some? && ParseNumber(Split(line)[2]).Some?
    ensures ParseLine(line).Some? ==> ParseLine(line).value == Sample(
      ParseNumber(Split(line)[0]).value, ParseNumber(Split(line)[1]).value, ParseNumber(Split(line)[2]).value)
  {
  }

  // ---------------------------------------------------------------------------
  // Decimal formatting of integers, the partner of ParseNumber

  function DigitChar(d: nat): (c: char)
    requires d < 10
    ensures IsDigit(c) && DigitValue(c) == d
  {
    ('0' as int + d) as char
  }

  /** The decimal digits of `n`, most significant first, without leading zeros. */
  function NatDigits(n: nat): (s: string)
    ensures |s| >= 1 && AllDigits(s)
  {
    if n < 10 then [DigitChar(n)] else NatDigits(n / 10) + [DigitChar(n % 10)]
  }

  /** Decimal notation of an integer, with a leading '-' when negative. */
  function FormatInt(n: int): string {
    if n < 0 then ['-'] + NatDigits(-n) else NatDigits(n)
  }

  lemma {:induction false} NatDigitsValue(n: nat)
    ensures DigitsValue(NatDigits(n)) == n
  {
    if n >= 10 {
      var s := NatDigits(n);
      assert s[..|s| - 1] == NatDigits(n / 10);
      NatDigitsValue(n / 10);
    }
  }

  lemma {:induction false} DigitRunAllDigits(s: string)
    requires AllDigits(s)
    ensures DigitRun(s) == |s|
  {
    if s != [] {
      DigitRunAllDigits(s[1..]);
    }
  }

  /** Reading back the digits of a natural number gives that number. */
  lemma ParseUnsignedDigits(n: nat)
    ensures ParseUnsigned(NatDigits(n)) == Some(n as real)
  {
    var s := NatDigits(n);
    DigitRunAllDigits(s);
    assert s[..|s|] == s;
    NatDigitsValue(n);
  }

  /** `float()` reads the decimal notation of any integer back as that integer. */
  lemma ParseFormatInt(n: int)
    ensures ParseNumber(FormatInt(n)) == Some(n as real)
  {
    var s := FormatInt(n);
    var m: nat := if n < 0 then -n else n;
    var digits := NatDigits(m);
    assert !IsSpace(s[0]) && !IsSpace(s[|s| - 1]);
    assert Strip(s) == s;
    if n < 0 {
      assert s[1..] == digits;
    }
    ParseUnsignedDigits(m);
  }

  /** Formatted integers hold no separator. */
  lemma FormatIntHasNoSeparator(n: int)
    ensures Separator !in FormatInt(n)
  {
    var m: nat := if n < 0 then -n else n;
    var digits := NatDigits(m);
    assert forall i :: 0 <= i < |digits| ==> digits[i] != Separator;
  }

  /**
   * Round trip of the wire format: the line `yaw,pitch,roll` written with
   * integers parses back to that sample, fields in that order.
   */
  lemma ParseFormattedLine(yaw: int, pitch: int, roll: int)
    ensures ParseLine(Join([FormatInt(yaw), FormatInt(pitch), FormatInt(roll)]))
      == Some(Sample(yaw as real, pitch as real, roll as real))
  {
    var fields := [FormatInt(yaw), FormatInt(pitch), FormatInt(roll)];
    FormatIntHasNoSeparator(yaw);
    FormatIntHasNoSeparator(pitch);
    FormatIntHasNoSeparator(roll);
    SplitJoin(fields);
    ParseFormatInt(yaw);
    ParseFormatInt(pitch);
    ParseFormatInt(roll);
  }

  /** A line with any field count but three is rejected. */
  lemma WrongFieldCountRejected(line: string)
    requires |Split(line)| != 3
    ensures ParseLine(line) == None
  {
  }

  /** A one-digit number with one zero decimal, such as "1.0", reads as that digit. */
  lemma ParseDigitPointZero(d: char)
    requires IsDigit(d)
    ensures ParseNumber([d, '.', '0']) == Some(DigitValue(d) as real)
  {
    var s := [d, '.', '0'];
    assert Strip(s) == s;
    assert DigitRun(s) == 1;
    assert s[1..][1..] == ['0'];
    assert DigitRun(['0']) == 1;
    assert s[..1] == [d];
    assert DigitsValue([d]) == DigitValue(d) by {
      assert [d][..0] == [];
    }
    assert DigitsValue(['0']) == 0 by {
      assert ['0'][..0] == [];
    }
  }

  /** "1.0,2.0,3.0" reads as yaw 1, pitch 2, roll 3. */
  lemma ParseLineExampleAccepted()
    ensures ParseLine("1.0,2.0,3.0") == Some(Sample(1.0, 2.0, 3.0))
  {
    assert "1.0,2.0,3.0" == Join(["1.0", "2.0", "3.0"]);
    SplitJoin(["1.0", "2.0", "3.0"]);
    ParseDigitPointZero('1');
    ParseDigitPointZero('2');
    ParseDigitPointZero('3');
  }

  /** "1.0,2.0" (two fields) and "a,b,c" (no numbers) are rejected. */
  lemma ParseLineExamplesRejected()
    ensures ParseLine("1.0,2.0") == None
    ensures ParseLine("a,b,c") == None
  {
    assert "1.0,2.0" == Join(["1.0", "2.0"]);
    SplitJoin(["1.0", "2.0"]);
    assert "a,b,c" == Join(["a", "b", "c"]);
    SplitJoin(["a", "b", "c"]);
    assert ParseNumber("a") == None by {
      assert Strip("a") == "a";
      assert DigitRun("a") == 0;
    }
  }
}
