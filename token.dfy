/**
 * Path-data tokens of a line or staircase series. The renderer writes each
 * path command as a letter followed by "x,y" (for example "M10,20"); the
 * lookup drops the letter, splits the rest at commas and reads the fields
 * with JavaScript's parseInt.
 */
module PathToken {
  import opened Wrappers

  predicate IsDigit(c: char) { '0' <= c <= '9' }

  predicate AllDigits(s: string) { forall i :: 0 <= i < |s| ==> IsDigit(s[i]) }

  function DigitValue(c: char): nat
    requires IsDigit(c)
  {
    (c as int) - ('0' as int)
  }

  function DigitChar(d: nat): (c: char)
    requires d < 10
    ensures IsDigit(c) && DigitValue(c) == d
  {
    (('0' as int) + d) as char
  }

  /** The longest run of decimal digits at the start of `s`. */
  function DigitPrefix(s: string): (p: string)
    ensures p <= s && AllDigits(p)
    ensures |p| < |s| ==> !IsDigit(s[|p|])
  {
    if |s| == 0 || !IsDigit(s[0]) then [] else [s[0]] + DigitPrefix(s[1..])
  }

  /** The number written by a run of decimal digits, most significant first. */
  function DecimalValue(ds: string): nat
    requires AllDigits(ds)
  {
    if |ds| == 0 then 0 else DecimalValue(ds[..|ds| - 1]) * 10 + DigitValue(ds[|ds| - 1])
  }

  /**
   * parseInt(s) with radix 10 on text without leading white space: an
   * optional sign, then the longest run of digits; anything after the digits
   * is ignored. None stands for NaN, which every comparison rejects.
   */
  function ParseInt(s: string): (r: Option<int>)
    ensures r.None? <==> !StartsWithNumber(s)
    ensures r.Some? && s[0] == '-' ==> r.value <= 0
    ensures r.Some? && s[0] != '-' ==> r.value >= 0
  {
    var negative := |s| > 0 && s[0] == '-';
    var unsigned := if |s| > 0 && (s[0] == '-' || s[0] == '+') then s[1..] else s;
    var ds := DigitPrefix(unsigned);
    if |ds| == 0 then None
    else
      var magnitude: int := DecimalValue(ds);
      Some(if negative then -magnitude else magnitude)
  }

  /** `s` begins with a digit, or with a sign followed by a digit. */
  predicate StartsWithNumber(s: string)
  {
    (|s| > 0 && IsDigit(s[0])) || (|s| > 1 && (s[0] == '-' || s[0] == '+') && IsDigit(s[1]))
  }

  /** Index of the first ',' in `s`, or |s| when there is none. */
  function CommaIndex(s: string): (k: nat)
    ensures k <= |s|
    ensures k < |s| ==> s[k] == ','
    ensures forall j :: 0 <= j < k ==> s[j] != ','
  {
    if |s| == 0 || s[0] == ',' then 0 else 1 + CommaIndex(s[1..])
  }

  /** The first two fields of `s.split(',')`; the second is undefined when `s` has no comma. */
  function SplitFields(s: string): (string, Option<string>)
  {
    var k := CommaIndex(s);
    if k == |s| then (s, None)
    else
      var rest := s[k + 1..];
      (s[..k], Some(rest[..CommaIndex(rest)]))
  }

  datatype Coord = Coord(x: int, y: int)

  /**
   * The point a path token stands for: `token.substr(1).split(',')`, both
   * fields read as integers. None when the token carries no number.
   */
  function ParseToken(token: string): (r: Option<Coord>)
    ensures r.Some? ==> |token| > 1 && CommaIndex(token[1..]) < |token| - 1
                        && ParseInt(token[1..1 + CommaIndex(token[1..])]) == Some(r.value.x)
    ensures r.Some? <==> |token| > 0 && SplitFields(token[1..]).1.Some?
                         && ParseInt(SplitFields(token[1..]).0).Some?
                         && ParseInt(SplitFields(token[1..]).1.value).Some?
    ensures r.Some? ==> ParseInt(SplitFields(token[1..]).1.value) == Some(r.value.y)
  {
    if |token| == 0 then None
    else
      var (xs, ys) := SplitFields(token[1..]);
      assert ys.Some? ==> token[1..1 + CommaIndex(token[1..])] == xs;
      match (ParseInt(xs), ys)
      case (Some(x), Some(yt)) =>
        (match ParseInt(yt)
         case Some(y) => Some(Coord(x, y))
         case None => None)
      case _ => None
  }

  /** Decimal text of a natural number, without leading zeros. */
  function NatToDecimal(n: nat): (s: string)
    ensures |s| > 0 && AllDigits(s)
  {
    if n < 10 then [DigitChar(n)] else NatToDecimal(n / 10) + [DigitChar(n % 10)]
  }

  function IntToDecimal(i: int): string
  {
    if i < 0 then "-" + NatToDecimal(-i) else NatToDecimal(i)
  }

  /** The token the renderer writes for command letter `command` at point `c`. */
  function FormatToken(command: char, c: Coord): string
  {
    [command] + IntToDecimal(c.x) + "," + IntToDecimal(c.y)
  }

  lemma {:induction false} DecimalRoundTrip(n: nat)
    ensures DecimalValue(NatToDecimal(n)) == n
  {
    if n >= 10 {
      var s := NatToDecimal(n);
      assert s[..|s| - 1] == NatToDecimal(n / 10);
      DecimalRoundTrip(n / 10);
    }
  }

  lemma {:induction false} DigitPrefixOfDigits(ds: string, rest: string)
    requires AllDigits(ds)
    requires |rest| == 0 || !IsDigit(rest[0])
    ensures DigitPrefix(ds + rest) == ds
  {
    if |ds| > 0 {
      assert (ds + rest)[1..] == ds[1..] + rest;
      DigitPrefixOfDigits(ds[1..], rest);
    }
  }

  /** parseInt reads a run of digits, with or without a leading minus sign. */
  lemma ParseDigits(ds: string, rest: string)
    requires |ds| > 0 && AllDigits(ds)
    requires |rest| == 0 || !IsDigit(rest[0])
    ensures ParseInt(ds + rest) == Some(DecimalValue(ds))
    ensures ParseInt("-" + (ds + rest)) == Some(-(DecimalValue(ds) as int))
  {
    DigitPrefixOfDigits(ds, rest);
    var t := ds + rest;
    assert t[0] == ds[0] && IsDigit(t[0]);
    ParseSigned(t, ds);
  }

  lemma ParseSigned(t: string, ds: string)
    requires |t| > 0 && IsDigit(t[0]) && DigitPrefix(t) == ds
    ensures ParseInt(t) == Some(DecimalValue(ds))
    ensures ParseInt("-" + t) == Some(-(DecimalValue(ds) as int))
  {
    assert ("-" + t)[1..] == t;
  }

  /** parseInt reads back the integer that IntToDecimal wrote, whatever non-digit text follows it. */
  lemma ParseIntRoundTrip(i: int, rest: string)
    requires |rest| == 0 || !IsDigit(rest[0])
    ensures ParseInt(IntToDecimal(i) + rest) == Some(i)
  {
    if i < 0 {
      var ds := NatToDecimal(-i);
      assert IntToDecimal(i) + rest == "-" + (ds + rest);
      ParseDigits(ds, rest);
      DecimalRoundTrip(-i);
    } else {
      ParseDigits(NatToDecimal(i), rest);
      DecimalRoundTrip(i);
    }
  }

  lemma {:induction false} CommaIndexAfterNumber(a: string, b: string)
    requires forall j :: 0 <= j < |a| ==> a[j] != ','
    ensures CommaIndex(a + "," + b) == |a|
  {
    if |a| > 0 {
      assert (a + "," + b)[1..] == a[1..] + "," + b;
      CommaIndexAfterNumber(a[1..], b);
    }
  }

  lemma NoCommaInDecimal(i: int)
    ensures forall j :: 0 <= j < |IntToDecimal(i)| ==> IntToDecimal(i)[j] != ','
  {
  }

  /** Reading a token back yields the point it was written for. */
  lemma TokenRoundTrip(command: char, c: Coord)
    ensures ParseToken(FormatToken(command, c)) == Some(c)
  {
    var xs, ys := IntToDecimal(c.x), IntToDecimal(c.y);
    var body := FormatToken(command, c)[1..];
    assert body == xs + "," + ys;
    NoCommaInDecimal(c.x);
    NoCommaInDecimal(c.y);
    CommaIndexAfterNumber(xs, ys);
    var rest := body[|xs| + 1..];
    assert rest == ys;
    assert CommaIndex(ys) == |ys|;
    assert body[..|xs|] == xs;
    assert rest[..|ys|] == ys;
    assert SplitFields(body) == (xs, Some(ys));
    ParseIntRoundTrip(c.x, "");
    ParseIntRoundTrip(c.y, "");
    assert xs + "" == xs && ys + "" == ys;
  }
}
