/**
 * Decimal rendering of integers as Go's `%d` verb produces it, and the cache
 * file name `"{year}_{day}.txt"` built from it (input.go, line 34).
 *
 * The name is the persisted layout of the cache, so besides the format itself
 * the module proves that it can be read back: `ParseCacheKey` inverts
 * `CacheKey`, hence two different puzzles never share a cache file.
 */
module Decimal {
  import opened Wrappers

  predicate IsDigit(c: char) { '0' <= c <= '9' }

  predicate AllDigits(s: string) { forall k :: 0 <= k < |s| ==> IsDigit(s[k]) }

  function DigitChar(d: nat): (c: char)
    requires d < 10
    ensures IsDigit(c) && (c as int) - ('0' as int) == d
  {
    (('0' as int) + d) as char
  }

  function DigitValue(c: char): (d: nat)
    requires IsDigit(c)
    ensures d < 10 && DigitChar(d) == c
  {
    (c as int) - ('0' as int)
  }

  /** The digits of `n`, most significant first, without leading zeros. */
  function NatToDecimal(n: nat): (s: string)
    ensures |s| >= 1 && AllDigits(s)
    ensures s[0] == '0' ==> n == 0 && s == "0"
    decreases n
  {
    if n < 10 then [DigitChar(n)] else NatToDecimal(n / 10) + [DigitChar(n % 10)]
  }

  /** The value of a string of decimal digits, most significant first. */
  function DecimalValue(s: string): (n: nat)
    requires AllDigits(s)
    decreases |s|
  {
    if s == [] then 0 else 10 * DecimalValue(s[..|s| - 1]) + DigitValue(s[|s| - 1])
  }

  /** `fmt.Sprintf("%d", i)`: a minus sign for negative values, then the digits. */
  function IntToDecimal(i: int): (s: string)
    ensures |s| >= 1 && (s[0] == '-' <==> i < 0)
    ensures forall k :: 0 <= k < |s| ==> IsDigit(s[k]) || (k == 0 && s[k] == '-')
    ensures i < 0 ==> |s| >= 2
    ensures s[if i < 0 then 1 else 0] == '0' ==> i == 0 && s == "0"
  {
    if i < 0 then "-" + NatToDecimal(-i) else NatToDecimal(i)
  }

  /** Reads back what `IntToDecimal` writes: an optional minus sign and at least one digit. */
  function ParseDecimal(s: string): (r: Option<int>)
    ensures r.Some? ==> |s| >= 1
  {
    if |s| >= 2 && s[0] == '-' && AllDigits(s[1..]) then Some(-(DecimalValue(s[1..]) as int))
    else if |s| >= 1 && AllDigits(s) then Some(DecimalValue(s))
    else None
  }

  lemma {:induction false} NatRoundTrip(n: nat)
    ensures DecimalValue(NatToDecimal(n)) == n
    decreases n
  {
    if n >= 10 {
      var s := NatToDecimal(n);
      assert s[..|s| - 1] == NatToDecimal(n / 10);
      NatRoundTrip(n / 10);
    }
  }

  /** Every integer's `%d` rendering reads back as that integer. */
  lemma IntRoundTrip(i: int)
    ensures ParseDecimal(IntToDecimal(i)) == Some(i)
  {
    var s := IntToDecimal(i);
    if i < 0 {
      assert s[1..] == NatToDecimal(-i);
      NatRoundTrip(-i);
    } else {
      NatRoundTrip(i);
    }
  }

  /** The name of the cache file for one puzzle: `"{year}_{day}.txt"`. */
  function CacheKey(year: int, day: int): (k: string)
    ensures |k| >= 7 && k[|k| - 4..] == ".txt"
    ensures |IntToDecimal(year)| < |k| && k[|IntToDecimal(year)|] == '_'
    ensures k[..|IntToDecimal(year)|] == IntToDecimal(year)
    ensures k[|IntToDecimal(year)| + 1..|k| - 4] == IntToDecimal(day)
  {
    IntToDecimal(year) + "_" + IntToDecimal(day) + ".txt"
  }

  /** The index of the first occurrence of `c` in `s`, if any. */
  function FirstIndex(s: string, c: char): (r: Option<nat>)
    ensures r.Some? ==> r.value < |s| && s[r.value] == c
    ensures r.Some? ==> forall k :: 0 <= k < r.value ==> s[k] != c
    ensures r.None? ==> forall k :: 0 <= k < |s| ==> s[k] != c
    decreases |s|
  {
    if s == [] then None
    else if s[0] == c then Some(0)
    else match FirstIndex(s[1..], c)
      case None => None
      case Some(i) => Some(i + 1)
  }

  /** Recovers (year, day) from a cache file name; `None` for names of any other shape. */
  function ParseCacheKey(k: string): (r: Option<(int, int)>)
  {
    if |k| < 4 || k[|k| - 4..] != ".txt" then None
    else
      var body := k[..|k| - 4];
      match FirstIndex(body, '_')
      case None => None
      case Some(u) =>
        match (ParseDecimal(body[..u]), ParseDecimal(body[u + 1..]))
        case (Some(y), Some(d)) => Some((y, d))
        case _ => None
  }

  /** The cache file name determines the puzzle it was made for. */
  lemma CacheKeyRoundTrip(year: int, day: int)
    ensures ParseCacheKey(CacheKey(year, day)) == Some((year, day))
  {
    var y, d := IntToDecimal(year), IntToDecimal(day);
    var k := CacheKey(year, day);
    var body := k[..|k| - 4];
    assert body == y + "_" + d;
    assert FirstIndex(body, '_') == Some(|y|) by {
      assert body[|y|] == '_';
      assert forall j :: 0 <= j < |y| ==> body[j] == y[j];
    }
    assert body[..|y|] == y;
    assert body[|y| + 1..] == d;
    IntRoundTrip(year);
    IntRoundTrip(day);
  }

  /** Two different puzzles never share a cache file. */
  lemma CacheKeyInjective(y1: int, d1: int, y2: int, d2: int)
    ensures CacheKey(y1, d1) == CacheKey(y2, d2) <==> y1 == y2 && d1 == d2
  {
    CacheKeyRoundTrip(y1, d1);
    CacheKeyRoundTrip(y2, d2);
  }
}
