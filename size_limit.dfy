/**
  * The request-size gate: `parseSize` turns a size string such as `5mb` or `1.5 KB` into a
  * number of bytes, and `validateRequestSize` answers 413 when the declared content length
  * is greater than that limit.
  */
module SizeLimit {
  import opened Common
  import opened JsText
  import opened Http

  datatype Unit = B | KB | MB | GB

  function Multiplier(u: Unit): (m: nat)
    ensures m >= 1
  {
    match u
    case B => 1
    case KB => 1024
    case MB => 1024 * 1024
    case GB => 1024 * 1024 * 1024
  }

  /** The unit word as it appears (lower case) in a size string. */
  function UnitName(u: Unit): (w: string)
    ensures 1 <= |w| <= 2 && !IsDigit(w[0]) && !IsSpace(w[0]) && w[0] != '.'
  {
    match u
    case B => "b"
    case KB => "kb"
    case MB => "mb"
    case GB => "gb"
  }

  function UnitOf(w: string): (u: Option<Unit>)
    ensures u.Some? ==> UnitName(u.value) == w
  {
    if w == "b" then Some(B)
    else if w == "kb" then Some(KB)
    else if w == "mb" then Some(MB)
    else if w == "gb" then Some(GB)
    else None
  }

  /** What the pattern `^(\d+(?:\.\d+)?)\s*(b|kb|mb|gb)$` captures: the whole digits, the
      fraction digits (empty when there is no fraction part), the white space between the
      number and the unit, and the unit. */
  datatype SizeText = SizeText(whole: string, frac: string, gap: string, unit: Unit)

  predicate WellFormed(p: SizeText)
  {
    p.whole != [] && AllDigits(p.whole) && AllDigits(p.frac) && AllSpaces(p.gap)
  }

  /** The (lower-case) string the captured parts come from. */
  function Render(p: SizeText): string
  {
    p.whole + (if p.frac == [] then "" else "." + p.frac) + p.gap + UnitName(p.unit)
  }

  /** Matching the size pattern against an already lower-cased string; a match captured
      well-formed parts that spell out the whole string. */
  function MatchSize(t: string): (r: Option<SizeText>)
    ensures r.Some? ==> WellFormed(r.value) && Render(r.value) == t
  {
    var whole := LeadingDigits(t);
    var rest := t[|whole|..];
    assert t == whole + rest;
    if whole == [] then None
    else if |rest| > 0 && rest[0] == '.' then
      assert rest == "." + rest[1..];
      MatchFraction(whole, rest[1..], t)
    else
      MatchNumber(whole, [], rest, t)
  }

  /** The rest of the match once the whole digits and the point have been read: at least one
      fraction digit, then the unit. */
  function MatchFraction(whole: string, afterPoint: string, t: string): (r: Option<SizeText>)
    requires whole != [] && AllDigits(whole) && t == whole + ("." + afterPoint)
    ensures r.Some? ==> WellFormed(r.value) && Render(r.value) == t
  {
    var frac := LeadingDigits(afterPoint);
    var tail := afterPoint[|frac|..];
    assert afterPoint == frac + tail;
    if frac == [] then None
    else MatchNumber(whole, frac, tail, t)
  }

  /** The rest of the match once the number has been read. */
  function MatchNumber(whole: string, frac: string, tail: string, t: string): (r: Option<SizeText>)
    requires whole != [] && AllDigits(whole) && AllDigits(frac)
    requires t == whole + (if frac == [] then "" else "." + frac) + tail
    ensures r.Some? ==> WellFormed(r.value) && Render(r.value) == t
  {
    match MatchUnit(tail)
    case None => None
    case Some((gap, u)) => Some(SizeText(whole, frac, gap, u))
  }

  /** White space, then exactly one unit word. */
  function MatchUnit(tail: string): (r: Option<(string, Unit)>)
    ensures r.Some? ==> AllSpaces(r.value.0) && r.value.0 + UnitName(r.value.1) == tail
  {
    var gap := LeadingSpaces(tail);
    assert tail == gap + tail[|gap|..];
    match UnitOf(tail[|gap|..])
    case None => None
    case Some(u) => Some((gap, u))
  }

  lemma MatchUnitComplete(gap: string, u: Unit)
    requires AllSpaces(gap)
    ensures MatchUnit(gap + UnitName(u)) == Some((gap, u))
  {
    var name := UnitName(u);
    LeadingSpacesOfSpaces(gap, name);
    assert (gap + name)[|gap|..] == name;
    match u
    case B =>
    case KB =>
    case MB =>
    case GB =>
  }

  /** Every well-formed size string is matched, and the match gives its parts back. */
  lemma MatchSizeComplete(p: SizeText)
    requires WellFormed(p)
    ensures MatchSize(Render(p)) == Some(p)
  {
    var t := Render(p);
    var tail := p.gap + UnitName(p.unit);
    var number := p.whole + (if p.frac == [] then "" else "." + p.frac);
    assert t == number + tail;
    MatchUnitComplete(p.gap, p.unit);
    assert MatchNumber(p.whole, p.frac, tail, t) == Some(p);
    if p.frac == [] {
      assert t == p.whole + tail;
      WholeNumberMatch(p.whole, tail, t);
    } else {
      FractionMatch(p.whole, p.frac, tail, t);
    }
  }

  /** What follows the number starts with white space or a unit letter. */
  lemma UnitTailStart(tail: string)
    requires MatchUnit(tail).Some?
    ensures tail != [] && !IsDigit(tail[0]) && tail[0] != '.'
  {
    var gap := MatchUnit(tail).value.0;
    var name := UnitName(MatchUnit(tail).value.1);
    assert tail == gap + name;
    if gap != [] {
      assert tail[0] == gap[0];
    } else {
      assert tail[0] == name[0];
    }
  }

  /** The number's digits are read up to the first character that is not a digit. */
  lemma NumberPrefix(whole: string, rest: string, t: string)
    requires AllDigits(whole) && t == whole + rest
    requires rest == [] || !IsDigit(rest[0])
    ensures LeadingDigits(t) == whole && t[|whole|..] == rest
  {
    LeadingDigitsOfDigits(whole, rest);
  }

  lemma WholeNumberMatch(whole: string, tail: string, t: string)
    requires whole != [] && AllDigits(whole) && t == whole + tail
    requires MatchUnit(tail).Some?
    ensures MatchSize(t) == MatchNumber(whole, [], tail, t)
  {
    UnitTailStart(tail);
    NumberPrefix(whole, tail, t);
  }

  lemma FractionMatch(whole: string, frac: string, tail: string, t: string)
    requires whole != [] && AllDigits(whole) && frac != [] && AllDigits(frac)
    requires t == whole + ("." + frac) + tail
    requires MatchUnit(tail).Some?
    ensures MatchSize(t) == MatchNumber(whole, frac, tail, t)
  {
    UnitTailStart(tail);
    PointMatch(whole, frac + tail, t);
    FractionDigitsMatch(whole, frac, tail, t);
  }

  /** After the whole digits comes the point, so the fraction matcher takes over. */
  lemma PointMatch(whole: string, afterPoint: string, t: string)
    requires whole != [] && AllDigits(whole) && t == whole + ("." + afterPoint)
    ensures MatchSize(t) == MatchFraction(whole, afterPoint, t)
  {
    var rest := "." + afterPoint;
    NumberPrefix(whole, rest, t);
    assert rest[1..] == afterPoint;
  }

  /** The fraction digits are read up to the unit. */
  lemma FractionDigitsMatch(whole: string, frac: string, tail: string, t: string)
    requires whole != [] && AllDigits(whole) && frac != [] && AllDigits(frac)
    requires t == whole + ("." + (frac + tail))
    requires tail == [] || !IsDigit(tail[0])
    ensures MatchFraction(whole, frac + tail, t) == MatchNumber(whole, frac, tail, t)
  {
    LeadingDigitsOfDigits(frac, tail);
    assert (frac + tail)[|frac|..] == tail;
  }

  function Pow10(k: nat): (r: nat)
    ensures r >= 1
  {
    if k == 0 then 1 else 10 * Pow10(k - 1)
  }

  /** The value of `whole.frac` times the unit's multiplier, scaled up by `10^|frac|` so that
      it is a whole number. */
  function ScaledValue(p: SizeText): nat
    requires WellFormed(p)
  {
    AllDigitsConcat(p.whole, p.frac);
    DigitsValue(p.whole + p.frac) * Multiplier(p.unit)
  }

  /** `Math.floor(x / d)` for non-negative `x` and positive `d`. */
  function FloorDiv(x: nat, d: nat): (q: nat)
    requires d >= 1
    ensures q * d <= x < (q + 1) * d
  {
    x / d
  }

  /** `Math.floor(parseFloat(value) * units[unit])`, in exact decimal arithmetic: the number
      written as `whole.frac` is `(whole frac) / 10^|frac|`. */
  function Amount(p: SizeText): (n: nat)
    requires WellFormed(p)
    ensures n * Pow10(|p.frac|) <= ScaledValue(p) < (n + 1) * Pow10(|p.frac|)
  {
    FloorDiv(ScaledValue(p), Pow10(|p.frac|))
  }

  lemma AllDigitsConcat(a: string, b: string)
    requires AllDigits(a) && AllDigits(b)
    ensures AllDigits(a + b)
  {
    forall i | 0 <= i < |a + b|
      ensures IsDigit((a + b)[i])
    {
      if i >= |a| {
        assert (a + b)[i] == b[i - |a|];
      }
    }
  }

  /** The 5 MiB used when the size string is not understood. */
  const DefaultLimit: nat := 5 * 1024 * 1024

  /** `parseSize(sizeStr)`: the string is lower-cased and matched; a string that does not
      match gives 5 MiB. */
  function ParseSize(s: string): (n: nat)
    ensures MatchSize(ToLower(s)).None? ==> n == DefaultLimit
  {
    match MatchSize(ToLower(s))
    case None => DefaultLimit
    case Some(p) => Amount(p)
  }

  /** A whole number of units is that number times the unit's multiplier. */
  lemma WholeAmount(p: SizeText)
    requires WellFormed(p) && p.frac == []
    ensures Amount(p) == DigitsValue(p.whole) * Multiplier(p.unit)
  {
    assert p.whole + p.frac == p.whole;
  }

  /** Lower-casing twice is lower-casing once. */
  lemma ToLowerIdempotent(s: string)
    ensures ToLower(ToLower(s)) == ToLower(s)
  {
  }

  /** The size parser ignores letter case. */
  lemma ParseSizeIgnoresCase(s: string)
    ensures ParseSize(ToLower(s)) == ParseSize(s)
  {
    ToLowerIdempotent(s);
  }

  /** Every well-formed lower-case size string parses to its exact amount, rounded down. */
  lemma ParseSizeOfRendered(p: SizeText)
    requires WellFormed(p)
    ensures ParseSize(Render(p)) == Amount(p)
  {
    var t := Render(p);
    assert ToLower(t) == t by {
      assert forall i :: 0 <= i < |t| ==> ToLowerChar(t[i]) == t[i] by {
        forall i | 0 <= i < |t|
          ensures ToLowerChar(t[i]) == t[i]
        {
          RenderedLowerChar(p, i);
        }
      }
    }
    MatchSizeComplete(p);
  }

  lemma RenderedLowerChar(p: SizeText, i: int)
    requires WellFormed(p) && 0 <= i < |Render(p)|
    ensures ToLowerChar(Render(p)[i]) == Render(p)[i]
  {
    var dot := if p.frac == [] then "" else "." + p.frac;
    var t := Render(p);
    var c := t[i];
    if i < |p.whole| {
      assert c == p.whole[i];
    } else if i < |p.whole| + |dot| {
      assert c == dot[i - |p.whole|];
      assert c == '.' || c == p.frac[i - |p.whole| - 1];
    } else if i < |p.whole| + |dot| + |p.gap| {
      assert c == p.gap[i - |p.whole| - |dot|];
    } else {
      assert c == UnitName(p.unit)[i - |p.whole| - |dot| - |p.gap|];
    }
  }

  /** `5mb` is 5242880 bytes, the limit the gateway installs. */
  lemma FiveMegabytes(text: string)
    requires text == "5mb"
    ensures ParseSize(text) == 5242880
  {
    var p := SizeText("5", "", "", MB);
    assert Render(p) == text;
    assert ParseSize(Render(p)) == Amount(p) by { ParseSizeOfRendered(p); }
    assert Amount(p) == 5242880 by { WholeAmount(p); }
  }

  /** `1.5kb` is 1536 bytes: the fraction counts. */
  lemma OneAndAHalfKilobytes(text: string)
    requires text == "1.5kb"
    ensures ParseSize(text) == 1536
  {
    var p := SizeText("1", "5", "", KB);
    assert Render(p) == text;
    assert ParseSize(Render(p)) == Amount(p) by { ParseSizeOfRendered(p); }
    OneAndAHalfAmount(p);
  }

  lemma OneAndAHalfAmount(p: SizeText)
    requires p == SizeText("1", "5", "", KB)
    ensures Amount(p) == 1536
  {
    var digits := p.whole + p.frac;
    assert digits == NatToString(15);
    assert DigitsValue(digits) == 15;
    assert Pow10(|p.frac|) == 10;
  }

  /** `req.headers['content-length'] || '0'`: an absent or empty header counts as `0`. */
  function ContentLengthText(header: Option<string>): string
  {
    match header
    case Some(h) => if h == "" then "0" else h
    case None => "0"
  }

  /** `validateRequestSize(maxSize)`: `None` passes the request on; otherwise the 413 answer.
      A content length that does not parse (`NaN`) is never greater than the limit. */
  function ValidateRequestSize(header: Option<string>, maxSize: string): (r: Option<Response>)
    ensures r.Some? ==> r.value == Plain(413, "Payload Too Large", "Request body exceeds maximum size of " + maxSize)
  {
    match ParseInt(ContentLengthText(header))
    case Some(n) =>
      if n > ParseSize(maxSize) then
        Some(Plain(413, "Payload Too Large", "Request body exceeds maximum size of " + maxSize))
      else None
    case None => None
  }

  /** A declared length `n` is refused exactly when it is greater than the limit; a length
      equal to the limit passes. */
  lemma RejectsExactlyAboveLimit(n: int, header: string, maxSize: string)
    requires header == IntToString(n)
    ensures ValidateRequestSize(Some(header), maxSize).Some? <==> n > ParseSize(maxSize)
  {
    assert header != "";
    ParseIntOfPrinted(n, header);
  }

  /** A request without a length header, or with an empty one, is passed on. */
  lemma MissingLengthPasses(header: Option<string>, maxSize: string)
    requires header.None? || header == Some("")
    ensures ValidateRequestSize(header, maxSize).None?
  {
    var zero := ContentLengthText(header);
    assert zero == IntToString(0);
    ParseIntOfPrinted(0, zero);
  }

  /** A header with no leading number (`NaN`) is passed on whatever the limit. */
  lemma UnparsableLengthPasses(header: string, maxSize: string)
    requires header != "" && ParseInt(header).None?
    ensures ValidateRequestSize(Some(header), maxSize).None?
  {
  }
}
