/**
 * Format descriptors `SIZE:FRAMERATE:QUALITY` given with `-f`, and their
 * parsing (main.go `parseFormat`, and the loop in `main` that parses every
 * raw format before any file is touched).
 */
module Formats {
  import opened Wrappers
  import opened GoStrings
  import opened GoStrconv

  /**
   * A parsed descriptor (main.go `ParsedFormat`). Zero in `width`,
   * `frameRate` or `qualityFactor` means "not given".
   */
  datatype ParsedFormat = ParsedFormat(width: int, height: int, frameRate: real, qualityFactor: real)

  /** Go's zero value of `ParsedFormat`. */
  const Unset := ParsedFormat(0, 0, 0.0, 0.0)

  /** The one error `parseFormat` reports, whatever went wrong. */
  datatype FormatError = Malformed

  /** A SIZE field in the height-only form `Hp`. */
  predicate HeightOnly(size: string)
  {
    size != [] && size[|size| - 1] == 'p'
  }

  /**
   * The SIZE field as (width, height): `Hp` leaves the width 0, any other
   * text must be `WxH`, cut at its first `x`, with integer text on both sides.
   */
  function ParseSize(size: string): (r: Option<(int, int)>)
    ensures HeightOnly(size) ==> r == (match Atoi(size[..|size| - 1])
                                       case Some(h) => Some((0, h))
                                       case None => None)
    ensures !HeightOnly(size) ==>
      var (w, h, found) := Cut(size, 'x');
      && (r.Some? <==> found && Atoi(w).Some? && Atoi(h).Some?)
      && (r.Some? ==> r.value == (Atoi(w).value, Atoi(h).value))
    ensures !HeightOnly(size) && 'x' !in size ==> r.None?
  {
    if HeightOnly(size) then
      match Atoi(size[..|size| - 1])
      case Some(h) => Some((0, h))
      case None => None
    else
      CutSpec(size, 'x');
      var (w, h, found) := Cut(size, 'x');
      if !found then None
      else
        match (Atoi(w), Atoi(h))
        case (Some(width), Some(height)) => Some((width, height))
        case _ => None
  }

  /** FRAMERATE and QUALITY: empty text is 0 ("not given"), any other text must be a number. */
  function ParseOptionalReal(field: string): Option<real>
  {
    if field == "" then Some(0.0) else ParseFloat(field)
  }

  /**
   * `parseFormat`: split at `:` into exactly three fields, then parse SIZE,
   * FRAMERATE and QUALITY. Every failure is the same `Malformed` error.
   */
  function ParseFormat(v: string): (r: Result<ParsedFormat, FormatError>)
    ensures Count(v, ':') != 2 ==> r == Err(Malformed)
    ensures r.Ok? ==>
      var parts := Split(v, ':');
      && ParseSize(parts[0]) == Some((r.value.width, r.value.height))
      && ParseOptionalReal(parts[1]) == Some(r.value.frameRate)
      && ParseOptionalReal(parts[2]) == Some(r.value.qualityFactor)
  {
    var parts := Split(v, ':');
    if |parts| != 3 then Err(Malformed)
    else
      match (ParseSize(parts[0]), ParseOptionalReal(parts[1]), ParseOptionalReal(parts[2]))
      case (Some(size), Some(frameRate), Some(quality)) => Ok(ParsedFormat(size.0, size.1, frameRate, quality))
      case _ => Err(Malformed)
  }

  /** A SIZE ending in `p` sets the height only; if the rest is not an integer the whole parse fails. */
  lemma HeightOnlyFormat(v: string)
    requires Count(v, ':') == 2 && HeightOnly(Split(v, ':')[0])
    ensures var size := Split(v, ':')[0]; var h := Atoi(size[..|size| - 1]);
      && (h.None? ==> ParseFormat(v) == Err(Malformed))
      && (ParseFormat(v).Ok? ==> ParseFormat(v).value.width == 0 && h == Some(ParseFormat(v).value.height))
  {
  }

  /** Any other SIZE needs an `x` with integer text on both sides. */
  lemma WidthHeightFormat(v: string)
    requires Count(v, ':') == 2 && !HeightOnly(Split(v, ':')[0])
    ensures var size := Split(v, ':')[0];
      && ('x' !in size ==> ParseFormat(v) == Err(Malformed))
      && (ParseFormat(v).Ok? ==>
            var (w, h, _) := Cut(size, 'x');
            Atoi(w) == Some(ParseFormat(v).value.width) && Atoi(h) == Some(ParseFormat(v).value.height))
  {
  }

  /**
   * An empty FRAMERATE or QUALITY leaves that field 0; non-empty text that is
   * not a number fails the whole parse.
   */
  lemma OptionalFieldsFormat(v: string)
    requires Count(v, ':') == 2
    ensures var parts := Split(v, ':');
      && (ParseFormat(v).Ok? && parts[1] == "" ==> ParseFormat(v).value.frameRate == 0.0)
      && (ParseFormat(v).Ok? && parts[2] == "" ==> ParseFormat(v).value.qualityFactor == 0.0)
      && (parts[1] != "" && ParseFloat(parts[1]).None? ==> ParseFormat(v) == Err(Malformed))
      && (parts[2] != "" && ParseFloat(parts[2]).None? ==> ParseFormat(v) == Err(Malformed))
  {
  }

  /**
   * The SIZE prefix that `ParsedFormat.String` prints: `Hp` when the width
   * is 0, `WxH` otherwise (without the trailing `:`).
   */
  function SizeText(f: ParsedFormat): string
  {
    if f.width == 0 then Itoa(f.height) + "p" else Itoa(f.width) + "x" + Itoa(f.height)
  }

  /** The printed SIZE parses back to the same width and height. */
  lemma {:induction false} SizeTextRoundTrip(f: ParsedFormat)
    ensures ':' !in SizeText(f)
    ensures ParseSize(SizeText(f)) == Some((f.width, f.height))
  {
    ItoaHasNo(f.height, ':');
    ItoaRoundTrip(f.height);
    if f.width == 0 {
      assert (Itoa(f.height) + "p")[..|Itoa(f.height)|] == Itoa(f.height);
    } else {
      ItoaHasNo(f.width, ':');
      ItoaHasNo(f.width, 'x');
      ItoaRoundTrip(f.width);
      var t := Itoa(f.height);
      assert SizeText(f)[|SizeText(f)| - 1] == t[|t| - 1];
      CutAt(Itoa(f.width), 'x', t);
    }
  }

  /**
   * Round trip of a whole descriptor: a printed SIZE followed by two fields
   * that are empty or numbers parses to that size and those numbers.
   */
  lemma {:induction false} FormatRoundTrip(f: ParsedFormat, frameRate: string, quality: string)
    requires ':' !in frameRate && ':' !in quality
    requires ParseOptionalReal(frameRate).Some? && ParseOptionalReal(quality).Some?
    ensures ParseFormat(SizeText(f) + ":" + frameRate + ":" + quality)
         == Ok(ParsedFormat(f.width, f.height, ParseOptionalReal(frameRate).value, ParseOptionalReal(quality).value))
  {
    SizeTextRoundTrip(f);
    ParseFields(SizeText(f), frameRate, quality);
  }

  /** Three fields without `:` joined by `:` are parsed field by field. */
  lemma ParseFields(size: string, frameRate: string, quality: string)
    requires ':' !in size && ':' !in frameRate && ':' !in quality
    ensures Split(size + ":" + frameRate + ":" + quality, ':') == [size, frameRate, quality]
    ensures ParseFormat(size + ":" + frameRate + ":" + quality)
         == match (ParseSize(size), ParseOptionalReal(frameRate), ParseOptionalReal(quality))
            case (Some(wh), Some(rate), Some(q)) => Ok(ParsedFormat(wh.0, wh.1, rate, q))
            case _ => Err(Malformed)
  {
    assert size + ":" + frameRate + ":" + quality == size + [':'] + (frameRate + [':'] + quality);
    SplitAt(size, ':', frameRate + [':'] + quality);
    SplitAt(frameRate, ':', quality);
    SplitAbsent(quality, ':');
  }

  /** `-f 1080p::`: height 1080, nothing else given. */
  lemma HeightOnlyExample()
    ensures ParseFormat("1080p::") == Ok(ParsedFormat(0, 1080, 0.0, 0.0))
  {
    var f := ParsedFormat(0, 1080, 0.0, 0.0);
    PrintedNumbers();
    assert SizeText(f) + ":" + "" + ":" + "" == "1080p::";
    FormatRoundTrip(f, "", "");
  }

  /** `-f 1920x1080::` from the usage text: both dimensions, nothing else given. */
  lemma WidthHeightExample()
    ensures ParseFormat("1920x1080::") == Ok(ParsedFormat(1920, 1080, 0.0, 0.0))
  {
    var f := ParsedFormat(1920, 1080, 0.0, 0.0);
    PrintedNumbers();
    assert SizeText(f) + ":" + "" + ":" + "" == "1920x1080::";
    FormatRoundTrip(f, "", "");
  }

  /** `-f 360p::0.07` from the usage text: height 360 and the low quality factor. */
  lemma QualityExample()
    ensures ParseFormat("360p::0.07") == Ok(ParsedFormat(0, 360, 0.0, 0.07))
  {
    var f := ParsedFormat(0, 360, 0.0, 0.0);
    PrintedNumbers();
    LowQualityText();
    assert SizeText(f) == "360p";
    QualityDescriptor();
    FormatRoundTrip(f, "", "0.07");
  }

  /** The descriptor's literal concatenation, kept apart so `QualityExample` does not unfold it. */
  lemma QualityDescriptor()
    ensures "360p" + ":" + "" + ":" + "0.07" == "360p::0.07"
  {
  }

  /** The text `0.07` denotes the low quality factor. */
  lemma LowQualityText()
    ensures ParseOptionalReal("0.07") == Some(0.07)
  {
    FractionParts();
    UnsignedDecimalOfFraction("0", "07");
    Hundredths("007", 7);
    UnsignedField("0.07", 0.07);
  }

  lemma FractionParts()
    ensures "0" + "." + "07" == "0.07" && "0" + "07" == "007"
    ensures AllDigits("0") && AllDigits("07") && AllDigits("007")
    ensures DigitsValue("007") == 7
  {
    assert "007"[..2] == "00" && "00"[..1] == "0" && "0"[..0] == "";
  }

  lemma Hundredths(digits: string, n: nat)
    requires AllDigits(digits) && DigitsValue(digits) == n
    ensures DigitsValue(digits) as real / Pow10(2) as real == n as real / 100.0
  {
    assert Pow10(2) == 100;
  }

  /** A field starting with a digit is read as an unsigned decimal. */
  lemma UnsignedField(field: string, x: real)
    requires field != [] && IsDigit(field[0]) && UnsignedDecimal(field) == Some(x)
    ensures ParseOptionalReal(field) == Some(x)
  {
  }

  /** Two fields instead of three are malformed, even when each field alone would parse. */
  lemma MissingFieldExample()
    ensures ParseFormat("1080p:30") == Err(Malformed)
  {
    assert "1080p:30" == "1080p" + [':'] + "30";
    SplitAt("1080p", ':', "30");
  }

  /**
   * The loop in `main` that parses every raw format in order and stops at
   * the first malformed one (reported here by its index).
   */
  method ParseFormats(raw: seq<string>) returns (r: Result<seq<ParsedFormat>, nat>)
    ensures r.Ok? <==> forall i :: 0 <= i < |raw| ==> ParseFormat(raw[i]).Ok?
    ensures r.Ok? ==> |r.value| == |raw| && forall i :: 0 <= i < |raw| ==> ParseFormat(raw[i]) == Ok(r.value[i])
    ensures r.Err? ==> r.error < |raw| && ParseFormat(raw[r.error]).Err?
                       && forall i :: 0 <= i < r.error ==> ParseFormat(raw[i]).Ok?
  {
    var formats: seq<ParsedFormat> := [];
    for i := 0 to |raw|
      invariant |formats| == i
      invariant forall j :: 0 <= j < i ==> ParseFormat(raw[j]) == Ok(formats[j])
    {
      var parsed := ParseFormat(raw[i]);
      if parsed.Err? {
        return Err(i);
      }
      formats := formats + [parsed.value];
    }
    return Ok(formats);
  }
}
