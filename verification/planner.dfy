/**
 * The per-format resolution loop at the top of main.go `processFile`:
 * what it writes into `adjustedFormats` and what it writes back into
 * `formats`, exactly as the code does it.
 */
module Planner {
  import opened Formats
  import opened Probing
  import opened Rates
  import opened GoMath

  /** The named quality factors; only the medium one is used. */
  const QualityLow: real := 0.07
  const QualityLowMed: real := 0.09
  const QualityMed: real := 0.11
  const QualityMedHigh: real := 0.13
  const QualityHigh: real := 0.15

  /**
   * What Go's `int(...)` yields on amd64 for an infinite or NaN float, the
   * value of `probe.Width / probe.Height` when the probed height is 0.
   */
  const NonFiniteToInt: int := -0x8000_0000_0000_0000

  /**
   * The width that keeps the probed aspect ratio at `height`: source width
   * over source height times `height`, rounded half away from zero, then
   * converted to an integer.
   */
  function RoundedWidth(probe: ProbeResult, height: int): (r: int)
    ensures probe.height == 0 ==> r == NonFiniteToInt
    ensures probe.height != 0 ==>
      var exact := probe.width as real / probe.height as real * height as real;
      -0.5 <= exact - r as real <= 0.5
  {
    if probe.height == 0 then NonFiniteToInt
    else Round(probe.width as real / probe.height as real * height as real)
  }

  /**
   * The width derived from the source's aspect ratio, moved up to the next
   * even number when odd. (Go's `w % 2 != 0` holds exactly for odd `w`, of
   * either sign, as Dafny's does.)
   */
  function DerivedWidth(probe: ProbeResult, height: int): (r: int)
    ensures r % 2 == 0
    ensures r == RoundedWidth(probe, height) || r == RoundedWidth(probe, height) + 1
    ensures probe.height != 0 ==>
      var exact := probe.width as real / probe.height as real * height as real;
      -0.5 <= r as real - exact <= 1.5
  {
    var w := RoundedWidth(probe, height);
    if w % 2 != 0 then w + 1 else w
  }

  /**
   * What the loop stores in `adjustedFormats[i]` for `formats[i]` = `f`. The
   * slot starts as the zero value and only these fields are written: the
   * height always; the width only when `f` leaves it unset; the frame rate
   * only when `f` leaves it unset. So an explicit width or frame rate
   * becomes 0, and the quality factor is always 0.
   */
  function Adjust(f: ParsedFormat, probe: ProbeResult): (r: ParsedFormat)
    ensures r.height == f.height
    ensures r.width % 2 == 0
    ensures f.width == 0 ==> r.width == DerivedWidth(probe, f.height)
    ensures f.width != 0 ==> r.width == 0
    ensures f.frameRate == 0.0 ==> r.frameRate == probe.frameRate
    ensures f.frameRate != 0.0 ==> r.frameRate == 0.0
    ensures r.qualityFactor == 0.0
  {
    ParsedFormat(
      if f.width == 0 then DerivedWidth(probe, f.height) else 0,
      f.height,
      if f.frameRate == 0.0 then probe.frameRate else 0.0,
      0.0)
  }

  /** What the loop writes back into `formats[i]`: the medium quality factor when none was given. */
  function WithDefaultQuality(f: ParsedFormat): (r: ParsedFormat)
    ensures r.qualityFactor != 0.0
    ensures f.qualityFactor != 0.0 ==> r == f
    ensures f.qualityFactor == 0.0 ==> r == f.(qualityFactor := QualityMed)
  {
    if f.qualityFactor == 0.0 then f.(qualityFactor := QualityMed) else f
  }

  /**
   * The resolution loop: allocates `adjustedFormats`, fills it slot by slot,
   * and defaults the quality factor inside the caller's `formats`.
   */
  method ResolveFormats(formats: array<ParsedFormat>, probe: ProbeResult) returns (adjusted: array<ParsedFormat>)
    modifies formats
    ensures fresh(adjusted) && adjusted.Length == formats.Length
    ensures forall i :: 0 <= i < formats.Length ==> adjusted[i] == Adjust(old(formats[i]), probe)
    ensures forall i :: 0 <= i < formats.Length ==> formats[i] == WithDefaultQuality(old(formats[i]))
  {
    adjusted := new ParsedFormat[formats.Length](_ => Unset);
    for i := 0 to formats.Length
      invariant forall j :: 0 <= j < i ==> adjusted[j] == Adjust(old(formats[j]), probe)
      invariant forall j :: 0 <= j < i ==> formats[j] == WithDefaultQuality(old(formats[j]))
      invariant forall j :: i <= j < formats.Length ==> adjusted[j] == Unset && formats[j] == old(formats[j])
    {
      ghost var f := formats[i];
      adjusted[i] := adjusted[i].(height := formats[i].height);
      if formats[i].width == 0 {
        var width := RoundedWidth(probe, formats[i].height);
        if width % 2 != 0 {
          width := width + 1;
        }
        adjusted[i] := adjusted[i].(width := width);
      }
      if formats[i].frameRate == 0.0 {
        adjusted[i] := adjusted[i].(frameRate := probe.frameRate);
      }
      if formats[i].qualityFactor == 0.0 {
        formats[i] := formats[i].(qualityFactor := QualityMed);
      }
      assert adjusted[i] == Adjust(f, probe) && formats[i] == WithDefaultQuality(f);
    }
  }

  /**
   * Consequence of the loop as written: the bit-rate formula is always fed
   * quality factor 0, so every video, maximum and buffer rate is 0, and a
   * format with an explicit width gets area 0 and the lowest audio tier.
   */
  lemma AdjustedRates(f: ParsedFormat, probe: ProbeResult)
    ensures NewBitRates(Adjust(f, probe)).videoBitRate == 0
    ensures NewBitRates(Adjust(f, probe)).maximumVideoBitRate == 0
    ensures NewBitRates(Adjust(f, probe)).bufferSize == 0
    ensures f.width != 0 ==> NewBitRates(Adjust(f, probe)).audioBitRate == 96000
  {
    ZeroQualityRates(Adjust(f, probe));
  }

  /** A 3840×2160 source asked for 720 lines gets width 1280 (already even). */
  lemma AspectExample()
    ensures Adjust(ParsedFormat(0, 720, 0.0, 0.0), ProbeResult(3840, 2160, 30.0)) == ParsedFormat(1280, 720, 30.0, 0.0)
  {
    assert 3840 as real / 2160 as real * 720 as real == 1280.0;
  }

  /** A derivation that lands on an odd width, 641, is moved up to 642. */
  lemma OddWidthExample()
    ensures RoundedWidth(ProbeResult(641, 360, 25.0), 360) == 641
    ensures DerivedWidth(ProbeResult(641, 360, 25.0), 360) == 642
  {
    assert 641 as real / 360 as real * 360 as real == 641.0;
  }
}
