/** The bit-rate formula (main.go `NewBitRates`). */
module Rates {
  import opened Formats
  import opened GoMath

  /** main.go `BitRates`; every rate is in bits per second. */
  datatype BitRates = BitRates(videoBitRate: int, maximumVideoBitRate: int, bufferSize: int, audioBitRate: int)

  /** The factor the maximum video rate is derived with: literally 0.07 (not 1.07). */
  const MaxRateFactor: real := 0.07

  /** Pixels per frame. */
  function Area(f: ParsedFormat): int
  {
    f.width * f.height
  }

  /** The audio tier for a frame area: thresholds 640×360 and 1280×720, both inclusive. */
  function AudioBitRate(area: int): (r: int)
    ensures r == 96000 || r == 128000 || r == 192000
    ensures r == 96000 <==> area <= 640 * 360
    ensures r == 192000 <==> area > 1280 * 720
  {
    if area <= 640 * 360 then 96000
    else if area <= 1280 * 720 then 128000
    else 192000
  }

  /**
   * `NewBitRates`: the video rate is width × height × frame rate × quality
   * factor, truncated toward zero; the maximum rate is 0.07 × the video rate,
   * truncated; the buffer is twice the maximum rate; the audio rate is the
   * tier of the area.
   */
  function NewBitRates(f: ParsedFormat): (r: BitRates)
    ensures var product := Area(f) as real * f.frameRate * f.qualityFactor;
      product >= 0.0 ==> 0 <= r.videoBitRate && r.videoBitRate as real <= product < r.videoBitRate as real + 1.0
    ensures r.videoBitRate == Trunc(Area(f) as real * f.frameRate * f.qualityFactor)
    ensures r.maximumVideoBitRate == Trunc(MaxRateFactor * r.videoBitRate as real)
    ensures r.bufferSize == 2 * r.maximumVideoBitRate
    ensures 0 <= r.videoBitRate ==> 0 <= r.maximumVideoBitRate <= r.videoBitRate
    ensures r.audioBitRate == AudioBitRate(Area(f))
  {
    var video := Trunc(Area(f) as real * f.frameRate * f.qualityFactor);
    var maximum := Trunc(MaxRateFactor * video as real);
    BitRates(video, maximum, maximum * 2, AudioBitRate(Area(f)))
  }

  /** The audio rate never decreases as the frame area grows. */
  lemma AudioBitRateMonotone(a: int, b: int)
    requires a <= b
    ensures AudioBitRate(a) <= AudioBitRate(b)
  {
  }

  /**
   * The tiers at the usual sizes, and at sizes that show the thresholds are on
   * the area, not on either dimension: 1280×180 has the area of 640×360.
   */
  lemma AudioTierExamples()
    ensures NewBitRates(ParsedFormat(640, 360, 30.0, 0.11)).audioBitRate == 96000
    ensures NewBitRates(ParsedFormat(1280, 720, 30.0, 0.11)).audioBitRate == 128000
    ensures NewBitRates(ParsedFormat(1920, 1080, 30.0, 0.11)).audioBitRate == 192000
    ensures NewBitRates(ParsedFormat(1280, 180, 30.0, 0.11)).audioBitRate == 96000
    ensures NewBitRates(ParsedFormat(642, 360, 30.0, 0.11)).audioBitRate == 128000
  {
  }

  /** With quality factor 0 every video-derived rate is 0, whatever the size and frame rate. */
  lemma ZeroQualityRates(f: ParsedFormat)
    requires f.qualityFactor == 0.0
    ensures NewBitRates(f).videoBitRate == 0
    ensures NewBitRates(f).maximumVideoBitRate == 0
    ensures NewBitRates(f).bufferSize == 0
  {
  }
}
