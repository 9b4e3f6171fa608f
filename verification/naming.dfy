/** The file names `convert` gives each rendition (main.go `convert`). */
module Naming {
  import opened Wrappers
  import opened GoStrings
  import opened GoStrconv

  /** `v{W}x{H}`, the part both names share. */
  function Stem(width: int, height: int): string
  {
    "v" + Itoa(width) + "x" + Itoa(height)
  }

  /** The rendition playlist, `v{W}x{H}.m3u8`. */
  function PlaylistName(width: int, height: int): string
  {
    Stem(width, height) + ".m3u8"
  }

  /** The segment name template handed to the encoder, `v{W}x{H}_%03d.ts`; `%03d` is left for the encoder. */
  function SegmentPattern(width: int, height: int): string
  {
    Stem(width, height) + "_%03d.ts"
  }

  /** Reads width and height back from a stem. */
  function ParseStem(stem: string): Option<(int, int)>
  {
    if stem == [] || stem[0] != 'v' then None
    else
      var (w, h, found) := Cut(stem[1..], 'x');
      match (found, Atoi(w), Atoi(h))
      case (true, Some(width), Some(height)) => Some((width, height))
      case _ => None
  }

  lemma {:induction false} StemRoundTrip(width: int, height: int)
    ensures ParseStem(Stem(width, height)) == Some((width, height))
  {
    var stem := Stem(width, height);
    assert stem[1..] == Itoa(width) + ['x'] + Itoa(height);
    ItoaHasNo(width, 'x');
    CutAt(Itoa(width), 'x', Itoa(height));
    ItoaRoundTrip(width);
    ItoaRoundTrip(height);
  }

  /**
   * A playlist name determines the size it was made for: different sizes
   * never share a playlist name, so renditions of one file do not overwrite
   * each other unless they have the same size.
   */
  lemma {:induction false} PlaylistNameInjective(w1: int, h1: int, w2: int, h2: int)
    requires PlaylistName(w1, h1) == PlaylistName(w2, h2)
    ensures w1 == w2 && h1 == h2
  {
    StemRoundTrip(w1, h1);
    StemRoundTrip(w2, h2);
    var s1, s2 := Stem(w1, h1), Stem(w2, h2);
    assert |s1| == |s2|;
    assert s1 == PlaylistName(w1, h1)[..|s1|];
    assert s2 == PlaylistName(w2, h2)[..|s2|];
  }

  /** Likewise a segment template determines its size. */
  lemma {:induction false} SegmentPatternInjective(w1: int, h1: int, w2: int, h2: int)
    requires SegmentPattern(w1, h1) == SegmentPattern(w2, h2)
    ensures w1 == w2 && h1 == h2
  {
    StemRoundTrip(w1, h1);
    StemRoundTrip(w2, h2);
    var s1, s2 := Stem(w1, h1), Stem(w2, h2);
    assert |s1| == |s2|;
    assert s1 == SegmentPattern(w1, h1)[..|s1|];
    assert s2 == SegmentPattern(w2, h2)[..|s2|];
  }
}
