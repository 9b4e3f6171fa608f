/**
 * One input file through main.go `processFile`: probe it, resolve the
 * formats against the probe, encode one rendition per resolved format and
 * join the renditions into the master playlist. The external commands and
 * the file system are outcomes handed in as parameters.
 */
module Pipeline {
  import opened Wrappers
  import opened GoStrings
  import opened GoStrconv
  import opened Formats
  import opened Probing
  import opened Rates
  import opened Planner
  import opened Naming
  import opened Playlist

  /**
   * Why processing a file stopped: probing failed, the encoder failed on
   * the rendition at `index`, or the master playlist could not be written.
   */
  datatype ProcessError = ProbeFailed(cause: ProbeError) | ConvertFailed(index: nat) | JoinFailed

  /** `Probe`: `None` stands for a prober that could not be run or read. */
  function ProbeOutcome(output: Option<string>): (r: Result<ProbeResult, ProbeError>)
    ensures r == Err(ToolFailed) <==> output.None?
    ensures output.Some? ==> r == ParseProbeOutput(output.value)
  {
    match output
    case None => Err(ToolFailed)
    case Some(text) => ParseProbeOutput(text)
  }

  /** The contents of `adjustedFormats` for the given formats. */
  function Plan(formats: seq<ParsedFormat>, probe: ProbeResult): seq<ParsedFormat>
  {
    seq(|formats|, i requires 0 <= i < |formats| => Adjust(formats[i], probe))
  }

  /** The contents of `formats` after the loop has written its defaults back. */
  function Defaulted(formats: seq<ParsedFormat>): seq<ParsedFormat>
  {
    seq(|formats|, i requires 0 <= i < |formats| => WithDefaultQuality(formats[i]))
  }

  /** The `Stream` appended for a resolved format. */
  function StreamFor(f: ParsedFormat): Stream
  {
    Stream(f.width, f.height, NewBitRates(f).videoBitRate, PlaylistName(f.width, f.height))
  }

  function Streams(formats: seq<ParsedFormat>): seq<Stream>
  {
    seq(|formats|, i requires 0 <= i < |formats| => StreamFor(formats[i]))
  }

  /** Every encoding before `index` succeeded and the one at `index` failed. */
  predicate FirstFailure(converted: seq<bool>, index: nat)
  {
    index < |converted| && !converted[index] && forall j :: 0 <= j < index ==> converted[j]
  }

  /**
   * The second loop of `processFile`: for each resolved format, compute its
   * bit rates, encode it (`converted[i]` is the encoder's outcome) and
   * append its `Stream`, stopping at the first failed encoding.
   */
  method AssembleStreams(adjusted: seq<ParsedFormat>, converted: seq<bool>) returns (r: Result<seq<Stream>, ProcessError>)
    requires |converted| == |adjusted|
    ensures r.Ok? <==> forall i :: 0 <= i < |converted| ==> converted[i]
    ensures r.Ok? ==> r.value == Streams(adjusted)
    ensures r.Err? ==> r.error.ConvertFailed? && FirstFailure(converted, r.error.index)
  {
    var streams: seq<Stream> := [];
    for i := 0 to |adjusted|
      invariant streams == Streams(adjusted[..i])
      invariant forall j :: 0 <= j < i ==> converted[j]
    {
      if !converted[i] {
        assert FirstFailure(converted, i);
        return Err(ConvertFailed(i));
      }
      StreamsStep(adjusted, i);
      streams := streams + [StreamFor(adjusted[i])];
    }
    assert adjusted[..|adjusted|] == adjusted;
    return Ok(streams);
  }

  lemma StreamsStep(formats: seq<ParsedFormat>, i: nat)
    requires i < |formats|
    ensures Streams(formats[..i + 1]) == Streams(formats[..i]) + [StreamFor(formats[i])]
  {
    var a, b := Streams(formats[..i + 1]), Streams(formats[..i]) + [StreamFor(formats[i])];
    assert |a| == |b|;
    forall j | 0 <= j < |a|
      ensures a[j] == b[j]
    {
      assert formats[..i + 1][j] == formats[j];
    }
  }

  /**
   * `processFile` for one input: `probeOutput` is what the prober printed,
   * `converted[i]` whether the encoder succeeded on rendition `i`, and
   * `written` whether the master playlist file could be created and
   * written. On success the result is the text written to it.
   */
  method ProcessFile(formats: array<ParsedFormat>, probeOutput: Option<string>, converted: seq<bool>, written: bool)
    returns (r: Result<string, ProcessError>)
    requires |converted| == formats.Length
    modifies formats
    ensures ProbeOutcome(probeOutput).Err? ==>
      r == Err(ProbeFailed(ProbeOutcome(probeOutput).error)) && formats[..] == old(formats[..])
    ensures ProbeOutcome(probeOutput).Ok? ==> formats[..] == Defaulted(old(formats[..]))
    ensures r.Ok? <==>
      ProbeOutcome(probeOutput).Ok? && written && forall i :: 0 <= i < |converted| ==> converted[i]
    ensures r.Ok? ==>
      r.value == MasterPlaylist(Streams(Plan(old(formats[..]), ProbeOutcome(probeOutput).value)))
    ensures r.Err? && r.error.ConvertFailed? ==> FirstFailure(converted, r.error.index)
    ensures r == Err(JoinFailed) ==> forall i :: 0 <= i < |converted| ==> converted[i]
    ensures ProbeOutcome(probeOutput).Ok? && r.Err? ==> !r.error.ProbeFailed?
    ensures ProbeOutcome(probeOutput).Ok? && (exists i :: 0 <= i < |converted| && !converted[i]) ==>
      r.Err? && r.error.ConvertFailed?
  {
    var probe := ProbeOutcome(probeOutput);
    if probe.Err? {
      return Err(ProbeFailed(probe.error));
    }
    ghost var original := formats[..];
    var adjusted := ResolveFormats(formats, probe.value);
    assert adjusted[..] == Plan(original, probe.value);
    assert formats[..] == Defaulted(original);
    var streams := AssembleStreams(adjusted[..], converted);
    if streams.Err? {
      return Err(streams.error);
    }
    var text := BuildMasterPlaylist(streams.value);
    if !written {
      return Err(JoinFailed);
    }
    return Ok(text);
  }

  /**
   * Consequence of the resolution loop as written: every rendition is
   * announced with bandwidth 0, and one whose width was given explicitly
   * is announced with width 0 and file name `v0x<H>.m3u8`.
   */
  lemma {:induction false} PlannedStreams(formats: seq<ParsedFormat>, probe: ProbeResult)
    ensures |Streams(Plan(formats, probe))| == |formats|
    ensures forall i :: 0 <= i < |formats| ==> Streams(Plan(formats, probe))[i].bandwidth == 0
    ensures forall i :: 0 <= i < |formats| ==> Streams(Plan(formats, probe))[i].height == formats[i].height
    ensures forall i :: 0 <= i < |formats| && formats[i].width != 0 ==>
      Streams(Plan(formats, probe))[i].width == 0 && Streams(Plan(formats, probe))[i].fileName == PlaylistName(0, formats[i].height)
  {
    forall i | 0 <= i < |formats|
      ensures Streams(Plan(formats, probe))[i].bandwidth == 0
    {
      AdjustedRates(formats[i], probe);
    }
  }

  /**
   * The stream announced for a rendition: its tag reads back to the
   * rendition's video rate, width and height, and its file name to the
   * width and height alone, so two renditions share a file name only when
   * they have the same size.
   */
  lemma StreamForRoundTrip(f: ParsedFormat, g: ParsedFormat)
    ensures ParseStreamInf(StreamInf(StreamFor(f))) == Some((NewBitRates(f).videoBitRate, f.width, f.height))
    ensures StreamFor(f).fileName == StreamFor(g).fileName ==> f.width == g.width && f.height == g.height
  {
    StreamInfRoundTrip(StreamFor(f));
    if StreamFor(f).fileName == StreamFor(g).fileName {
      PlaylistNameInjective(f.width, f.height, g.width, g.height);
    }
  }

  lemma PlaylistNameOneLine(width: int, height: int)
    ensures '\n' !in PlaylistName(width, height)
  {
    ItoaHasNo(width, '\n');
    ItoaHasNo(height, '\n');
    assert PlaylistName(width, height) == "v" + Itoa(width) + ("x" + Itoa(height) + ".m3u8");
  }

  /**
   * The master playlist written for a file reads back into exactly the
   * streams of the resolved formats: one tag and one file name per format,
   * in the order the formats were given.
   */
  lemma ProcessedPlaylistRoundTrip(adjusted: seq<ParsedFormat>)
    ensures ParseMasterPlaylist(MasterPlaylist(Streams(adjusted))) == Some(Streams(adjusted))
    ensures |Split(MasterPlaylist(Streams(adjusted)), '\n')| == 2 * |adjusted| + 2
  {
    var streams := Streams(adjusted);
    forall i | 0 <= i < |streams|
      ensures '\n' !in streams[i].fileName
    {
      PlaylistNameOneLine(adjusted[i].width, adjusted[i].height);
    }
    MasterPlaylistRoundTrip(streams);
    MasterPlaylistLineAt(streams);
  }

  /**
   * Writing the default quality back into `formats` does not change what a
   * later file gets: the plan for the defaulted formats is the plan for the
   * originals, so every file given on the command line gets the same plan
   * for the same probe.
   */
  lemma DefaultingKeepsPlan(formats: seq<ParsedFormat>, probe: ProbeResult)
    ensures Plan(Defaulted(formats), probe) == Plan(formats, probe)
    ensures Defaulted(Defaulted(formats)) == Defaulted(formats)
  {
  }
}
