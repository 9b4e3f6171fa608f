/**
 * The master playlist text (main.go `makeMasterTrack`): the `#EXTM3U` tag
 * of section 4.3.1.1 of RFC 8216, then for each rendition an
 * `#EXT-X-STREAM-INF` tag (section 4.3.4.2) with its BANDWIDTH and
 * RESOLUTION attributes, followed by the rendition's URI on its own line.
 */
module Playlist {
  import opened Wrappers
  import opened GoStrings
  import opened GoStrconv

  /** main.go `Stream`: one produced rendition. */
  datatype Stream = Stream(width: int, height: int, bandwidth: int, fileName: string)

  const Header: string := "#EXTM3U"
  const StreamInfPrefix: string := "#EXT-X-STREAM-INF:BANDWIDTH="
  const ResolutionPrefix: string := "RESOLUTION="

  /** `#EXT-X-STREAM-INF:BANDWIDTH=<b>,RESOLUTION=<w>x<h>`, without its newline. */
  function StreamInf(s: Stream): string
  {
    StreamInfPrefix + Itoa(s.bandwidth) + "," + ResolutionPrefix + Itoa(s.width) + "x" + Itoa(s.height)
  }

  /** The two lines written for one stream, without their newlines: its tag, then its URI. */
  function Render(s: Stream): (string, string)
  {
    (StreamInf(s), s.fileName)
  }

  function Rendered(streams: seq<Stream>): seq<(string, string)>
  {
    seq(|streams|, i requires 0 <= i < |streams| => Render(streams[i]))
  }

  /** A pair of lines, each ended by a newline. */
  function EntryText(lines: (string, string)): string
  {
    lines.0 + "\n" + lines.1 + "\n"
  }

  function Entries(entries: seq<(string, string)>): string
  {
    if entries == [] then "" else EntryText(entries[0]) + Entries(entries[1..])
  }

  /** The whole text `makeMasterTrack` writes. */
  function MasterPlaylist(streams: seq<Stream>): string
  {
    Header + "\n" + Entries(Rendered(streams))
  }

  lemma {:induction false} EntriesAppend(entries: seq<(string, string)>, e: (string, string))
    ensures Entries(entries + [e]) == Entries(entries) + EntryText(e)
    decreases |entries|
  {
    if entries == [] {
      assert [e][1..] == [];
    } else {
      assert (entries + [e])[1..] == entries[1..] + [e];
      EntriesAppend(entries[1..], e);
    }
  }

  /** The `strings.Builder` loop of `makeMasterTrack`. */
  method BuildMasterPlaylist(streams: seq<Stream>) returns (text: string)
    ensures text == MasterPlaylist(streams)
  {
    text := Header + "\n";
    for i := 0 to |streams|
      invariant text == Header + "\n" + Entries(Rendered(streams)[..i])
    {
      var s := streams[i];
      ghost var before := text;
      text := text + StreamInf(s) + "\n";
      text := text + s.fileName;
      text := text + "\n";
      AppendEntry(before, StreamInf(s), s.fileName);
      assert Rendered(streams)[i] == (StreamInf(s), s.fileName);
      BuilderStep(Rendered(streams), i, before);
    }
    assert Rendered(streams)[..|streams|] == Rendered(streams);
  }

  /** The three appends for one stream add exactly its entry. */
  lemma AppendEntry(before: string, tag: string, uri: string)
    ensures before + tag + "\n" + uri + "\n" == before + EntryText((tag, uri))
  {
  }

  /** Appending the next entry keeps the builder's text equal to the playlist of the entries so far. */
  lemma BuilderStep(entries: seq<(string, string)>, i: nat, text: string)
    requires i < |entries|
    requires text == Header + "\n" + Entries(entries[..i])
    ensures text + EntryText(entries[i]) == Header + "\n" + Entries(entries[..i + 1])
  {
    assert entries[..i + 1] == entries[..i] + [entries[i]];
    EntriesAppend(entries[..i], entries[i]);
    Associative(Header + "\n", Entries(entries[..i]), EntryText(entries[i]));
  }

  /** String concatenation regrouped; a separate lemma keeps the builder loop's proof cheap. */
  lemma Associative(a: string, b: string, c: string)
    ensures a + (b + c) == (a + b) + c
  {
  }

  /** Sequence concatenation regrouped; a separate lemma keeps the callers' proofs cheap. */
  lemma SeqAssociative(a: seq<string>, b: seq<string>, c: seq<string>)
    ensures a + (b + c) == (a + b) + c
  {
  }

  /** The lines of the entries, two per entry, in order. */
  function EntryLines(entries: seq<(string, string)>): seq<string>
  {
    if entries == [] then [] else [entries[0].0, entries[0].1] + EntryLines(entries[1..])
  }

  /** Entry `i` owns lines `2i` and `2i + 1` of `EntryLines`. */
  lemma {:induction false} EntryLinesAt(entries: seq<(string, string)>, i: nat)
    requires i < |entries|
    ensures |EntryLines(entries)| == 2 * |entries|
    ensures EntryLines(entries)[2 * i] == entries[i].0
    ensures EntryLines(entries)[2 * i + 1] == entries[i].1
    decreases |entries|
  {
    if |entries| > 1 {
      EntryLinesAt(entries[1..], if i == 0 then 0 else i - 1);
    }
  }

  lemma {:induction false} EntryLinesLength(entries: seq<(string, string)>)
    ensures |EntryLines(entries)| == 2 * |entries|
    decreases |entries|
  {
    if entries != [] {
      EntryLinesLength(entries[1..]);
    }
  }

  lemma StreamInfHasNoNewline(s: Stream)
    ensures '\n' !in StreamInf(s)
  {
    var b, w, h := Itoa(s.bandwidth), Itoa(s.width), Itoa(s.height);
    ItoaHasNo(s.bandwidth, '\n');
    ItoaHasNo(s.width, '\n');
    ItoaHasNo(s.height, '\n');
    assert '\n' !in StreamInfPrefix + b + "," + ResolutionPrefix;
    assert '\n' !in w + "x" + h;
    assert StreamInf(s) == (StreamInfPrefix + b + "," + ResolutionPrefix) + (w + "x" + h);
  }

  predicate OneLineNames(streams: seq<Stream>)
  {
    forall i :: 0 <= i < |streams| ==> '\n' !in streams[i].fileName
  }

  predicate OneLineEntries(entries: seq<(string, string)>)
  {
    forall i :: 0 <= i < |entries| ==> '\n' !in entries[i].0 && '\n' !in entries[i].1
  }

  /** Every rendered line is a single line when no file name holds a newline. */
  lemma RenderedOneLine(streams: seq<Stream>)
    requires OneLineNames(streams)
    ensures OneLineEntries(Rendered(streams))
  {
    forall i | 0 <= i < |streams|
      ensures '\n' !in Rendered(streams)[i].0 && '\n' !in Rendered(streams)[i].1
    {
      StreamInfHasNoNewline(streams[i]);
    }
  }

  lemma {:induction false} SplitEntries(entries: seq<(string, string)>)
    requires OneLineEntries(entries)
    ensures Split(Entries(entries), '\n') == EntryLines(entries) + [""]
    decreases |entries|
  {
    if entries == [] {
      assert Split("", '\n') == [""];
    } else {
      var e, rest := entries[0], entries[1..];
      var restText := Entries(rest);
      assert '\n' !in e.0 && '\n' !in e.1;
      assert OneLineEntries(rest) by {
        assert forall i :: 0 <= i < |rest| ==> rest[i] == entries[i + 1];
      }
      assert Entries(entries) == e.0 + "\n" + e.1 + "\n" + restText;
      SplitTwoLines(e.0, e.1, restText);
      assert Split(Entries(entries), '\n') == [e.0, e.1] + Split(restText, '\n');
      SplitEntries(rest);
      assert EntryLines(entries) == [e.0, e.1] + EntryLines(rest);
      SeqAssociative([e.0, e.1], EntryLines(rest), [""]);
    }
  }

  /** Splitting two newline-terminated lines in front of `rest`. */
  lemma SplitTwoLines(a: string, b: string, rest: string)
    requires '\n' !in a && '\n' !in b
    ensures Split(a + "\n" + b + "\n" + rest, '\n') == [a, b] + Split(rest, '\n')
  {
    assert a + "\n" + b + "\n" + rest == a + ['\n'] + (b + ['\n'] + rest);
    SplitAt(a, '\n', b + ['\n'] + rest);
    SplitAt(b, '\n', rest);
  }

  /**
   * The playlist's lines: `#EXTM3U` first, then the rendered lines of the
   * streams in input order, and nothing after the final newline.
   */
  lemma MasterPlaylistLines(streams: seq<Stream>)
    requires OneLineNames(streams)
    ensures Split(MasterPlaylist(streams), '\n') == [Header] + EntryLines(Rendered(streams)) + [""]
  {
    RenderedOneLine(streams);
    SplitEntries(Rendered(streams));
    HeaderLine(Entries(Rendered(streams)), EntryLines(Rendered(streams)));
  }

  lemma HeaderLine(entries: string, lines: seq<string>)
    requires Split(entries, '\n') == lines + [""]
    ensures Split(Header + "\n" + entries, '\n') == [Header] + lines + [""]
  {
    assert '\n' !in Header;
    SplitFirstLine(Header, entries);
  }

  lemma SplitFirstLine(line: string, rest: string)
    requires '\n' !in line
    ensures Split(line + "\n" + rest, '\n') == [line] + Split(rest, '\n')
  {
    assert line + "\n" + rest == line + ['\n'] + rest;
    SplitAt(line, '\n', rest);
  }

  /**
   * Line by line: the header, then for stream `i` its `#EXT-X-STREAM-INF`
   * tag on line `2i + 1` and its URI on line `2i + 2`, and the empty text
   * after the final newline; `2n + 2` pieces in all.
   */
  lemma MasterPlaylistLineAt(streams: seq<Stream>)
    requires OneLineNames(streams)
    ensures var lines := Split(MasterPlaylist(streams), '\n');
      && |lines| == 2 * |streams| + 2
      && lines[0] == Header && lines[|lines| - 1] == ""
      && forall i :: 0 <= i < |streams| ==>
           lines[2 * i + 1] == StreamInf(streams[i]) && lines[2 * i + 2] == streams[i].fileName
  {
    MasterPlaylistLines(streams);
    var entries := Rendered(streams);
    EntryLinesLength(entries);
    forall i | 0 <= i < |streams|
      ensures EntryLines(entries)[2 * i] == StreamInf(streams[i])
      ensures EntryLines(entries)[2 * i + 1] == streams[i].fileName
    {
      EntryLinesAt(entries, i);
    }
  }

  /** Reads bandwidth, width and height back from an `#EXT-X-STREAM-INF` line. */
  function ParseStreamInf(line: string): Option<(int, int, int)>
  {
    if !(StreamInfPrefix <= line) then None
    else
      var (bandwidth, attributes, found) := Cut(line[|StreamInfPrefix|..], ',');
      if !found || !(ResolutionPrefix <= attributes) then None
      else
        var (w, h, hasX) := Cut(attributes[|ResolutionPrefix|..], 'x');
        match (hasX, Atoi(bandwidth), Atoi(w), Atoi(h))
        case (true, Some(b), Some(width), Some(height)) => Some((b, width, height))
        case _ => None
  }

  /** The tag line, grouped the way `ParseStreamInf` takes it apart. */
  lemma StreamInfShape(s: Stream)
    ensures StreamInf(s)
         == StreamInfPrefix + (Itoa(s.bandwidth) + [','] + (ResolutionPrefix + (Itoa(s.width) + ['x'] + Itoa(s.height))))
  {
  }

  lemma StreamInfRoundTrip(s: Stream)
    ensures ParseStreamInf(StreamInf(s)) == Some((s.bandwidth, s.width, s.height))
  {
    var b, w, h := Itoa(s.bandwidth), Itoa(s.width), Itoa(s.height);
    var size := w + ['x'] + h;
    var attributes := ResolutionPrefix + size;
    var rest := b + [','] + attributes;
    StreamInfShape(s);
    PrefixDrop(StreamInfPrefix, rest);
    ItoaHasNo(s.bandwidth, ',');
    CutAt(b, ',', attributes);
    PrefixDrop(ResolutionPrefix, size);
    ItoaHasNo(s.width, 'x');
    CutAt(w, 'x', h);
    ItoaRoundTrip(s.bandwidth);
    ItoaRoundTrip(s.width);
    ItoaRoundTrip(s.height);
  }

  /** Dropping a known prefix; a separate lemma keeps the literal prefix from being unfolded. */
  lemma PrefixDrop(p: string, rest: string)
    ensures p <= p + rest && (p + rest)[|p|..] == rest
  {
  }

  /** Reads the streams back from the lines after the header, two at a time. */
  function DecodeStreamLines(lines: seq<string>): Option<seq<Stream>>
  {
    if lines == [] then Some([])
    else if |lines| < 2 then None
    else
      match (ParseStreamInf(lines[0]), DecodeStreamLines(lines[2..]))
      case (Some((b, w, h)), Some(rest)) => Some([Stream(w, h, b, lines[1])] + rest)
      case _ => None
  }

  /** Reads a whole master playlist back into its streams. */
  function ParseMasterPlaylist(text: string): Option<seq<Stream>>
  {
    var lines := Split(text, '\n');
    if |lines| < 2 || lines[0] != Header || lines[|lines| - 1] != "" then None
    else DecodeStreamLines(lines[1..|lines| - 1])
  }

  /** Decoding the rendered lines of some streams gives those streams back. */
  lemma {:induction false} DecodeRendered(entries: seq<(string, string)>, streams: seq<Stream>)
    requires |entries| == |streams|
    requires forall i :: 0 <= i < |streams| ==> entries[i] == Render(streams[i])
    ensures DecodeStreamLines(EntryLines(entries)) == Some(streams)
    decreases |streams|
  {
    if streams != [] {
      var s := streams[0];
      var lines := EntryLines(entries);
      assert entries[0] == (StreamInf(s), s.fileName);
      assert lines == [StreamInf(s), s.fileName] + EntryLines(entries[1..]);
      assert lines[2..] == EntryLines(entries[1..]);
      StreamInfRoundTrip(s);
      DecodeRendered(entries[1..], streams[1..]);
      assert [Stream(s.width, s.height, s.bandwidth, s.fileName)] + streams[1..] == streams;
    }
  }

  /**
   * Round trip of the master playlist: as long as no file name contains a
   * newline, the text determines every stream's bandwidth, size and file
   * name, in the order given.
   */
  lemma MasterPlaylistRoundTrip(streams: seq<Stream>)
    requires OneLineNames(streams)
    ensures ParseMasterPlaylist(MasterPlaylist(streams)) == Some(streams)
  {
    MasterPlaylistLines(streams);
    var lines := Split(MasterPlaylist(streams), '\n');
    assert lines[1..|lines| - 1] == EntryLines(Rendered(streams));
    DecodeRendered(Rendered(streams), streams);
  }
}
