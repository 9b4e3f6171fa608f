/**
 * Reading the prober's answer (main.go `Probe`, after the external command
 * has run): `WIDTH,HEIGHT,NUM/DEN`, with the frame rate NUM / DEN.
 */
module Probing {
  import opened Wrappers
  import opened GoStrings
  import opened GoStrconv

  /** main.go `ProbeResult`. */
  datatype ProbeResult = ProbeResult(width: int, height: int, frameRate: real)

  /**
   * Why probing failed: the external command could not be run or read
   * (`ToolFailed`), or its output had the wrong number of comma-separated
   * parts, no `/` in the frame rate, a non-integer number, or a zero divisor.
   */
  datatype ProbeError = ToolFailed | PartCount(found: nat) | MissingSlash | Unparsable | ZeroDivisor

  /** The text-to-result half of `Probe`. */
  function ParseProbeOutput(output: string): (r: Result<ProbeResult, ProbeError>)
    ensures var n := Count(TrimSpace(output), ',');
      && (n != 2 ==> r == Err(PartCount(n + 1)))
      && (r.Ok? ==> n == 2 && '/' in TrimSpace(output))
    ensures var parts := Split(TrimSpace(output), ',');
      r == Err(MissingSlash) <==> |parts| == 3 && '/' !in parts[2]
    ensures var parts := Split(TrimSpace(output), ',');
      r.Ok? ==> (
        && |parts| == 3
        && var (num, den, found) := Cut(parts[2], '/');
           && found
           && Atoi(parts[0]) == Some(r.value.width) && Atoi(parts[1]) == Some(r.value.height)
           && Atoi(num).Some? && Atoi(den).Some? && Atoi(den).value != 0
           && r.value.frameRate == Atoi(num).value as real / Atoi(den).value as real)
    ensures var parts := Split(TrimSpace(output), ',');
      r.Ok? <==> (
        && |parts| == 3
        && var (num, den, found) := Cut(parts[2], '/');
           found && Atoi(parts[0]).Some? && Atoi(parts[1]).Some? && Atoi(num).Some? && Atoi(den).Some? && Atoi(den).value != 0)
    ensures r.Err? && r.error.PartCount? <==> |Split(TrimSpace(output), ',')| != 3
    ensures var parts := Split(TrimSpace(output), ',');
      r == Err(Unparsable) <==> (
        && |parts| == 3
        && var (num, den, found) := Cut(parts[2], '/');
           found && !(Atoi(parts[0]).Some? && Atoi(parts[1]).Some? && Atoi(num).Some? && Atoi(den).Some?))
    ensures r != Err(ToolFailed)
    ensures var parts := Split(TrimSpace(output), ',');
      r == Err(ZeroDivisor) <==> (
        && |parts| == 3
        && var (num, den, found) := Cut(parts[2], '/');
           found && Atoi(parts[0]).Some? && Atoi(parts[1]).Some? && Atoi(num).Some? && Atoi(den) == Some(0))
  {
    var parts := Split(TrimSpace(output), ',');
    if |parts| != 3 then Err(PartCount(|parts|))
    else
      CutSpec(parts[2], '/');
      var (dividend, divisor, found) := Cut(parts[2], '/');
      if !found then Err(MissingSlash)
      else
        match (Atoi(dividend), Atoi(divisor), Atoi(parts[0]), Atoi(parts[1]))
        case (Some(num), Some(den), Some(width), Some(height)) =>
          if den == 0 then Err(ZeroDivisor)
          else
            assert '/' in TrimSpace(output) by {
              CutSpec(parts[2], '/');
              SplitSpec(TrimSpace(output), ',');
              InLastOfThree(parts, ',', '/');
            }
            Ok(ProbeResult(width, height, num as real / den as real))
        case _ => Err(Unparsable)
  }

  lemma InLastOfThree(parts: seq<string>, sep: char, c: char)
    requires |parts| == 3 && c in parts[2]
    ensures c in Join(parts, sep)
  {
    var rest := parts[1..];
    assert rest[1..] == [parts[2]];
    assert Join(rest, sep) == parts[1] + [sep] + parts[2];
    assert Join(parts, sep) == parts[0] + [sep] + Join(rest, sep);
  }

  /** What the prober prints for a stream: three comma-separated fields and a newline. */
  function ProbeText(width: int, height: int, num: int, den: int): string
  {
    Itoa(width) + "," + Itoa(height) + "," + Itoa(num) + "/" + Itoa(den) + "\n"
  }

  /** The answer without its newline splits into its three fields. */
  lemma ProbeLineSplit(w: string, h: string, n: string, d: string)
    requires ',' !in w && ',' !in h && ',' !in n && ',' !in d
    ensures Split(w + "," + h + "," + n + "/" + d, ',') == [w, h, n + "/" + d]
  {
    assert w + "," + h + "," + n + "/" + d == w + [','] + (h + [','] + (n + "/" + d));
    SplitAt(w, ',', h + [','] + (n + "/" + d));
    SplitAt(h, ',', n + "/" + d);
    SplitAbsent(n + "/" + d, ',');
  }

  /** The trailing newline is trimmed away. */
  lemma ProbeTextTrim(width: int, height: int, num: int, den: int)
    ensures TrimSpace(ProbeText(width, height, num, den))
         == Itoa(width) + "," + Itoa(height) + "," + Itoa(num) + "/" + Itoa(den)
  {
    var w, d := Itoa(width), Itoa(den);
    var line := w + "," + Itoa(height) + "," + Itoa(num) + "/" + d;
    ItoaChars(width);
    ItoaChars(den);
    Edges(w, "," + Itoa(height) + "," + Itoa(num) + "/", d);
    assert line == w + ("," + Itoa(height) + "," + Itoa(num) + "/") + d;
    assert !IsSpace(line[0]) && !IsSpace(line[|line| - 1]);
    assert ProbeText(width, height, num, den) == line + "\n";
    TrimSpaceTrailing(line, "\n");
  }

  /** The first and last characters of a three-piece text; a separate lemma keeps the caller's proof cheap. */
  lemma Edges(a: string, b: string, c: string)
    requires a != [] && c != []
    ensures (a + b + c)[0] == a[0] && (a + b + c)[|a + b + c| - 1] == c[|c| - 1]
  {
  }

  /**
   * Round trip of the probe answer: the printed fields read back as the same
   * width and height and the frame rate NUM / DEN, except that a zero
   * divisor is always an error.
   */
  lemma {:induction false} ProbeRoundTrip(width: int, height: int, num: int, den: int)
    ensures ParseProbeOutput(ProbeText(width, height, num, den))
         == if den == 0 then Err(ZeroDivisor) else Ok(ProbeResult(width, height, num as real / den as real))
  {
    var w, h, n, d := Itoa(width), Itoa(height), Itoa(num), Itoa(den);
    ItoaHasNo(width, ',');
    ItoaHasNo(height, ',');
    ItoaHasNo(num, ',');
    ItoaHasNo(den, ',');
    ItoaHasNo(num, '/');
    ProbeTextTrim(width, height, num, den);
    ProbeLineSplit(w, h, n, d);
    assert n + "/" + d == n + ['/'] + d;
    CutAt(n, '/', d);
    ItoaRoundTrip(width);
    ItoaRoundTrip(height);
    ItoaRoundTrip(num);
    ItoaRoundTrip(den);
  }

  lemma PrintedFields()
    ensures Itoa(1920) == "1920" && Itoa(1080) == "1080" && Itoa(30) == "30" && Itoa(0) == "0"
  {
    PrintedNumbers();
  }

  lemma ZeroDivisorText()
    ensures ProbeText(1920, 1080, 30, 0) == "1920,1080,30/0\n"
  {
    PrintedFields();
    assert ProbeText(1920, 1080, 30, 0) == "1920" + "," + "1080" + "," + "30" + "/" + "0" + "\n";
  }

  /** A zero divisor fails even though every field is an integer. */
  lemma ZeroDivisorExample()
    ensures ParseProbeOutput("1920,1080,30/0\n") == Err(ZeroDivisor)
  {
    ZeroDivisorText();
    ProbeRoundTrip(1920, 1080, 30, 0);
  }
}
