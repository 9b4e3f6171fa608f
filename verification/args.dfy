/**
 * Command-line tokenizing (main.go `parseArgs`): a three-state scanner that
 * splits the arguments into raw `-f` values and input file names.
 */
module Args {
  import opened Wrappers

  /** The scanner's `expects` variable: `"any"`, `"format"` or `"file"`. */
  datatype Expect = Any | FormatValue | File

  /** What the scanner has collected so far, and what it expects next. */
  datatype Scan = Scan(formats: seq<string>, files: seq<string>, expects: Expect)

  const Start := Scan([], [], Any)

  datatype ArgsError = NoFormats | NoInputFiles

  /** An argument that the scanner, while expecting anything, reads as a format option. */
  predicate IsFormatOption(arg: string)
  {
    arg == "-f" || "-f=" <= arg
  }

  /** One pass of the `switch expects` in the scanning loop. */
  function Step(s: Scan, arg: string): Scan
  {
    match s.expects
    case Any =>
      if arg == "-f" then s.(expects := FormatValue)
      else if "-f=" <= arg then s.(formats := s.formats + [arg[3..]])
      else Scan(s.formats, s.files + [arg], File)
    case FormatValue => Scan(s.formats + [arg], s.files, Any)
    case File => s.(files := s.files + [arg])
  }

  /**
   * One step adds at most one format or one file, and only at the end; a
   * file is added only when the scanner is left in (or stays in) the file
   * state, which it then never leaves.
   */
  lemma StepGrowth(s: Scan, arg: string)
    ensures var r := Step(s, arg);
      && s.formats <= r.formats && s.files <= r.files
      && |r.formats| + |r.files| <= |s.formats| + |s.files| + 1
      && (s.expects == File ==> r == Scan(s.formats, s.files + [arg], File))
      && (r.files != s.files ==> r.expects == File && r.files == s.files + [arg])
  {
  }

  /** The scanner run over `args`, starting in state `s`. */
  function ScanFrom(s: Scan, args: seq<string>): Scan
    decreases |args|
  {
    if args == [] then s else ScanFrom(Step(s, args[0]), args[1..])
  }

  /**
   * `parseArgs`: run the scanner over every argument, then fail if no format
   * or (after that) no input file was collected.
   */
  method ParseArgs(args: seq<string>) returns (r: Result<(seq<string>, seq<string>), ArgsError>)
    ensures var s := ScanFrom(Start, args);
      && (s.formats == [] ==> r == Err(NoFormats))
      && (s.formats != [] && s.files == [] ==> r == Err(NoInputFiles))
      && (s.formats != [] && s.files != [] ==> r == Ok((s.formats, s.files)))
  {
    var rawFormats: seq<string> := [];
    var inputFiles: seq<string> := [];
    var expects := Any;
    for i := 0 to |args|
      invariant ScanFrom(Scan(rawFormats, inputFiles, expects), args[i..]) == ScanFrom(Start, args)
    {
      assert args[i..][1..] == args[i + 1..];
      match expects
      case Any =>
        if args[i] == "-f" {
          expects := FormatValue;
        } else if "-f=" <= args[i] {
          rawFormats := rawFormats + [args[i][3..]];
        } else {
          expects := File;
          inputFiles := inputFiles + [args[i]];
        }
      case FormatValue =>
        rawFormats := rawFormats + [args[i]];
        expects := Any;
      case File =>
        inputFiles := inputFiles + [args[i]];
    }
    if rawFormats == [] {
      return Err(NoFormats);
    }
    if inputFiles == [] {
      return Err(NoInputFiles);
    }
    return Ok((rawFormats, inputFiles));
  }

  /** Scanning a concatenation is scanning the second part from where the first left off. */
  lemma {:induction false} ScanConcat(s: Scan, a: seq<string>, b: seq<string>)
    ensures ScanFrom(s, a + b) == ScanFrom(ScanFrom(s, a), b)
    decreases |a|
  {
    if a == [] {
      assert a + b == b;
    } else {
      assert (a + b)[0] == a[0] && (a + b)[1..] == a[1..] + b;
      ScanConcat(Step(s, a[0]), a[1..], b);
    }
  }

  /** The scanner only appends: what it has collected stays a prefix, in order. */
  lemma {:induction false} ScanAppendsOnly(s: Scan, args: seq<string>)
    ensures s.formats <= ScanFrom(s, args).formats
    ensures s.files <= ScanFrom(s, args).files
    decreases |args|
  {
    if args != [] {
      ScanAppendsOnly(Step(s, args[0]), args[1..]);
    }
  }

  /** Once a file has been seen, every later argument, `-f` included, is a file. */
  lemma {:induction false} FileStateAbsorbs(s: Scan, rest: seq<string>)
    requires s.expects == File
    ensures ScanFrom(s, rest) == Scan(s.formats, s.files + rest, File)
    decreases |rest|
  {
    if rest != [] {
      FileStateAbsorbs(Step(s, rest[0]), rest[1..]);
      assert s.files + [rest[0]] + rest[1..] == s.files + rest;
    }
  }

  /**
   * The files collected are exactly a suffix of the arguments: the first
   * non-option argument and everything after it.
   */
  lemma {:induction false} FilesAreSuffix(s: Scan, args: seq<string>)
    requires s.files == [] || s.expects == File
    ensures var r := ScanFrom(s, args);
      s.files <= r.files && |r.files| - |s.files| <= |args|
      && r.files == s.files + args[|args| - (|r.files| - |s.files|)..]
    decreases |args|
  {
    if args == [] {
    } else if s.expects == File {
      FileStateAbsorbs(s, args);
    } else {
      var t := Step(s, args[0]);
      if t.expects == File {
        FileStateAbsorbs(t, args[1..]);
        assert [args[0]] + args[1..] == args;
      } else {
        FilesAreSuffix(t, args[1..]);
        assert args[1..][|args[1..]| - |ScanFrom(t, args[1..]).files|..]
            == args[|args| - |ScanFrom(t, args[1..]).files|..];
      }
    }
  }

  /** One format given on the command line, in either spelling. */
  datatype FormatOption = Separate(value: string) | Joined(value: string)

  /** The arguments for a list of format options: `-f X` or `-f=X` each. */
  function OptionArgs(opts: seq<FormatOption>): seq<string>
  {
    if opts == [] then []
    else
      (match opts[0]
       case Separate(v) => ["-f", v]
       case Joined(v) => ["-f=" + v])
      + OptionArgs(opts[1..])
  }

  function Values(opts: seq<FormatOption>): seq<string>
  {
    if opts == [] then [] else [opts[0].value] + Values(opts[1..])
  }

  /** Format options scanned from the start collect their values in order and leave the scanner expecting anything. */
  lemma {:induction false} OptionArgsScan(s: Scan, opts: seq<FormatOption>)
    requires s.expects == Any
    ensures ScanFrom(s, OptionArgs(opts)) == Scan(s.formats + Values(opts), s.files, Any)
    decreases |opts|
  {
    if opts != [] {
      var v, rest := opts[0].value, OptionArgs(opts[1..]);
      var t := Scan(s.formats + [v], s.files, Any);
      OptionScan(s, opts[0], rest);
      OptionArgsScan(t, opts[1..]);
      assert s.formats + [v] + Values(opts[1..]) == s.formats + Values(opts);
    }
  }

  /** One format option, in either spelling, appends its value and returns to expecting anything. */
  lemma OptionScan(s: Scan, opt: FormatOption, rest: seq<string>)
    requires s.expects == Any
    ensures ScanFrom(s, OptionArgs([opt]) + rest) == ScanFrom(Scan(s.formats + [opt.value], s.files, Any), rest)
  {
    var v := opt.value;
    match opt
    case Separate(_) =>
      assert OptionArgs([opt]) + rest == ["-f"] + ([v] + rest);
      ScanCons(s, "-f", [v] + rest);
      ScanCons(s.(expects := FormatValue), v, rest);
    case Joined(_) =>
      assert OptionArgs([opt]) + rest == ["-f=" + v] + rest;
      assert ("-f=" + v)[3..] == v;
      ScanCons(s, "-f=" + v, rest);
  }

  lemma ScanCons(s: Scan, arg: string, rest: seq<string>)
    ensures ScanFrom(s, [arg] + rest) == ScanFrom(Step(s, arg), rest)
  {
    assert ([arg] + rest)[1..] == rest;
  }

  /**
   * Round trip of the command line: format options followed by files whose
   * first one is not an option tokenize back into the same values and files,
   * in the same order.
   */
  lemma CommandLineRoundTrip(opts: seq<FormatOption>, files: seq<string>)
    requires files != [] && !IsFormatOption(files[0])
    ensures ScanFrom(Start, OptionArgs(opts) + files) == Scan(Values(opts), files, File)
  {
    ScanConcat(Start, OptionArgs(opts), files);
    OptionArgsScan(Start, opts);
    var s := Scan(Values(opts), [], Any);
    assert [] + Values(opts) == Values(opts);
    assert ScanFrom(s, files) == ScanFrom(Step(s, files[0]), files[1..]);
    FileStateAbsorbs(Step(s, files[0]), files[1..]);
    assert [files[0]] + files[1..] == files;
  }

  /**
   * Edge cases of the scanner: a trailing `-f` collects nothing; the value
   * after `-f` is taken as a format whatever it looks like; after the first
   * file even `-f` is a file.
   */
  lemma ScannerExamples()
    ensures ScanFrom(Start, ["-f"]) == Scan([], [], FormatValue)
    ensures ScanFrom(Start, ["-f", "a.mp4", "-f", "720p::"]) == Scan(["a.mp4", "720p::"], [], Any)
    ensures ScanFrom(Start, ["-f=720p::", "a.mp4", "-f", "b.mp4"]) == Scan(["720p::"], ["a.mp4", "-f", "b.mp4"], File)
  {
    assert "-f=720p::"[3..] == "720p::";
    var args := ["-f=720p::", "a.mp4", "-f", "b.mp4"];
    assert "a.mp4"[0] != "-f="[0];
    assert !IsFormatOption("a.mp4");
    assert Step(Start, args[0]) == Scan(["720p::"], [], Any);
    assert args[1..][1..] == args[2..];
    assert ScanFrom(Start, args) == ScanFrom(Scan(["720p::"], [], Any), args[1..]);
    assert ScanFrom(Start, args) == ScanFrom(Scan(["720p::"], ["a.mp4"], File), args[2..]);
    FileStateAbsorbs(Scan(["720p::"], ["a.mp4"], File), args[2..]);
  }
}
