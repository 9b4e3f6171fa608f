# tohls: rendition planning and the master playlist, in Dafny

tohls (`main.go`) turns video files into HTTP Live Streaming ladders. The
command line holds one or more `-f SIZE:FRAMERATE:QUALITY` options followed
by input files. Every format is parsed before any file is touched. Then each
file goes through four steps:

1. The file is probed with `ffprobe`, which prints `WIDTH,HEIGHT,NUM/DEN`.
2. Every format is resolved against the probe.
3. A bit-rate budget is computed per format, and `ffmpeg` runs once per
   rendition, writing `v<W>x<H>.m3u8`.
4. A master playlist (`#EXTM3U` plus one `#EXT-X-STREAM-INF` tag and URI per
   rendition) is written to `<file>.master.m3u8`.

This project models that core. It proves what each step computes, and that
the text formats it reads and writes round-trip.

| module | file | models |
|---|---|---|
| `Wrappers` | `wrappers.dfy` | `Option`, `Result` |
| `GoStrings` | `go_strings.dfy` | `strings.Cut`, `strings.Split` (one-character separator), `strings.TrimSpace` |
| `GoStrconv` | `go_strconv.dfy` | `strconv.Atoi`, `%d` / `Itoa`, the decimal part of `strconv.ParseFloat` as exact reals |
| `GoMath` | `go_math.dfy` | Go's float-to-int conversion (truncation toward zero), `math.Round` |
| `Args` | `args.dfy` | `parseArgs`, the three-state argument scanner, as a method with a loop |
| `Formats` | `formats.dfy` | `parseFormat`, the SIZE prefix `ParsedFormat.String` prints, the parse loop in `main` |
| `Rates` | `rates.dfy` | `NewBitRates` |
| `Probing` | `probing.dfy` | the parsing half of `Probe` |
| `Naming` | `naming.dfy` | the rendition file names `convert` uses |
| `Planner` | `planner.dfy` | the resolution loop of `processFile`, as a method over arrays |
| `Playlist` | `playlist.dfy` | `makeMasterTrack`'s text, built by a loop, and a reader for it |
| `Pipeline` | `pipeline.dfy` | `processFile` from probe output to playlist text |

Integers are unbounded. A float is modelled as the exact real its decimal
text denotes. Go's `int(x)` on finite values is modelled as truncation toward
zero (`GoMath.Trunc`). `math.Round` rounds halves away from zero
(`GoMath.Round`).

## Behaviour as written

The model follows `main.go` where it differs from the tool's usage text and
its comments:

- **No default quality in the rates.** The resolution loop writes the
  medium quality factor 0.11 into the caller's `formats[i]`
  (main.go:404-406). The bit rates, however, are computed from
  `adjustedFormats[i]` (main.go:414), whose quality factor is never set.
  - So every video rate, maximum rate, buffer size and `BANDWIDTH` is 0.
  - This holds also when a quality factor is given explicitly.
  - See `Planner.AdjustedRates` and `Pipeline.PlannedStreams`.
- **Explicit width and frame rate are dropped.** Only the height is always
  copied into `adjustedFormats[i]`. The width is filled in only when it was
  not given, and likewise the frame rate.
  - So `-f 1920x1080::` renders with width 0, as `v0x1080.m3u8`, with audio
    tier 96000.
  - A given frame rate reaches the encoder as 0.
- **Maximum rate factor.** The maximum video rate is 0.07 × the video rate
  (main.go:74). The comment at main.go:91 says 1.07.
- **Truncation, not rounding.** Both rates go through `int(...)`, which
  truncates toward zero.
- **Evenness.** Only a derived width is moved up to an even number; an
  explicit width is not checked.
- **Zero probed height.** `float64(probe.Width) / 0` is infinite or NaN.
  `int(...)` of that is `-2^63` on amd64; the model uses that value
  (`Planner.NonFiniteToInt`).

## Model

| member | source | states |
|---|---|---|
| GoStrings.CutSpec | main.go:147-150 | `Cut` succeeds exactly when the separator occurs; the part before it, the separator and the part after it then make up the input, and the part before holds no separator |
| GoStrings.CutAt | main.go:342-345 | cutting `a + c + b` where `a` holds no `c` yields exactly `(a, b, true)` |
| GoStrings.Split | main.go:323-324 | the number of parts is the number of separators plus one |
| GoStrings.SplitSpec | main.go:140-141 | no part holds the separator, and joining the parts with it gives the input back |
| GoStrings.SplitAt | main.go:323 | a separator after a separator-free prefix makes that prefix the first part, the rest is split on its own |
| GoStrings.SplitAbsent | main.go:323 | text without the separator is a single part |
| GoStrings.TrimLeft | main.go:138 | the result is a suffix of the input, everything dropped is white space, and it does not start with white space |
| GoStrings.TrimRight | main.go:138 | the result is a prefix of the input, everything dropped is white space, and it does not end with white space |
| GoStrings.TrimSpaceTrailing | main.go:138 | text that neither starts nor ends with white space survives `TrimSpace` with any trailing white space removed |
| GoStrconv.Atoi | main.go:152-158 | an accepted text is non-empty with digits after its first character, and a negative result comes from a leading `-` |
| GoStrconv.AtoiSpec | main.go:152-158 | a text is accepted exactly when it is an optional `+` or `-` followed by at least one digit; the value is the digits read in base ten, negated after a `-` |
| GoStrconv.AtoiDigits | main.go:152-158 | a non-empty run of digits is accepted as the number it denotes |
| GoStrconv.AtoiNegated | main.go:152-158 | `-` followed by the digits of `-n` is accepted as `n` |
| GoStrconv.NatTextDigits | main.go:225 | decimal printing yields only digits, denotes the printed number, and has no leading zero |
| GoStrconv.ItoaChars | main.go:174 | a printed integer holds only digits and `-` |
| GoStrconv.ItoaRoundTrip | main.go:152-155 | `Atoi` reads back exactly the integer `%d` printed |
| GoStrconv.ItoaInjective | main.go:174 | distinct integers print as distinct text |
| GoStrconv.ItoaHasNo | main.go:225 | no separator the model splits on (`,`, `x`, `:`, `/`, newline) occurs in a printed integer |
| GoStrconv.UnsignedDecimalOfDigits | main.go:360 | a run of digits parses as a float equal to the integer it denotes |
| GoStrconv.UnsignedDecimalOfFraction | main.go:369 | `I.F` parses as the digits of `I` and `F` read as one number, divided by 10 to the length of `F` |
| GoStrconv.ParseFloatOfInteger | main.go:359-364 | every printed integer, of either sign, is valid float text with the same value |
| GoStrconv.ParseFloatOfNegative | main.go:359-364 | a printed negative integer parses as a float equal to it |
| GoStrconv.ParseFloatNegated | main.go:360 | a `-` before the digits of `-n` parses as `n` |
| GoStrconv.ParseFloatSigns | main.go:359-364 | a leading `+` is ignored, a leading `-` negates the unsigned reading (and fails with it), and text with no sign is read as an unsigned decimal |
| GoStrconv.UnsignedDecimalOfExponent | main.go:360 | `D` followed by `e` or `E` and a printed integer `k`, of either sign, denotes the digits of `D` times 10 to the `k` |
| GoMath.Trunc | main.go:73-74 | the result is the integer next to `x` toward zero: within one of `x` and not past it |
| GoMath.Round | main.go:394 | the result is within one half of `x`, with halves going away from zero |
| GoMath.TruncMonotone | main.go:73 | truncation never decreases as its argument grows |
| Args.StepGrowth | main.go:287-306 | one argument adds at most one format or one file, and only at the end; a file is added only by leaving or staying in the file state, and in that state every argument is a file |
| Args.ParseArgs | main.go:279-318 | the loop ends in the scanner state over all arguments; fails with no formats first, then with no files, and otherwise returns the collected formats and files |
| Args.ScanConcat | main.go:286-307 | scanning `a + b` is scanning `b` from the state `a` left |
| Args.ScanAppendsOnly | main.go:286-307 | collected formats and files only grow at the end: earlier ones stay a prefix |
| Args.FileStateAbsorbs | main.go:302-303 | once a file has been seen, every later argument, `-f` included, becomes a file |
| Args.FilesAreSuffix | main.go:294-303 | the files collected are exactly a suffix of the arguments |
| Args.OptionArgsScan | main.go:288-300 | a run of format options, in either spelling, collects their values in order and leaves the scanner expecting anything |
| Args.OptionScan | main.go:289-300 | one `-f X` or `-f=X` appends `X` and returns to expecting anything |
| Args.CommandLineRoundTrip | main.go:279-307 | format options followed by files that do not start with an option scan back into the same values and files |
| Args.ScannerExamples | main.go:286-307 | a trailing `-f` collects nothing; the argument after `-f` is a format whatever it looks like; after the first file, `-f` is a file |
| Formats.ParseSize | main.go:334-356 | `Hp` gives width 0 and the integer before the `p`; otherwise the size is accepted exactly when the text has an `x` with an integer on either side of the first one, and those integers are the width and height; no `x` fails |
| Formats.ParseFormat | main.go:320-377 | anything but exactly two `:` is malformed; a success carries the parsed SIZE, FRAMERATE and QUALITY fields |
| Formats.HeightOnlyFormat | main.go:335-340 | a SIZE ending in `p` gives width 0 and the height read before the `p`; a non-integer there fails the parse |
| Formats.WidthHeightFormat | main.go:341-355 | any other SIZE without `x` fails; with one, width and height are the integers on either side |
| Formats.OptionalFieldsFormat | main.go:357-374 | empty FRAMERATE or QUALITY stays 0; non-empty text that is not a number fails the whole descriptor |
| Formats.SizeTextRoundTrip | main.go:48-52 | the SIZE that `String` prints has no `:` and parses back to the same width and height |
| Formats.FormatRoundTrip | main.go:320-377 | a printed SIZE with two number-or-empty fields parses to that size and those numbers |
| Formats.ParseFields | main.go:323-330 | three `:`-free fields joined by `:` split back into those fields and are parsed field by field |
| Formats.HeightOnlyExample | main.go:335-340 | `1080p::` is height 1080 with nothing else given |
| Formats.WidthHeightExample | main.go:341-355 | `1920x1080::` is 1920 by 1080 with nothing else given |
| Formats.QualityExample | main.go:366-374 | `360p::0.07` is height 360 with quality factor 0.07 |
| Formats.LowQualityText | main.go:369 | the text `0.07` denotes 0.07 |
| Formats.UnsignedField | main.go:359-360 | a field starting with a digit is read as an unsigned decimal |
| Formats.MissingFieldExample | main.go:323-326 | `1080p:30` is malformed, though each field alone would parse |
| Formats.ParseFormats | main.go:452-460 | succeeds exactly when every descriptor parses, with the parsed formats in order; otherwise returns the first malformed index, every earlier one having parsed |
| Rates.AudioBitRate | main.go:77-85 | the audio rate is one of 96000, 128000 and 192000: 96000 exactly up to 640×360 pixels inclusive, 192000 exactly above 1280×720 |
| Rates.NewBitRates | main.go:69-88 | the video rate is the area × frame rate × quality factor truncated toward zero, for any sign; for a non-negative product it is also within one below it; the maximum is 0.07 × video, truncated, and, for a non-negative video rate, between 0 and it; the buffer is twice the maximum; audio follows the area |
| Rates.AudioBitRateMonotone | main.go:79-85 | a larger frame never gets a lower audio rate |
| Rates.AudioTierExamples | main.go:79-85 | the tiers at 640×360, 1280×720 and 1920×1080; 1280×180 sits in the lowest tier and 642×360 does not, since the thresholds are on the area |
| Rates.ZeroQualityRates | main.go:73-75 | quality factor 0 makes the video rate, the maximum rate and the buffer 0 |
| Probing.ParseProbeOutput | main.go:138-168 | the parse succeeds exactly when there are three parts, the last holds a `/`, width, height, NUM and DEN all pass `Atoi` and DEN is not 0; the part-count error occurs exactly when there are not three parts, and reports that count; three parts, a `/`, and any of the four numbers failing `Atoi` is exactly the unparsable error; a parse never reports a tool failure; three parts with no `/` in the last is exactly the missing-slash error; width, height, NUM and a zero DEN all integers is exactly the zero-divisor error; a success has three parts, integer width and height equal to the result's, and a frame rate of NUM ÷ DEN with DEN non-zero |
| Probing.ProbeLineSplit | main.go:140-145 | the trimmed answer splits at `,` into width, height and `NUM/DEN` |
| Probing.ProbeTextTrim | main.go:138 | trimming removes exactly the trailing newline of the answer |
| Probing.ProbeRoundTrip | main.go:138-168 | any printed answer parses back to its width, height and frame rate NUM / DEN; a zero divisor is the zero-divisor error |
| Probing.ZeroDivisorExample | main.go:160-162 | `1920,1080,30/0` fails only because of the divisor |
| Naming.StemRoundTrip | main.go:174 | `v<W>x<H>` reads back to `W` and `H` |
| Naming.PlaylistNameInjective | main.go:174 | two renditions share a playlist name only when they have the same width and height |
| Naming.SegmentPatternInjective | main.go:194 | two renditions share a segment template only when they have the same width and height |
| Planner.RoundedWidth | main.go:394 | the width is within one half of source width ÷ source height × height; with source height 0 it is `-2^63` |
| Planner.DerivedWidth | main.go:394-397 | the derived width is even: the rounded width, or one more when that is odd |
| Planner.Adjust | main.go:391-402 | the height is copied; the width is derived only when not given and is otherwise 0; the frame rate is the probe's only when not given and is otherwise 0; the quality factor is 0 |
| Planner.WithDefaultQuality | main.go:404-406 | a missing quality factor becomes 0.11 and a given one is kept; the result is never 0 |
| Planner.ResolveFormats | main.go:388-408 | a fresh array holds `Adjust` of each original format, and each caller's format gets its default quality |
| Planner.AdjustedRates | main.go:388-414 | every resolved format gets video rate, maximum rate and buffer 0; an explicit width gets the lowest audio tier |
| Planner.AspectExample | main.go:392-397 | a 3840×2160 source asked for height 720 gets width 1280 and the source frame rate |
| Planner.OddWidthExample | main.go:395-397 | a derivation landing on 641 becomes 642 |
| Playlist.EntriesAppend | main.go:224-228 | appending a stream appends its two lines to the text |
| Playlist.BuildMasterPlaylist | main.go:221-228 | the builder loop produces the master playlist text of the streams |
| Playlist.EntryLinesAt | main.go:224-228 | stream `i` owns lines `2i` and `2i + 1` of the entry lines |
| Playlist.StreamInfHasNoNewline | main.go:225 | an `#EXT-X-STREAM-INF` line holds no newline |
| Playlist.RenderedOneLine | main.go:224-228 | when no file name holds a newline, every rendered line is a single line |
| Playlist.SplitEntries | main.go:224-228 | splitting the entry text at newlines gives the entry lines, then one empty piece |
| Playlist.MasterPlaylistLines | main.go:221-228 | the playlist's lines are `#EXTM3U`, the streams' lines in input order, then nothing after the last newline |
| Playlist.MasterPlaylistLineAt | main.go:221-228 | `2n + 2` pieces: the header first, stream `i`'s tag on line `2i + 1` and its URI on line `2i + 2`, empty last |
| Playlist.StreamInfRoundTrip | main.go:225 | a tag line reads back to its bandwidth, width and height |
| Playlist.DecodeRendered | main.go:224-228 | the rendered lines of some streams decode back to those streams |
| Playlist.MasterPlaylistRoundTrip | main.go:221-228 | when no file name holds a newline, the playlist text determines every stream's bandwidth, size and file name, in order |
| Pipeline.ProbeOutcome | main.go:107-135 | the outcome is the tool-failure error exactly when the prober could not be run or read, so a malformed answer is never reported as a tool failure; otherwise it is exactly the parse of the output |
| Pipeline.AssembleStreams | main.go:410-428 | succeeds exactly when every encoding succeeded, with one stream per resolved format in order; otherwise reports the first failed encoding |
| Pipeline.ProcessFile | main.go:379-441 | a failed probe changes nothing; otherwise `formats` gets its defaults; success exactly when probe, every encoding and the write succeed; the text written is the playlist of the planned streams; a write failure implies every encoding succeeded; after a successful probe the failure is never a probe failure, and any failed encoding makes it an encoding failure |
| Pipeline.PlannedStreams | main.go:410-428 | every rendition is announced with bandwidth 0 and the requested height; an explicit width is announced as width 0 with file `v0x<H>.m3u8` |
| Pipeline.StreamForRoundTrip | main.go:422-427 | a rendition's announced tag reads back to its video rate, width and height; two renditions get the same file name only when they have the same width and height |
| Pipeline.PlaylistNameOneLine | main.go:174 | rendition file names hold no newline |
| Pipeline.ProcessedPlaylistRoundTrip | main.go:410-437 | the master playlist written for a file reads back into exactly its streams, in format order, with two lines per format plus two |
| Pipeline.DefaultingKeepsPlan | main.go:404-406 | defaulting the quality does not change a later file's plan, and defaulting twice is defaulting once |

## Left out

- Running `ffprobe` and `ffmpeg` is not modelled. Their outcomes are parameters of `Pipeline.ProcessFile`:
  - the prober's output, or `None`;
  - one success flag per encoding.
- The encoder's argument vector is left out: the `scale`/`fps` filter and the `%f` formatting of the frame rate. Of that vector, only the file names are modelled.
- Creating and writing the master playlist file is not modelled. Its success is a parameter of `Pipeline.ProcessFile`.
- The master file name `filepath.Base(file) + ".master.m3u8"` is left out (path handling).
- Progress and error messages are left out: `fmt.Printf`, `log`, `usage`, the exit codes, and the `%f` text of `ParsedFormat.String`. The SIZE prefix of `String` is modelled.
- `main`'s loop over the input files is left out. Each file is one `Pipeline.ProcessFile` call on the same `formats` array (`Pipeline.DefaultingKeepsPlan` says the plan repeats).
- Pipeline.ProbeOutcome: the four ways running the prober can fail (pipe, start, read, wait) are one `ToolFailed` error. Their messages are not modelled.
- GoStrconv.ParseFloat: this is only the decimal subset. Left out are `Inf`, `NaN`, hexadecimal floats, underscores, range errors and IEEE rounding; values are exact reals.
- GoStrconv.Atoi: 64-bit range errors are not modelled, since integers are unbounded.
- The 64-bit overflow of the products in `NewBitRates` and of `int(...)` on large values is not modelled.
- Planner.RoundedWidth: `int(...)` of an infinite or NaN value is modelled as the amd64 result only. Other platforms differ.
- Planner.RoundedWidth: the `float64` division and multiplication are modelled as exact reals, so a result that lands on a half may round the other way. For a 123×480 source at height 720 the exact value is 184.5, which the model rounds to 185 and evens to 186; in `float64`, 123 ÷ 480 lies just below 0.25625, so the product can fall just under 184.5 and round to 184. A 1001×1000 source at height 500 is the same case: exactly 500.5 (model width 502) against a `float64` product just below it (width 500).
- Probing.ParseProbeOutput: the frame rate is the exact quotient NUM ÷ DEN, not its `float64` rounding; 24000 ÷ 1001, for example, has no exact `float64` value, so the program's frame rate differs from the model's in the last bits.
- Rates.NewBitRates: the `float64` product of area, frame rate and quality factor is modelled as an exact real, so a product within rounding error of an integer may truncate to a different value than the program's.
- The `default: panic` branch of the argument scanner cannot be reached. The scanner state is a three-valued datatype.
- The unused quality constants other than `QualityMed` are declared but not used, as in the source.
