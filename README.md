# cpp-preprocessor in Dafny

A model of the include expander in `main.cpp`. The expander copies a C++ source file to an output file and replaces every `#include "…"` and `#include <…>` line by the full, recursively expanded text of the file it names (preceded by the partial output of any candidate that failed part-way; see "Fallback" below). A quoted include is looked up next to the including file first and then in the search directories, in order. An angle include is looked up only in the search directories. An include that resolves nowhere is reported as `(name as written, including file, 1-based line)`, and processing of that file stops with `false`. Everything written before the failure stays in the output.

The project is in six modules, plus one for the program's self-test:

- `Strings`: character search shared by the others.
- `Classifier`: the two anchored regular expressions of `ProcessFile`, as a left-to-right scanner (`Scan`, `Classify`). The scanner is proved equal, in both directions, to the language of each pattern written as a concatenation (`Form`).
- `LineReader`: the `getline` loop and its end-of-stream rule, as a pure function from the unread text to the next line (`GetLine`, `Lines`). It is related to writing lines back out (`Unlines`).
- `Paths`: `dir / name` and `parent_path()` on `/`-separated strings.
- `Expansion`: the reference semantics. `ExpandFile`, `ExpandLines`, `ExpandLine` and `TryEach` are mutually recursive functions. Each yields a `Trace`: the status, the lines written and the diagnostics printed. Lemmas about them state resolution order, fallback, failure propagation and copying.
- `Preprocessor`: the program itself, imperatively.
  - `OutFile` holds the output stream; `Console` holds standard output.
  - `ProcessFile` is the read loop with its line counter. `ProcessDirectories` is the directory loop with its early return. `Preprocess` is the entry point.
  - Each method is proved to write exactly the `Trace` of the reference semantics, appended to what was already there.
- `Scenario`: `Test()` as a concrete file system. It is proved that `Preprocess` returns false, writes exactly the expected thirteen lines and reports `dummy.txt` at line 8 of `sources/a.cpp`.

The file system is a map from paths to contents; a path that is not a key cannot be opened. The methods read files from that map. The read loop's view of each file (its lines, each classified) is passed to them as a ghost `Sources` map, which `Parsed` ties to the file system.

`ProcessFile` has no cycle check, and every nesting level keeps its input stream open (`main.cpp:39`). On a cyclic or very deep include chain, what the program does depends on which resource runs out first. If the stack runs out, it crashes. If the open-file limit is reached first, the open at `main.cpp:39-41` fails, that level returns false, and the fallback and diagnostics of every level above follow. Every nested `ProcessFile` here spends one unit of `fuel`. Running out yields the third status `Exhausted`, which stands for the run being aborted at that depth, whatever the program does there: no fallback, no diagnostic. `ExpandFileFuel` shows that a run which does not run out gives the same result with any larger bound.

Two consequences of how `ProcessFile` is written are kept as they are:

- **Fallback.** The search directories are consulted whenever the relative attempt for a quoted include returns false. That includes a file that exists but fails part-way (`main.cpp:55-56`). In that case the failed attempt's partial output and its diagnostic stay, and the search directories are tried after it (`QuotedLine`).
- **Partial output.** Output written before a failure is never withdrawn.

## Model

| member | source | states |
|---|---|---|
| Classifier.IsSpace | main.cpp:35-36 | `\s`: space, tab, line feed, carriage return, vertical tab or form feed |
| Classifier.Scan | main.cpp:35-36 | the whole-line match of one of the two patterns, given its delimiters: skip blanks, `#`, blanks, `include`, blanks, the opening delimiter, everything up to the first closing delimiter, then blanks to the end; the capture or nothing (proved equal to the pattern's language by ScanComplete and ScanSound) |
| Classifier.Classify | main.cpp:52-67 | the branch ProcessFile takes on a line: the quoted pattern is tried first, then the angle pattern, otherwise the line is plain (characterised by ClassifyQuoted, ClassifyAngle and ClassifyPlain) |
| Classifier.Form | main.cpp:35-36 | the language of a pattern with delimiters `open`/`close` capturing `body`: `close` is not in `body`, and the line is `w1 # w2 include w3 <open> body <close> w4` with `w1`…`w4` whitespace runs |
| Classifier.ScanComplete | main.cpp:35-36 | every line of the form `w1 # w2 include w3 <open> body <close> w4`, with whitespace runs `w1`…`w4` and no closing delimiter in `body`, is matched and `body` is captured |
| Classifier.ScanSound | main.cpp:35-36 | a line the scanner matches with capture `body` is in the pattern's language with that `body`, which holds no closing delimiter |
| Classifier.ScanOtherDelimiter | main.cpp:52-61 | a directive that opens with one delimiter is rejected by the pattern for the other, so an angle include is never taken for a quoted one |
| Classifier.ClassifyQuoted | main.cpp:52-53 | a line is a quoted include of `p` if and only if the whole line matches `\s*#\s*include\s*"([^"]*)"\s*` capturing `p` |
| Classifier.ClassifyAngle | main.cpp:61-62 | a line is an angle include of `n` if and only if it matches the angle pattern capturing `n` (it cannot also match the quoted one) |
| Classifier.ClassifyPlain | main.cpp:67-68 | a line is plain content if and only if it matches neither pattern with any capture |
| Classifier.TextBeforeHashIsPlain | main.cpp:35-36 | matching is anchored: a line whose first non-blank character is not `#` is plain |
| Classifier.TargetHasNoCloser | main.cpp:53 | the captured path never contains `"`, and the captured name never contains `>` |
| Classifier.NoSpaceBeforeDelimiter | main.cpp:108 | `#   include<dummy.txt>` is an angle include of `dummy.txt`: whitespace before the delimiter is optional |
| Classifier.MidLineDirectiveIsPlain | main.cpp:52-68 | a directive after code on the same line is not recognised, so the line is plain |
| Classifier.SkipSpaceStops | main.cpp:35-36 | `\s*` consumes whitespace only and stops at the end or at a non-whitespace character |
| Strings.FindStops | main.cpp:35-36 | `[^"]*` and `[^>]*` consume non-delimiters only and stop at the end or at the first delimiter |
| LineReader.GetLine | main.cpp:45-47 | one `getline`: the text holds no line feed, the read is "end of stream and empty" exactly when nothing is left, text, consumed line feed and remainder make up the input, and a read that hits the end of the stream takes everything left, so the read is determined |
| LineReader.Lines | main.cpp:44-49 | the lines the read loop sees: `getline` repeated until a read hits the end of the stream without text (properties in LinesHaveNoLineFeeds, UnlinesLines, LinesUnterminated and LinesUnlines) |
| LineReader.LinesHaveNoLineFeeds | main.cpp:46 | no line the loop reads contains a line feed |
| LineReader.UnlinesLines | main.cpp:44-49 | writing every line read followed by a line feed reproduces the file, with a line feed added only when the last line lacked one; a final line feed does not produce an extra empty line |
| LineReader.LinesUnterminated | main.cpp:44-49 | a last line without a trailing line feed is still read, as the final line |
| LineReader.LinesUnlines | main.cpp:44-49 | lines written one per line are read back unchanged |
| LineReader.Unlines | main.cpp:68 | the text `out << str << endl` leaves for a sequence of lines: each line followed by a line feed, in order (UnlinesSnoc, UnlinesLines, LinesUnlines) |
| LineReader.UnlinesSnoc | main.cpp:68 | writing one more line appends it and a line feed to the text |
| Paths.Join | main.cpp:26 | `dir / name`: an absolute name replaces `dir`; otherwise one separator joins them, none being added after an empty `dir` or one ending in `/` |
| Paths.Parent | main.cpp:54 | `parent_path()`: everything before the last separator, `/` for a file in the root, empty with no separator (ParentOfJoin) |
| Paths.LastSlash | main.cpp:54 | the position of the last separator: every character after it is not `/` |
| Paths.ParentOfJoin | main.cpp:54 | the parent of `dir / name`, for a simple name, is `dir` |
| Expansion.ExpandFile | main.cpp:34-74 | what ProcessFile on a path returns, writes and reports: Failed with nothing written when it cannot be opened, otherwise its read loop from line 1; Exhausted when the nesting bound is spent (FileFailureReported, PlainFileCopied, ExpandFileFuel) |
| Expansion.ExpandLines | main.cpp:44-71 | the read loop over a file's lines from line `n`: each line in turn, stopping at the first that does not succeed (ExpandLinesAppend, FailureReported, PlainLinesCopied) |
| Expansion.ExpandLine | main.cpp:51-69 | one pass of the loop: a plain line is written; an include is resolved over its candidates, and when that fails the diagnostic is printed after what the attempts wrote (QuotedLine, AngleLine, LineFailureReported) |
| Expansion.TryEach | main.cpp:24-32 | expanding candidates in order until one does not fail, keeping what the failed ones wrote; Failed when none is left (TryEachFirst, TryEachFails) |
| Expansion.SearchCandidates | main.cpp:25-26 | `dir / name` for each search directory, in the directories' order |
| Expansion.Candidates | main.cpp:53-63 | the paths an include is tried against: for a quoted include `parent(file) / path` and then the search candidates, for an angle include the search candidates only (RelativeFirst, AngleSearchOnly) |
| Expansion.Parse | main.cpp:39-41 | the files the read loop can open are exactly the files of the file system |
| Expansion.ClassifiedAt | main.cpp:51-61 | entry `i` of a file as the loop sees it is line `i` together with its classification |
| Expansion.ParseAt | main.cpp:44-61 | line `i` of a file on disk is entry `i` of that file as the read loop sees it |
| Expansion.TryEachFirst | main.cpp:24-32 | candidates are tried in list order; the first whose expansion does not fail decides the outcome, after what the failed ones wrote |
| Expansion.TryEachFails | main.cpp:24-32 | resolution fails if and only if every candidate fails, in particular when there is none, and then everything the attempts wrote and reported stays |
| Expansion.RelativeFirst | main.cpp:53-56 | a quoted include tries `parent(file) / path` first; the search directories are consulted only if that returns false, after what it wrote |
| Expansion.QuotedLine | main.cpp:52-60 | a quoted include line's outcome: the relative attempt's, else the search's, else failure with the diagnostic `(path, file, line)` printed last |
| Expansion.AngleLine | main.cpp:61-66 | an angle include line's outcome: the search directories', else failure with the diagnostic `(name, file, line)` printed last |
| Expansion.AngleSearchOnly | main.cpp:61-66 | an angle include never tries the including file's directory: it succeeds with the first search directory whose file expands without failing, after what the earlier, failed ones wrote |
| Expansion.ExpandLinesAppend | main.cpp:44-71 | lines are expanded in document order, the numbering continues across, and nothing after a line that does not succeed is looked at |
| Expansion.IncludeInlined | main.cpp:52-60 | an include that resolves is replaced in place by what resolving it writes: the partial output of the candidates that failed, then the full expansion of the one that succeeded; what came before stays before it and the rest of the file follows |
| Expansion.PlainLinesCopied | main.cpp:67-68 | a run of plain lines is copied verbatim, in order, with no diagnostic |
| Expansion.TextsClassified | main.cpp:51-68 | classifying lines keeps their text, so copying them copies the lines read |
| Expansion.PlainFileCopied | main.cpp:44-69 | a file without include lines succeeds with no diagnostic and writes its text, plus a final line feed if it lacked one |
| Expansion.FailureReported | main.cpp:44-71 | when the loop fails it failed on one line: every line before it succeeded, that line failed, and the run is exactly those lines followed by that one |
| Expansion.LineFailureReported | main.cpp:55-65 | a line that does not succeed is an include none of whose candidates succeeded; if it failed, its last diagnostic is `(name as written, file, line)` |
| Expansion.FileFailureReported | main.cpp:39-70 | a failed file either could not be opened and wrote and reported nothing, or its last report names one of its own include lines, with the literal as written, whose every candidate failed |
| Expansion.ExpandFileFuel | main.cpp:34-74 | a run that does not run out of nesting depth gives the same result under any larger depth bound |
| Expansion.ExpandLinesFuel | main.cpp:44-71 | the same, for the read loop over a file's lines |
| Expansion.ExpandLineFuel | main.cpp:51-69 | the same, for one line |
| Expansion.TryEachFuel | main.cpp:24-32 | the same, for resolution over a list of candidates |
| Preprocessor.OutFile.WriteLine | main.cpp:68 | `out << str << endl` appends the line, and the file's text grows by the line and a line feed |
| Preprocessor.OutFile.Truncate | main.cpp:81 | opening the output stream empties the output file |
| Preprocessor.Console.PrintProcessError | main.cpp:19-21 | the report `(file, in_file, line)` is appended to standard output after everything printed before |
| Preprocessor.ProcessDirectories | main.cpp:24-32 | returns, writes and reports exactly what resolution over `dir / name` for each search directory in order gives, after the earlier output; with no directories it returns false and changes nothing |
| Preprocessor.ProcessFile | main.cpp:34-74 | returns, appends to the shared output and reports exactly the file's expansion; a file that cannot be opened returns false and changes nothing |
| Preprocessor.ProcessLine | main.cpp:51-70 | one pass of the read loop appends exactly that line's expansion: copy, relative-then-search, or search only, and the report when resolution fails |
| Preprocessor.Preprocess | main.cpp:76-84 | an unopenable root returns false and leaves the output file and the console alone; otherwise the output file holds exactly the root's expansion and the result is `ProcessFile`'s |
| Scenario.QuotedInclude | main.cpp:102 | `#include "q"` is a quoted include of `q` |
| Scenario.AngleInclude | main.cpp:120 | `#include <n>`, with or without blanks before the delimiter, is an angle include of `n` |
| Scenario.ClassifiedA | main.cpp:101-109 | `sources/a.cpp` reads as nine lines: includes at lines 2, 4 (quoted) and 8 (angle), the rest plain |
| Scenario.ClassifiedB | main.cpp:113-115 | `sources/dir1/b.h`, which has no final line feed, reads as three lines with the quoted include in the middle |
| Scenario.ClassifiedC | main.cpp:119-121 | `sources/dir1/subdir/c.h` reads as three lines with an angle include of `std1.h` in the middle |
| Scenario.ClassifiedD | main.cpp:125-127 | `sources/dir1/d.h` reads as three lines with a quoted include of `lib/std2.h` in the middle |
| Scenario.FixtureParsed | main.cpp:99-136 | the files the test writes are seen by the read loop as described, and the paths probed in vain are absent |
| Scenario.ExpandC | main.cpp:119-121 | c.h expands with `std1.h` taken from the first search directory |
| Scenario.ExpandB | main.cpp:113-115 | b.h expands with `subdir/c.h` resolved next to b.h, and its unterminated last line is written with a line feed |
| Scenario.SearchStd2 | main.cpp:134-135 | `lib/std2.h` is not under the first search directory and is found under the second |
| Scenario.ExpandD | main.cpp:125-127 | d.h expands with `lib/std2.h` found neither next to d.h nor in the first search directory, but in the second |
| Scenario.SearchDummy | main.cpp:108 | neither search directory holds `dummy.txt` |
| Scenario.LineA8 | main.cpp:108 | line 8 of a.cpp fails, writes nothing and reports `("dummy.txt", "sources/a.cpp", 8)` |
| Scenario.ExpandA | main.cpp:138-154 | a.cpp fails after writing exactly the expected thirteen lines, with the one report for line 8; line 9 is never written |
| Scenario.TestOutcome | main.cpp:138-156 | on the test's file system, with nesting depth four or more, the root's expansion is that failure |
| Scenario.RunTest | main.cpp:92-157 | `Preprocess` on the test's files returns false, the output file holds exactly the expected lines, and the single report is dummy.txt at line 8 of a.cpp |

## Left out

- The `std::regex` engine. The two patterns are decided by a scanner that is proved to accept exactly their language; `\s` is space, tab, line feed, carriage return, vertical tab and form feed.
- `std::filesystem::path` semantics beyond `/` and `parent_path()` on `/`-separated strings: normalisation, repeated separators, root names, and paths that are the same file under different spellings.
- Stream mechanics: `ifstream`/`ofstream` state, buffering and read errors. A file opens exactly when its path is a key of the map, and reading it yields its contents.
- Running out of file descriptors. Each nesting level keeps its `ifstream` open (`main.cpp:39`) and `Preprocess` keeps one more (`main.cpp:77`), so in the program an open also fails once the process's open-file limit is reached. "Opens exactly when its path is a key" does not capture this: a chain of roughly a thousand nested includes fails in the program with diagnostics, but is `Exhausted` or succeeds in the model, depending on `fuel`.
- The wording of the message `PrintProcessError` prints. The report is kept as the value `(name, including file, line)`.
- Aliasing between the output file and an input file. The output is a separate object, so a run that writes to a file it also reads is not modelled.
- Cycles, stack overflow and the open-file limit at depth. Nesting is bounded by `fuel`; running out is the status `Exhausted`, which aborts the run rather than counting as a failure that would be retried, whether the program would crash or fail with diagnostics at that depth.
- `GetFileContents`, the `_p` literal and `main` (main.cpp:15-17, 86-90, 159-161). They are disk I/O and fixture scaffolding.
- `Test()`'s file creation (`remove_all`, `create_directories`). The test's starting state is the predicate `TestFiles`.
- Scenario.RunTest: the test compares the output file's text with one string. The model states the output as the list of lines written, and the file's text is `Unlines` of those lines (`OutFile.Contents`).
- Line numbers are unbounded naturals, not `int`: a file of more than 2^31 − 1 lines would overflow the counter at main.cpp:37.
