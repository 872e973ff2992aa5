/**
 * The expander itself, as main.cpp runs it: ProcessFile reads a file line by
 * line and writes to one output stream shared by every nested call,
 * ProcessDirectories walks the search directories, and Preprocess opens the
 * root file and the output. Each method is proved to do exactly what the
 * reference semantics of module Expansion says, on the files as the read
 * loop sees them (`src`, which `Parsed` ties to the file system).
 */
module Preprocessor {

  import opened Classifier
  import opened LineReader
  import opened Paths
  import opened Expansion

  /** The output file: every line written so far, each followed by a line feed on disk. */
  class OutFile {
    var lines: seq<string>

    /** What the file holds. */
    function Contents(): string
      reads this
    {
      Unlines(lines)
    }

    constructor ()
      ensures lines == []
    {
      lines := [];
    }

    /** `out << s << endl`: one more line, after everything written before. */
    method WriteLine(s: string)
      modifies this
      ensures lines == old(lines) + [s]
      ensures Contents() == old(Contents()) + s + "\n"
    {
      UnlinesSnoc(lines, s);
      lines := lines + [s];
    }

    /** Opening an `ofstream` on the file empties it. */
    method Truncate()
      modifies this
      ensures lines == [] && Contents() == ""
    {
      lines := [];
    }
  }

  /** Standard output, as far as the expander uses it: the diagnostics printed, in order. */
  class Console {
    var reports: seq<Diagnostic>

    constructor ()
      ensures reports == []
    {
      reports := [];
    }

    /** PrintProcessError (main.cpp:19-21): one report naming the include as written, the including file and the line. */
    method PrintProcessError(file: string, inFile: Path, line: nat)
      modifies this
      ensures reports == old(reports) + [Diagnostic(file, inFile, line)]
    {
      reports := reports + [Diagnostic(file, inFile, line)];
    }
  }

  lemma AppendAssociative<T>(a: seq<T>, b: seq<T>, c: seq<T>)
    ensures a + b + c == a + (b + c)
  {
  }

  /**
   * ProcessDirectories (main.cpp:24-32): expand `dir / name` for each search
   * directory in turn and stop at the first that succeeds. What the failed
   * attempts wrote stays in the output.
   */
  method ProcessDirectories(name: string, out: OutFile, console: Console, fs: FileSystem, ghost src: Sources, dirs: seq<Path>, fuel: nat)
      returns (st: Status)
    requires Parsed(src, fs)
    modifies out, console
    ensures var t := TryEach(src, dirs, SearchCandidates(dirs, name), fuel);
            && st == t.status
            && out.lines == old(out.lines) + t.out
            && console.reports == old(console.reports) + t.diags
    ensures dirs == [] ==> st == Failed && out.lines == old(out.lines) && console.reports == old(console.reports)
    decreases fuel, 2
  {
    ghost var cands := SearchCandidates(dirs, name);
    ghost var done: seq<string> := [];
    ghost var doneDiags: seq<Diagnostic> := [];
    var i := 0;
    while i < |dirs|
      invariant 0 <= i <= |dirs|
      invariant out.lines == old(out.lines) + done
      invariant console.reports == old(console.reports) + doneDiags
      invariant TryEach(src, dirs, cands, fuel) == Then(Trace(Failed, done, doneDiags), TryEach(src, dirs, cands[i..], fuel))
    {
      assert cands[i..][0] == Join(dirs[i], name) && cands[i..][1..] == cands[i + 1..];
      ghost var r := ExpandFile(src, dirs, Join(dirs[i], name), fuel);
      ghost var out0, rep0 := out.lines, console.reports;
      st := ProcessFile(Join(dirs[i], name), out, console, fs, src, dirs, fuel);
      AppendAssociative(old(out.lines), done, r.out);
      AppendAssociative(old(console.reports), doneDiags, r.diags);
      if st != Failed {
        return;
      }
      ThenAssociative(Trace(Failed, done, doneDiags), r, TryEach(src, dirs, cands[i + 1..], fuel));
      done, doneDiags := done + r.out, doneDiags + r.diags;
      i := i + 1;
    }
    assert cands[i..] == [];
    st := Failed;
  }

  /**
   * ProcessFile (main.cpp:34-74). A file that cannot be opened fails with
   * nothing written. Otherwise its lines are read and handled in turn until
   * the end of the file, or until a line does not succeed.
   */
  method ProcessFile(inFile: Path, out: OutFile, console: Console, fs: FileSystem, ghost src: Sources, dirs: seq<Path>, fuel: nat)
      returns (st: Status)
    requires Parsed(src, fs)
    modifies out, console
    ensures var t := ExpandFile(src, dirs, inFile, fuel);
            && st == t.status
            && out.lines == old(out.lines) + t.out
            && console.reports == old(console.reports) + t.diags
    ensures fuel > 0 && inFile !in fs ==> st == Failed && out.lines == old(out.lines) && console.reports == old(console.reports)
    decreases fuel, 1
  {
    if fuel == 0 {
      return Exhausted;
    }
    if inFile !in fs {
      return Failed;
    }
    ghost var done: seq<string> := [];
    ghost var doneDiags: seq<Diagnostic> := [];
    var input := fs[inFile];
    assert src[inFile] == Classified(Lines(input));
    var line: nat := 1;
    while true
      invariant out.lines == old(out.lines) + done
      invariant console.reports == old(console.reports) + doneDiags
      invariant ExpandFile(src, dirs, inFile, fuel) ==
                Then(Trace(Succeeded, done, doneDiags), ExpandLines(src, dirs, inFile, Classified(Lines(input)), line, fuel))
      decreases |input|
    {
      var r := GetLine(input);
      if r.eof && r.text == [] {
        return Succeeded;
      }
      ReadStep(input);
      var k := Classify(r.text);
      ghost var rest := ExpandLines(src, dirs, inFile, Classified(Lines(r.remaining)), line + 1, fuel);
      ghost var h := ExpandLine(src, dirs, inFile, Entry(r.text, k), line, fuel);
      ExpandLinesCons(src, dirs, inFile, Entry(r.text, k), Classified(Lines(r.remaining)), line, fuel);
      ThenAssociative(Trace(Succeeded, done, doneDiags), h, rest);
      ghost var out0, rep0 := out.lines, console.reports;
      st := ProcessLine(inFile, r.text, k, line, out, console, fs, src, dirs, fuel);
      assert out.lines == out0 + h.out;
      assert console.reports == rep0 + h.diags;
      AppendAssociative(old(out.lines), done, h.out);
      AppendAssociative(old(console.reports), doneDiags, h.diags);
      done, doneDiags := done + h.out, doneDiags + h.diags;
      if st != Succeeded {
        return;
      }
      line := line + 1;
      input := r.remaining;
    }
  }

  /**
   * One pass of the read loop of ProcessFile (main.cpp:51-69) on line `line`
   * of `inFile`, whose text is `text` and whose classification is `k`: a
   * plain line is copied; a quoted include is expanded from the including
   * file's directory and, when that returns false, from the search
   * directories; an angle include only from the search directories. An
   * include that cannot be resolved is reported.
   */
  method ProcessLine(inFile: Path, text: string, k: LineKind, line: nat, out: OutFile, console: Console,
                     fs: FileSystem, ghost src: Sources, dirs: seq<Path>, fuel: nat)
      returns (st: Status)
    requires fuel > 0 && Parsed(src, fs)
    modifies out, console
    ensures var h := ExpandLine(src, dirs, inFile, Entry(text, k), line, fuel);
            && st == h.status
            && out.lines == old(out.lines) + h.out
            && console.reports == old(console.reports) + h.diags
    decreases fuel, 0
  {
    ghost var out0, rep0 := out.lines, console.reports;
    if k.Plain? {
      out.WriteLine(text);
      return Succeeded;
    }
    var name := Target(k).value;
    ghost var search := TryEach(src, dirs, SearchCandidates(dirs, name), fuel - 1);
    if k.Quoted? {
      QuotedLine(src, dirs, inFile, text, name, line, fuel);
      ghost var rel := ExpandFile(src, dirs, Join(Parent(inFile), name), fuel - 1);
      st := ProcessFile(Join(Parent(inFile), name), out, console, fs, src, dirs, fuel - 1);
      if st != Failed {
        return;
      }
      st := ProcessDirectories(name, out, console, fs, src, dirs, fuel - 1);
      AppendAssociative(out0, rel.out, search.out);
      AppendAssociative(rep0, rel.diags, search.diags);
      if st == Failed {
        console.PrintProcessError(name, inFile, line);
        AppendAssociative(rep0, rel.diags + search.diags, [Diagnostic(name, inFile, line)]);
      }
    } else {
      AngleLine(src, dirs, inFile, text, name, line, fuel);
      st := ProcessDirectories(name, out, console, fs, src, dirs, fuel - 1);
      if st == Failed {
        console.PrintProcessError(name, inFile, line);
        AppendAssociative(rep0, search.diags, [Diagnostic(name, inFile, line)]);
      }
    }
  }

  /**
   * Preprocess (main.cpp:76-84): when the root file cannot be opened, fail
   * and leave the output file alone; otherwise empty the output file and
   * expand the root into it.
   */
  method Preprocess(inFile: Path, outFile: OutFile, console: Console, fs: FileSystem, dirs: seq<Path>, fuel: nat)
      returns (st: Status)
    modifies outFile, console
    ensures inFile !in fs ==> st == Failed && outFile.lines == old(outFile.lines) && console.reports == old(console.reports)
    ensures inFile in fs ==>
              var t := ExpandFile(Parse(fs), dirs, inFile, fuel);
              && st == t.status
              && outFile.lines == t.out
              && console.reports == old(console.reports) + t.diags
  {
    if inFile !in fs {
      return Failed;
    }
    outFile.Truncate();
    ParseParsed(fs);
    st := ProcessFile(inFile, outFile, console, fs, Parse(fs), dirs, fuel);
  }
}
