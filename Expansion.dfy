/**
 * What one run of the expander produces, as functions of the file system:
 * the reference semantics that the methods of module Preprocessor are
 * proved against, and the properties of that semantics.
 *
 * The file system is a map from paths to contents (a path that is not a key
 * cannot be opened). ProcessFile recurses without any cycle check and keeps
 * each level's input stream open, so on a cyclic or very deep include chain
 * main.cpp fails on whichever resource runs out first: the stack, or the
 * open-file limit (an open that fails makes that level return false). Here
 * every nested ProcessFile spends one unit of `fuel`, and running out yields
 * `Exhausted`, which stands for the run being aborted at that depth, whatever
 * the program does there.
 */
module Expansion {

  import opened Classifier
  import opened LineReader
  import opened Paths

  type FileSystem = map<Path, string>

  /** Succeeded and Failed are main.cpp's `true` and `false`; Exhausted stands for the stack overflow. */
  datatype Status = Succeeded | Failed | Exhausted

  /** What PrintProcessError reports: the name as written, the including file, the 1-based line. */
  datatype Diagnostic = Diagnostic(file: string, inFile: Path, line: nat)

  /** The result of an expansion: its status, the lines written to the output, the diagnostics printed. */
  datatype Trace = Trace(status: Status, out: seq<string>, diags: seq<Diagnostic>)

  /** `t`'s writes followed by `u`'s; the status is `u`'s. */
  function Then(t: Trace, u: Trace): Trace
  {
    Trace(u.status, t.out + u.out, t.diags + u.diags)
  }

  /** A line read from a file together with its classification. */
  datatype Entry = Entry(text: string, kind: LineKind)

  /** Each line paired with what the classifier makes of it. */
  function Classified(lines: seq<string>): (r: seq<Entry>)
    ensures |r| == |lines|
  {
    if lines == [] then [] else [Entry(lines[0], Classify(lines[0]))] + Classified(lines[1..])
  }

  /** The text of each entry, in order. */
  function Texts(entries: seq<Entry>): (r: seq<string>)
    ensures |r| == |entries|
    ensures forall i :: 0 <= i < |entries| ==> r[i] == entries[i].text
  {
    seq(|entries|, i requires 0 <= i < |entries| => entries[i].text)
  }

  /** Entry `i` holds line `i` and its classification. */
  lemma {:induction false} ClassifiedAt(lines: seq<string>, i: nat)
    requires i < |lines|
    ensures Classified(lines)[i] == Entry(lines[i], Classify(lines[i]))
  {
    if i > 0 {
      ClassifiedAt(lines[1..], i - 1);
    }
  }

  /** The files as the read loop sees them: each one's lines, classified. */
  type Sources = map<Path, seq<Entry>>

  function Parse(fs: FileSystem): (src: Sources)
    ensures src.Keys == fs.Keys
  {
    map p | p in fs :: Classified(Lines(fs[p]))
  }

  /** `src` holds the classified lines of exactly the files of `fs`. */
  ghost predicate Parsed(src: Sources, fs: FileSystem)
  {
    src.Keys == fs.Keys &&
    forall p {:trigger Lines(fs[p])} :: p in fs ==> src[p] == Classified(Lines(fs[p]))
  }

  lemma ParseParsed(fs: FileSystem)
    ensures Parsed(Parse(fs), fs)
  {
  }

  /** One read of the loop: the first line comes off the front of what remains, classified. */
  lemma ReadStep(rest: string)
    ensures var r := GetLine(rest);
            !(r.eof && r.text == []) ==>
              Classified(Lines(rest)) == [Entry(r.text, Classify(r.text))] + Classified(Lines(r.remaining))
  {
  }

  /** The candidate `dir / name` for each search directory, in order (main.cpp:25-26). */
  function SearchCandidates(dirs: seq<Path>, name: string): seq<Path>
  {
    seq(|dirs|, i requires 0 <= i < |dirs| => Join(dirs[i], name))
  }

  /**
   * The paths an include is resolved against, in the order they are tried:
   * for a quoted include the including file's directory and then the search
   * directories (main.cpp:54-56), for an angle include only the search
   * directories (main.cpp:63).
   */
  function Candidates(inFile: Path, dirs: seq<Path>, k: LineKind): seq<Path>
    requires !k.Plain?
  {
    match k
    case Quoted(q) => [Join(Parent(inFile), q)] + SearchCandidates(dirs, q)
    case Angle(n) => SearchCandidates(dirs, n)
  }

  /** ProcessFile (main.cpp:34-74) with `fuel` levels of nesting left. */
  function ExpandFile(src: Sources, dirs: seq<Path>, p: Path, fuel: nat): Trace
    decreases fuel, 1, 0
  {
    if fuel == 0 then Trace(Exhausted, [], [])
    else if p !in src then Trace(Failed, [], [])
    else ExpandLines(src, dirs, p, src[p], 1, fuel)
  }

  /** The read loop of ProcessFile over `lines`, the first of which is line `n` of `p`: it stops at the first line that does not succeed. */
  function ExpandLines(src: Sources, dirs: seq<Path>, p: Path, lines: seq<Entry>, n: nat, fuel: nat): Trace
    requires fuel > 0
    decreases fuel, 0, |lines|
  {
    if lines == [] then Trace(Succeeded, [], [])
    else
      var h := ExpandLine(src, dirs, p, lines[0], n, fuel);
      if h.status == Succeeded then Then(h, ExpandLines(src, dirs, p, lines[1..], n + 1, fuel)) else h
  }

  /**
   * One pass of the read loop on line `n` of `p` (main.cpp:51-69): a plain
   * line is copied; an include is resolved, and when that fails the
   * diagnostic is printed after whatever the failed attempts wrote.
   */
  function ExpandLine(src: Sources, dirs: seq<Path>, p: Path, line: Entry, n: nat, fuel: nat): Trace
    requires fuel > 0
    decreases fuel, 0, 0
  {
    var k := line.kind;
    if k.Plain? then Trace(Succeeded, [line.text], [])
    else
      var r := TryEach(src, dirs, Candidates(p, dirs, k), fuel - 1);
      if r.status == Failed then Then(r, Trace(Failed, [], [Diagnostic(Target(k).value, p, n)])) else r
  }

  /**
   * Expanding each candidate in turn until one does not fail
   * (ProcessDirectories, main.cpp:24-32, with the relative attempt of a
   * quoted include in front). A failed attempt keeps what it wrote.
   */
  function TryEach(src: Sources, dirs: seq<Path>, cands: seq<Path>, fuel: nat): Trace
    decreases fuel, 2, |cands|
  {
    if cands == [] then Trace(Failed, [], [])
    else
      var r := ExpandFile(src, dirs, cands[0], fuel);
      if r.status == Failed then Then(r, TryEach(src, dirs, cands[1..], fuel)) else r
  }

  /** Everything the attempts on `cands` write, in order. */
  function AllOut(src: Sources, dirs: seq<Path>, cands: seq<Path>, fuel: nat): seq<string>
  {
    if cands == [] then [] else ExpandFile(src, dirs, cands[0], fuel).out + AllOut(src, dirs, cands[1..], fuel)
  }

  /** Everything the attempts on `cands` report, in order. */
  function AllDiags(src: Sources, dirs: seq<Path>, cands: seq<Path>, fuel: nat): seq<Diagnostic>
  {
    if cands == [] then [] else ExpandFile(src, dirs, cands[0], fuel).diags + AllDiags(src, dirs, cands[1..], fuel)
  }

  lemma ThenAssociative(s: Trace, t: Trace, u: Trace)
    ensures Then(Then(s, t), u) == Then(s, Then(t, u))
  {
    assert (s.out + t.out) + u.out == s.out + (t.out + u.out);
    assert (s.diags + t.diags) + u.diags == s.diags + (t.diags + u.diags);
  }

  // ---------------------------------------------------------------------
  // Resolution order

  /** The first candidate whose expansion does not fail decides the outcome; the failed ones before it keep what they wrote. */
  lemma {:induction false} TryEachFirst(src: Sources, dirs: seq<Path>, cands: seq<Path>, fuel: nat, k: nat)
    requires k < |cands|
    requires forall j :: 0 <= j < k ==> ExpandFile(src, dirs, cands[j], fuel).status == Failed
    requires ExpandFile(src, dirs, cands[k], fuel).status != Failed
    ensures TryEach(src, dirs, cands, fuel) ==
              Then(Trace(Failed, AllOut(src, dirs, cands[..k], fuel), AllDiags(src, dirs, cands[..k], fuel)),
                   ExpandFile(src, dirs, cands[k], fuel))
  {
    if k > 0 {
      TryEachFirst(src, dirs, cands[1..], fuel, k - 1);
      assert cands[1..][..k - 1] == cands[..k][1..];
      var r := ExpandFile(src, dirs, cands[0], fuel);
      var pre := Trace(Failed, AllOut(src, dirs, cands[1..][..k - 1], fuel), AllDiags(src, dirs, cands[1..][..k - 1], fuel));
      ThenAssociative(r, pre, ExpandFile(src, dirs, cands[k], fuel));
    }
  }

  /** Resolution fails exactly when every candidate fails, and then everything the attempts wrote stays. */
  lemma {:induction false} TryEachFails(src: Sources, dirs: seq<Path>, cands: seq<Path>, fuel: nat)
    ensures TryEach(src, dirs, cands, fuel).status == Failed <==>
              forall j :: 0 <= j < |cands| ==> ExpandFile(src, dirs, cands[j], fuel).status == Failed
    ensures TryEach(src, dirs, cands, fuel).status == Failed ==>
              TryEach(src, dirs, cands, fuel) ==
              Trace(Failed, AllOut(src, dirs, cands, fuel), AllDiags(src, dirs, cands, fuel))
    decreases |cands|
  {
    if cands != [] {
      TryEachFails(src, dirs, cands[1..], fuel);
      assert forall j :: 1 <= j < |cands| ==> cands[1..][j - 1] == cands[j];
    }
  }

  /**
   * A quoted include is first resolved against the including file's
   * directory; the search directories are consulted only when that attempt
   * returns false, after what it wrote.
   */
  lemma RelativeFirst(src: Sources, dirs: seq<Path>, p: Path, q: string, fuel: nat)
    ensures var rel := ExpandFile(src, dirs, Join(Parent(p), q), fuel);
            TryEach(src, dirs, Candidates(p, dirs, Quoted(q)), fuel) ==
              if rel.status == Failed then Then(rel, TryEach(src, dirs, SearchCandidates(dirs, q), fuel)) else rel
  {
    var cands := Candidates(p, dirs, Quoted(q));
    assert cands[0] == Join(Parent(p), q) && cands[1..] == SearchCandidates(dirs, q);
  }

  /**
   * A quoted include line: the relative attempt decides unless it returns
   * false; then the search directories decide, after what the relative
   * attempt wrote; when both fail the diagnostic comes last.
   */
  lemma QuotedLine(src: Sources, dirs: seq<Path>, p: Path, text: string, q: string, n: nat, fuel: nat)
    requires fuel > 0
    ensures var rel := ExpandFile(src, dirs, Join(Parent(p), q), fuel - 1);
            var search := TryEach(src, dirs, SearchCandidates(dirs, q), fuel - 1);
            ExpandLine(src, dirs, p, Entry(text, Quoted(q)), n, fuel) ==
              if rel.status != Failed then rel
              else if search.status != Failed then Then(rel, search)
              else Trace(Failed, rel.out + search.out, rel.diags + search.diags + [Diagnostic(q, p, n)])
  {
    RelativeFirst(src, dirs, p, q, fuel - 1);
    var rel := ExpandFile(src, dirs, Join(Parent(p), q), fuel - 1);
    var search := TryEach(src, dirs, SearchCandidates(dirs, q), fuel - 1);
    assert rel.out + search.out + [] == rel.out + search.out;
  }

  /** An angle include line: the search directories decide; when they fail the diagnostic comes last. */
  lemma AngleLine(src: Sources, dirs: seq<Path>, p: Path, text: string, name: string, n: nat, fuel: nat)
    requires fuel > 0
    ensures var search := TryEach(src, dirs, SearchCandidates(dirs, name), fuel - 1);
            ExpandLine(src, dirs, p, Entry(text, Angle(name)), n, fuel) ==
              if search.status != Failed then search
              else Trace(Failed, search.out, search.diags + [Diagnostic(name, p, n)])
  {
    var search := TryEach(src, dirs, SearchCandidates(dirs, name), fuel - 1);
    assert search.out + [] == search.out;
  }

  /** An angle include goes straight to the search directories, in their order. */
  lemma {:induction false} AngleSearchOnly(src: Sources, dirs: seq<Path>, p: Path, name: string, fuel: nat, i: nat)
    requires i < |dirs|
    requires forall j :: 0 <= j < i ==> ExpandFile(src, dirs, Join(dirs[j], name), fuel).status == Failed
    requires ExpandFile(src, dirs, Join(dirs[i], name), fuel).status == Succeeded
    ensures TryEach(src, dirs, Candidates(p, dirs, Angle(name)), fuel).status == Succeeded
    ensures TryEach(src, dirs, Candidates(p, dirs, Angle(name)), fuel).out ==
              AllOut(src, dirs, SearchCandidates(dirs, name)[..i], fuel) + ExpandFile(src, dirs, Join(dirs[i], name), fuel).out
  {
    TryEachFirst(src, dirs, SearchCandidates(dirs, name), fuel, i);
  }

  // ---------------------------------------------------------------------
  // The read loop

  /** Lines are expanded in document order, and nothing after a line that fails is looked at. */
  lemma {:induction false} ExpandLinesAppend(src: Sources, dirs: seq<Path>, p: Path, a: seq<Entry>, b: seq<Entry>, n: nat, fuel: nat)
    requires fuel > 0
    ensures var ta := ExpandLines(src, dirs, p, a, n, fuel);
            ExpandLines(src, dirs, p, a + b, n, fuel) ==
              if ta.status == Succeeded then Then(ta, ExpandLines(src, dirs, p, b, n + |a|, fuel)) else ta
    decreases |a|
  {
    if a == [] {
      assert a + b == b;
    } else {
      assert (a + b)[0] == a[0] && (a + b)[1..] == a[1..] + b;
      ExpandLinesAppend(src, dirs, p, a[1..], b, n + 1, fuel);
      var h := ExpandLine(src, dirs, p, a[0], n, fuel);
      if h.status == Succeeded {
        ThenAssociative(h, ExpandLines(src, dirs, p, a[1..], n + 1, fuel), ExpandLines(src, dirs, p, b, n + |a|, fuel));
      }
    }
  }

  /**
   * An include that resolves is replaced in place by what resolving it
   * writes: the partial output of the candidates that failed, then the full
   * expansion of the one that succeeded. What comes before it stays before
   * it, and the rest of the file follows.
   */
  lemma {:induction false} IncludeInlined(src: Sources, dirs: seq<Path>, p: Path, before: seq<Entry>, line: Entry, after: seq<Entry>, n: nat, fuel: nat)
    requires fuel > 0 && !line.kind.Plain?
    requires ExpandLines(src, dirs, p, before, n, fuel).status == Succeeded
    requires TryEach(src, dirs, Candidates(p, dirs, line.kind), fuel - 1).status == Succeeded
    ensures var t := ExpandLines(src, dirs, p, before + [line] + after, n, fuel);
            var tail := ExpandLines(src, dirs, p, after, n + |before| + 1, fuel);
            && t.status == tail.status
            && t.out == ExpandLines(src, dirs, p, before, n, fuel).out
                        + TryEach(src, dirs, Candidates(p, dirs, line.kind), fuel - 1).out
                        + tail.out
  {
    ExpandLinesAppend(src, dirs, p, before, [line] + after, n, fuel);
    assert before + [line] + after == before + ([line] + after);
    ExpandLinesCons(src, dirs, p, line, after, n + |before|, fuel);
  }

  lemma ExpandLinesCons(src: Sources, dirs: seq<Path>, p: Path, line: Entry, after: seq<Entry>, n: nat, fuel: nat)
    requires fuel > 0
    ensures var h := ExpandLine(src, dirs, p, line, n, fuel);
            ExpandLines(src, dirs, p, [line] + after, n, fuel) ==
              if h.status == Succeeded then Then(h, ExpandLines(src, dirs, p, after, n + 1, fuel)) else h
  {
    assert ([line] + after)[0] == line && ([line] + after)[1..] == after;
  }

  /** A run of plain lines is copied verbatim, in order. */
  lemma {:induction false} PlainLinesCopied(src: Sources, dirs: seq<Path>, p: Path, lines: seq<Entry>, n: nat, fuel: nat)
    requires fuel > 0
    requires forall i :: 0 <= i < |lines| ==> lines[i].kind == Plain
    ensures ExpandLines(src, dirs, p, lines, n, fuel) == Trace(Succeeded, Texts(lines), [])
    decreases |lines|
  {
    if lines != [] {
      PlainLinesCopied(src, dirs, p, lines[1..], n + 1, fuel);
      assert [lines[0].text] + Texts(lines[1..]) == Texts(lines);
    }
  }

  /** Classifying lines keeps their text. */
  lemma TextsClassified(lines: seq<string>)
    ensures Texts(Classified(lines)) == lines
  {
    forall i | 0 <= i < |lines| ensures Texts(Classified(lines))[i] == lines[i] {
      ClassifiedAt(lines, i);
    }
  }

  /**
   * A file without include lines is copied with every line ending in a line
   * feed: its text unchanged, plus a final line feed if it lacked one.
   */
  lemma PlainFileCopied(fs: FileSystem, dirs: seq<Path>, p: Path, fuel: nat)
    requires fuel > 0 && p in fs
    requires forall i :: 0 <= i < |Lines(fs[p])| ==> Classify(Lines(fs[p])[i]) == Plain
    ensures ExpandFile(Parse(fs), dirs, p, fuel).status == Succeeded
    ensures ExpandFile(Parse(fs), dirs, p, fuel).diags == []
    ensures Unlines(ExpandFile(Parse(fs), dirs, p, fuel).out) == Terminated(fs[p])
  {
    var lines := Lines(fs[p]);
    var src := Parse(fs);
    assert src[p] == Classified(lines);
    forall i | 0 <= i < |lines| ensures Classified(lines)[i].kind == Plain {
      ClassifiedAt(lines, i);
    }
    PlainLinesCopied(src, dirs, p, Classified(lines), 1, fuel);
    TextsClassified(lines);
    UnlinesLines(fs[p]);
  }

  // ---------------------------------------------------------------------
  // Failure

  /**
   * When the read loop fails, it failed on one line `i`: every line before
   * it succeeded, and the run is those lines followed by line `i`, nothing
   * after it being processed.
   */
  lemma {:induction false} FailureReported(src: Sources, dirs: seq<Path>, p: Path, lines: seq<Entry>, n: nat, fuel: nat)
      returns (i: nat)
    requires fuel > 0
    requires ExpandLines(src, dirs, p, lines, n, fuel).status == Failed
    ensures i < |lines|
    ensures var before := ExpandLines(src, dirs, p, lines[..i], n, fuel);
            var h := ExpandLine(src, dirs, p, lines[i], n + i, fuel);
            && before.status == Succeeded && h.status == Failed
            && ExpandLines(src, dirs, p, lines, n, fuel) == Then(before, h)
    decreases |lines|
  {
    var h := ExpandLine(src, dirs, p, lines[0], n, fuel);
    assert lines == [lines[0]] + lines[1..];
    ExpandLinesCons(src, dirs, p, lines[0], lines[1..], n, fuel);
    if h.status == Succeeded {
      var j := FailureReported(src, dirs, p, lines[1..], n + 1, fuel);
      i := j + 1;
      var before := ExpandLines(src, dirs, p, lines[1..][..j], n + 1, fuel);
      ThenAssociative(h, before, ExpandLine(src, dirs, p, lines[i], n + i, fuel));
      assert lines[1..][j] == lines[i];
      assert lines[..i] == [lines[0]] + lines[1..][..j];
      ExpandLinesCons(src, dirs, p, lines[0], lines[1..][..j], n, fuel);
    } else {
      i := 0;
      assert lines[..0] == [];
    }
  }

  lemma LastOfAppend<T>(a: seq<T>, b: seq<T>)
    requires |b| > 0
    ensures (a + b)[|a + b| - 1] == b[|b| - 1]
  {
  }

  /** A line that fails is an include none of whose candidates succeeded, and its diagnostic comes last. */
  lemma LineFailureReported(src: Sources, dirs: seq<Path>, p: Path, line: Entry, n: nat, fuel: nat)
    requires fuel > 0
    requires ExpandLine(src, dirs, p, line, n, fuel).status != Succeeded
    ensures var t := ExpandLine(src, dirs, p, line, n, fuel);
            && !line.kind.Plain?
            && var r := TryEach(src, dirs, Candidates(p, dirs, line.kind), fuel - 1);
            && r.status != Succeeded
            && (t.status == Failed <==> r.status == Failed)
            && (t.status == Failed ==> |t.diags| > 0 && t.diags[|t.diags| - 1] == Diagnostic(Target(line.kind).value, p, n))
  {
  }

  /**
   * A file whose expansion fails either could not be opened, and then
   * nothing was written or reported, or it reported, last, an include of
   * its own that could not be resolved.
   */
  lemma FileFailureReported(src: Sources, dirs: seq<Path>, p: Path, fuel: nat)
    requires ExpandFile(src, dirs, p, fuel).status == Failed
    ensures var t := ExpandFile(src, dirs, p, fuel);
            if p !in src then t.out == [] && t.diags == []
            else
              && |t.diags| > 0
              && var d := t.diags[|t.diags| - 1];
              && d.inFile == p
              && 1 <= d.line <= |src[p]|
              && var k := src[p][d.line - 1].kind;
              && Target(k) == Some(d.file)
              && TryEach(src, dirs, Candidates(p, dirs, k), fuel - 1).status == Failed
  {
    if p in src {
      var i := FailureReported(src, dirs, p, src[p], 1, fuel);
      var h := ExpandLine(src, dirs, p, src[p][i], i + 1, fuel);
      LineFailureReported(src, dirs, p, src[p][i], i + 1, fuel);
      LastOfAppend(ExpandLines(src, dirs, p, src[p][..i], 1, fuel).diags, h.diags);
    }
  }

  /** Line `i` of a file is seen by the read loop as that line with its classification. */
  lemma ParseAt(fs: FileSystem, p: Path, i: nat)
    requires p in fs && i < |Lines(fs[p])|
    ensures p in Parse(fs) && |Parse(fs)[p]| == |Lines(fs[p])|
    ensures Parse(fs)[p][i] == Entry(Lines(fs[p])[i], Classify(Lines(fs[p])[i]))
  {
    ClassifiedAt(Lines(fs[p]), i);
  }

  // ---------------------------------------------------------------------
  // Fuel

  /** A run that does not run out of fuel gives the same result with any larger bound. */
  lemma {:induction false} ExpandFileFuel(src: Sources, dirs: seq<Path>, p: Path, f: nat, g: nat)
    requires f <= g
    requires ExpandFile(src, dirs, p, f).status != Exhausted
    ensures ExpandFile(src, dirs, p, g) == ExpandFile(src, dirs, p, f)
    decreases f, 1, 0
  {
    if p in src {
      ExpandLinesFuel(src, dirs, p, src[p], 1, f, g);
    }
  }

  lemma {:induction false} ExpandLinesFuel(src: Sources, dirs: seq<Path>, p: Path, lines: seq<Entry>, n: nat, f: nat, g: nat)
    requires 0 < f <= g
    requires ExpandLines(src, dirs, p, lines, n, f).status != Exhausted
    ensures ExpandLines(src, dirs, p, lines, n, g) == ExpandLines(src, dirs, p, lines, n, f)
    decreases f, 0, |lines|
  {
    if lines != [] {
      ExpandLineFuel(src, dirs, p, lines[0], n, f, g);
      if ExpandLine(src, dirs, p, lines[0], n, f).status == Succeeded {
        ExpandLinesFuel(src, dirs, p, lines[1..], n + 1, f, g);
      }
    }
  }

  lemma {:induction false} ExpandLineFuel(src: Sources, dirs: seq<Path>, p: Path, line: Entry, n: nat, f: nat, g: nat)
    requires 0 < f <= g
    requires ExpandLine(src, dirs, p, line, n, f).status != Exhausted
    ensures ExpandLine(src, dirs, p, line, n, g) == ExpandLine(src, dirs, p, line, n, f)
    decreases f, 0, 0
  {
    var k := line.kind;
    if !k.Plain? {
      TryEachFuel(src, dirs, Candidates(p, dirs, k), f - 1, g - 1);
    }
  }

  lemma {:induction false} TryEachFuel(src: Sources, dirs: seq<Path>, cands: seq<Path>, f: nat, g: nat)
    requires f <= g
    requires TryEach(src, dirs, cands, f).status != Exhausted
    ensures TryEach(src, dirs, cands, g) == TryEach(src, dirs, cands, f)
    decreases f, 2, |cands|
  {
    if cands != [] {
      ExpandFileFuel(src, dirs, cands[0], f, g);
      if ExpandFile(src, dirs, cands[0], f).status == Failed {
        TryEachFuel(src, dirs, cands[1..], f, g);
      }
    }
  }
}
