/**
 * The self-test of main.cpp (main.cpp:92-157) as a concrete file system:
 * `sources/a.cpp` includes two headers that resolve (one through a nested
 * quoted include and an angle include, one through the second search
 * directory) and finally `dummy.txt`, which resolves nowhere. Preprocess
 * therefore fails, after writing everything before that line, and reports
 * line 8 of `sources/a.cpp`.
 *
 * The include lines are written with Directive, which spells out the same
 * characters as the test's literals; the plain lines are the literals.
 */
module Scenario {

  import opened Classifier
  import opened LineReader
  import opened Paths
  import opened Expansion
  import opened Preprocessor

  const A: Path := "sources/a.cpp"
  const B: Path := "sources/dir1/b.h"
  const C: Path := "sources/dir1/subdir/c.h"
  const D: Path := "sources/dir1/d.h"
  const Std1: Path := "sources/include1/std1.h"
  const Std2: Path := "sources/include2/lib/std2.h"

  const Dirs: seq<Path> := ["sources/include1", "sources/include2"]

  /** `m` maps `p` to `v`. */
  predicate Maps<V(==)>(m: map<Path, V>, p: Path, v: V)
  {
    p in m && m[p] == v
  }

  /** `#include "q"` */
  function IncludeQuote(q: string): string
  {
    Directive("", "", " ", '"', q, '"', "")
  }

  /** `#<w2>include<w3><n>` */
  function IncludeAngle(w2: string, w3: string, n: string): string
  {
    Directive("", w2, w3, '<', n, '>', "")
  }

  const ALines: seq<string> := [
    "// this comment before include",
    IncludeQuote("dir1/b.h"),
    "// text between b.h and c.h",
    IncludeQuote("dir1/d.h"),
    "",
    "int SayHello() {",
    "    cout << \"hello, world!\" << endl;",
    IncludeAngle("   ", "", "dummy.txt"),
    "}"]
  const BLines: seq<string> := ["// text from b.h before include", IncludeQuote("subdir/c.h")]
  const BLast: string := "// text from b.h after include"
  const CLines: seq<string> := ["// text from c.h before include", IncludeAngle("", " ", "std1.h"), "// text from c.h after include"]
  const DLines: seq<string> := ["// text from d.h before include", IncludeQuote("lib/std2.h"), "// text from d.h after include"]

  /**
   * `fs` holds the files the test writes (b.h has no final line feed) and
   * none of the paths the run probes in vain; the test starts from an empty
   * `sources` directory.
   */
  predicate TestFiles(fs: FileSystem)
  {
    && Maps(fs, A, Unlines(ALines))
    && Maps(fs, B, Unlines(BLines) + BLast)
    && Maps(fs, C, Unlines(CLines))
    && Maps(fs, D, Unlines(DLines))
    && Maps(fs, Std1, Unlines(["// std1"]))
    && Maps(fs, Std2, Unlines(["// std2"]))
    && "sources/dir1/lib/std2.h" !in fs
    && "sources/include1/lib/std2.h" !in fs
    && "sources/include1/dummy.txt" !in fs
    && "sources/include2/dummy.txt" !in fs
  }

  /** The lines the test expects in `sources/a.in`. */
  const Expected: seq<string> := [
    "// this comment before include",
    "// text from b.h before include",
    "// text from c.h before include",
    "// std1",
    "// text from c.h after include",
    "// text from b.h after include",
    "// text between b.h and c.h",
    "// text from d.h before include",
    "// std2",
    "// text from d.h after include",
    "",
    "int SayHello() {",
    "    cout << \"hello, world!\" << endl;"]

  const AKinds: seq<LineKind> := [Plain, Quoted("dir1/b.h"), Plain, Quoted("dir1/d.h"), Plain, Plain, Plain, Angle("dummy.txt"), Plain]
  const BKinds: seq<LineKind> := [Plain, Quoted("subdir/c.h"), Plain]
  const CKinds: seq<LineKind> := [Plain, Angle("std1.h"), Plain]
  const DKinds: seq<LineKind> := [Plain, Quoted("lib/std2.h"), Plain]

  function Zip(lines: seq<string>, kinds: seq<LineKind>): (r: seq<Entry>)
    requires |lines| == |kinds|
    ensures |r| == |lines|
  {
    seq(|lines|, i requires 0 <= i < |lines| => Entry(lines[i], kinds[i]))
  }

  /** The files as the read loop sees them, and the paths the run probes that do not exist. */
  predicate Fixture(src: Sources)
  {
    && Maps(src, A, Zip(ALines, AKinds))
    && Maps(src, B, Zip(BLines + [BLast], BKinds))
    && Maps(src, C, Zip(CLines, CKinds))
    && Maps(src, D, Zip(DLines, DKinds))
    && Maps(src, Std1, [Entry("// std1", Plain)])
    && Maps(src, Std2, [Entry("// std2", Plain)])
    && "sources/dir1/lib/std2.h" !in src
    && "sources/include1/lib/std2.h" !in src
    && "sources/include1/dummy.txt" !in src
    && "sources/include2/dummy.txt" !in src
  }

  // ---------------------------------------------------------------------
  // Classifying the test's lines

  lemma QuotedInclude(q: string)
    requires '"' !in q
    ensures Classify(IncludeQuote(q)) == Quoted(q)
  {
    ScanComplete("", "", " ", '"', q, '"', "");
  }

  lemma AngleInclude(w2: string, w3: string, n: string)
    requires AllSpace(w2) && AllSpace(w3) && '>' !in n
    ensures Classify(IncludeAngle(w2, w3, n)) == Angle(n)
  {
    ScanOtherDelimiter("", w2, w3, '<', n, '>', "", '"', '"');
    ScanComplete("", w2, w3, '<', n, '>', "");
  }

  /** An include line is a single line. */
  lemma IncludeHasNoLineFeed(w2: string, w3: string, open: char, body: string, close: char)
    requires '\n' !in w2 && '\n' !in w3 && '\n' !in body && open != '\n' && close != '\n'
    ensures '\n' !in Directive("", w2, w3, open, body, close, "")
  {
    var line := Directive("", w2, w3, open, body, close, "");
    assert line == "#" + w2 + Keyword + w3 + [open] + body + [close] + "";
  }

  /** A line that starts with neither whitespace nor `#` is plain. */
  lemma StartsPlain(text: string)
    requires |text| > 0 && !IsSpace(text[0]) && text[0] != '#'
    ensures Classify(text) == Plain
  {
    assert SkipSpace(text, 0) == 0;
    TextBeforeHashIsPlain(text);
  }

  /** Lines whose classifications are known, classified. */
  lemma ClassifiedAs(lines: seq<string>, kinds: seq<LineKind>)
    requires |lines| == |kinds|
    requires forall i :: 0 <= i < |lines| ==> Classify(lines[i]) == kinds[i]
    ensures Classified(lines) == Zip(lines, kinds)
  {
    forall i | 0 <= i < |lines| ensures Classified(lines)[i] == Zip(lines, kinds)[i] {
      ClassifiedAt(lines, i);
    }
  }

  lemma Kinds3(lines: seq<string>, kinds: seq<LineKind>)
    requires |lines| == |kinds| == 3
    requires Classify(lines[0]) == kinds[0] && Classify(lines[1]) == kinds[1] && Classify(lines[2]) == kinds[2]
    ensures forall i :: 0 <= i < |lines| ==> Classify(lines[i]) == kinds[i]
  {
  }

  lemma LinesC()
    ensures Lines(Unlines(CLines)) == CLines
  {
    IncludeHasNoLineFeed("", " ", '<', "std1.h", '>');
    assert NoLineFeeds(CLines);
    LinesUnlines(CLines);
  }

  lemma KindC0() ensures Classify(CLines[0]) == Plain { StartsPlain(CLines[0]); }
  lemma KindC1() ensures Classify(CLines[1]) == CKinds[1] { assert CLines[1] == IncludeAngle("", " ", "std1.h"); AngleInclude("", " ", "std1.h"); }
  lemma KindC2() ensures Classify(CLines[2]) == Plain { StartsPlain(CLines[2]); }

  lemma KindsC()
    ensures forall i :: 0 <= i < |CLines| ==> Classify(CLines[i]) == CKinds[i]
  {
    KindC0();
    KindC1();
    KindC2();
    Kinds3(CLines, CKinds);
  }

  lemma ClassifiedC()
    ensures Classified(Lines(Unlines(CLines))) == Zip(CLines, CKinds)
  {
    LinesC();
    KindsC();
    ClassifiedAs(CLines, CKinds);
  }

  lemma NoLineFeedsA()
    ensures NoLineFeeds(ALines)
  {
    forall i | 0 <= i < |ALines| ensures '\n' !in ALines[i] {
      if i == 1 { IncludeHasNoLineFeed("", " ", '"', "dir1/b.h", '"'); }
      else if i == 3 { IncludeHasNoLineFeed("", " ", '"', "dir1/d.h", '"'); }
      else if i == 7 { IncludeHasNoLineFeed("   ", "", '<', "dummy.txt", '>'); }
    }
  }

  lemma LinesA()
    ensures Lines(Unlines(ALines)) == ALines
  {
    NoLineFeedsA();
    LinesUnlines(ALines);
  }

  lemma KindA0() ensures Classify(ALines[0]) == Plain { StartsPlain(ALines[0]); }
  lemma KindA1() ensures Classify(ALines[1]) == Quoted("dir1/b.h") { assert ALines[1] == IncludeQuote("dir1/b.h"); QuotedInclude("dir1/b.h"); }
  lemma KindA2() ensures Classify(ALines[2]) == Plain { StartsPlain(ALines[2]); }
  lemma KindA3() ensures Classify(ALines[3]) == Quoted("dir1/d.h") { assert ALines[3] == IncludeQuote("dir1/d.h"); QuotedInclude("dir1/d.h"); }
  lemma KindA4() ensures Classify(ALines[4]) == Plain { }
  lemma KindA5() ensures Classify(ALines[5]) == Plain { StartsPlain(ALines[5]); }

  /** The indented line of a.cpp is plain: its first non-blank character is not `#`. */
  lemma KindA6()
    ensures Classify(ALines[6]) == Plain
  {
    var line := ALines[6];
    SkipSpaceExact(line, 0, 4);
    TextBeforeHashIsPlain(line);
  }

  lemma KindA7() ensures Classify(ALines[7]) == Angle("dummy.txt") { assert ALines[7] == IncludeAngle("   ", "", "dummy.txt"); AngleInclude("   ", "", "dummy.txt"); }
  lemma KindA8() ensures Classify(ALines[8]) == Plain { StartsPlain(ALines[8]); }

  lemma KindsA()
    ensures forall i :: 0 <= i < |ALines| ==> Classify(ALines[i]) == AKinds[i]
  {
    forall i | 0 <= i < |ALines| ensures Classify(ALines[i]) == AKinds[i] {
      if i == 0 { KindA0(); }
      else if i == 1 { KindA1(); }
      else if i == 2 { KindA2(); }
      else if i == 3 { KindA3(); }
      else if i == 4 { KindA4(); }
      else if i == 5 { KindA5(); }
      else if i == 6 { KindA6(); }
      else if i == 7 { KindA7(); }
      else { KindA8(); }
    }
  }

  lemma ClassifiedA()
    ensures Classified(Lines(Unlines(ALines))) == Zip(ALines, AKinds)
  {
    LinesA();
    KindsA();
    ClassifiedAs(ALines, AKinds);
  }

  lemma LinesB()
    ensures Lines(Unlines(BLines) + BLast) == BLines + [BLast]
  {
    IncludeHasNoLineFeed("", " ", '"', "subdir/c.h", '"');
    assert NoLineFeeds(BLines);
    LinesUnterminated(BLines, BLast);
  }

  lemma KindB0() ensures Classify((BLines + [BLast])[0]) == Plain { StartsPlain((BLines + [BLast])[0]); }
  lemma KindB1() ensures Classify((BLines + [BLast])[1]) == BKinds[1] { assert (BLines + [BLast])[1] == IncludeQuote("subdir/c.h"); QuotedInclude("subdir/c.h"); }
  lemma KindB2() ensures Classify((BLines + [BLast])[2]) == Plain { StartsPlain((BLines + [BLast])[2]); }

  lemma KindsB()
    ensures forall i :: 0 <= i < |BLines + [BLast]| ==> Classify((BLines + [BLast])[i]) == BKinds[i]
  {
    KindB0();
    KindB1();
    KindB2();
    Kinds3((BLines + [BLast]), BKinds);
  }

  lemma ClassifiedB()
    ensures Classified(Lines(Unlines(BLines) + BLast)) == Zip(BLines + [BLast], BKinds)
  {
    LinesB();
    KindsB();
    ClassifiedAs(BLines + [BLast], BKinds);
  }

  lemma LinesD()
    ensures Lines(Unlines(DLines)) == DLines
  {
    IncludeHasNoLineFeed("", " ", '"', "lib/std2.h", '"');
    assert NoLineFeeds(DLines);
    LinesUnlines(DLines);
  }

  lemma KindD0() ensures Classify(DLines[0]) == Plain { StartsPlain(DLines[0]); }
  lemma KindD1() ensures Classify(DLines[1]) == DKinds[1] { assert DLines[1] == IncludeQuote("lib/std2.h"); QuotedInclude("lib/std2.h"); }
  lemma KindD2() ensures Classify(DLines[2]) == Plain { StartsPlain(DLines[2]); }

  lemma KindsD()
    ensures forall i :: 0 <= i < |DLines| ==> Classify(DLines[i]) == DKinds[i]
  {
    KindD0();
    KindD1();
    KindD2();
    Kinds3(DLines, DKinds);
  }

  lemma ClassifiedD()
    ensures Classified(Lines(Unlines(DLines))) == Zip(DLines, DKinds)
  {
    LinesD();
    KindsD();
    ClassifiedAs(DLines, DKinds);
  }

  /** A one-line file ending in a line feed. */
  lemma ClassifiedOneLine(text: string)
    requires |text| > 0 && !IsSpace(text[0]) && text[0] != '#' && '\n' !in text
    ensures Classified(Lines(Unlines([text]))) == [Entry(text, Plain)]
  {
    LinesUnlines([text]);
    StartsPlain(text);
    assert Classified([text]) == [Entry(text, Classify(text))] + Classified([]);
  }

  lemma ParsedA(fs: FileSystem)
    requires Maps(fs, A, Unlines(ALines))
    ensures Maps(Parse(fs), A, Zip(ALines, AKinds))
  {
    ClassifiedA();
  }

  lemma ParsedB(fs: FileSystem)
    requires Maps(fs, B, Unlines(BLines) + BLast)
    ensures Maps(Parse(fs), B, Zip(BLines + [BLast], BKinds))
  {
    ClassifiedB();
  }

  lemma ParsedC(fs: FileSystem)
    requires Maps(fs, C, Unlines(CLines))
    ensures Maps(Parse(fs), C, Zip(CLines, CKinds))
  {
    ClassifiedC();
  }

  lemma ParsedD(fs: FileSystem)
    requires Maps(fs, D, Unlines(DLines))
    ensures Maps(Parse(fs), D, Zip(DLines, DKinds))
  {
    ClassifiedD();
  }

  lemma ParsedOneLine(fs: FileSystem, p: Path, text: string)
    requires Maps(fs, p, Unlines([text]))
    requires |text| > 0 && !IsSpace(text[0]) && text[0] != '#' && '\n' !in text
    ensures Maps(Parse(fs), p, [Entry(text, Plain)])
  {
    ClassifiedOneLine(text);
  }

  /** The two one-line headers in the search directories are each read as one plain line. */
  lemma ParsedStd(fs: FileSystem)
    requires Maps(fs, Std1, Unlines(["// std1"])) && Maps(fs, Std2, Unlines(["// std2"]))
    ensures Maps(Parse(fs), Std1, [Entry("// std1", Plain)]) && Maps(Parse(fs), Std2, [Entry("// std2", Plain)])
  {
    ParsedOneLine(fs, Std1, "// std1");
    ParsedOneLine(fs, Std2, "// std2");
  }

  /** The read loop sees the test's files as Fixture describes them. */
  lemma FixtureParsed(fs: FileSystem)
    requires TestFiles(fs)
    ensures Fixture(Parse(fs))
  {
    ParsedStd(fs);
    ParsedA(fs);
    ParsedB(fs);
    ParsedC(fs);
    ParsedD(fs);
  }

  // ---------------------------------------------------------------------
  // Expanding the test's files, innermost first

  /** A file of three lines whose middle line is an include that resolves. */
  lemma ThreeLines(src: Sources, p: Path, e0: Entry, e1: Entry, e2: Entry, fuel: nat)
    requires fuel > 0 && e0.kind == Plain && e2.kind == Plain
    requires ExpandLine(src, Dirs, p, e1, 2, fuel).status == Succeeded
    ensures var h := ExpandLine(src, Dirs, p, e1, 2, fuel);
            ExpandLines(src, Dirs, p, [e0, e1, e2], 1, fuel) == Trace(Succeeded, [e0.text] + h.out + [e2.text], h.diags)
  {
    ExpandLinesCons(src, Dirs, p, e2, [], 3, fuel);
    ExpandLinesCons(src, Dirs, p, e1, [e2], 2, fuel);
    assert [e0, e1, e2] == [e0] + [e1, e2] && [e1, e2] == [e1] + [e2];
    ExpandLinesCons(src, Dirs, p, e0, [e1, e2], 1, fuel);
  }

  /** A file of one plain line is copied. */
  lemma OneLine(src: Sources, p: Path, text: string, fuel: nat)
    requires fuel > 0 && p in src && src[p] == [Entry(text, Plain)]
    ensures ExpandFile(src, Dirs, p, fuel) == Trace(Succeeded, [text], [])
  {
    assert src[p] == [Entry(text, Plain)] + [];
    ExpandLinesCons(src, Dirs, p, Entry(text, Plain), [], 1, fuel);
  }

  /** c.h: the angle include of std1.h is found in the first search directory. */
  lemma ExpandC(src: Sources, fuel: nat)
    requires fuel >= 2
    requires C in src && src[C] == Zip(CLines, CKinds)
    requires Std1 in src && src[Std1] == [Entry("// std1", Plain)]
    ensures ExpandFile(src, Dirs, C, fuel) == Trace(Succeeded, [CLines[0], "// std1", CLines[2]], [])
  {
    OneLine(src, Std1, "// std1", fuel - 1);
    var cands := SearchCandidates(Dirs, "std1.h");
    assert cands[0] == Std1;
    AngleLine(src, Dirs, C, CLines[1], "std1.h", 2, fuel);
    assert src[C] == [Entry(CLines[0], Plain), Entry(CLines[1], Angle("std1.h")), Entry(CLines[2], Plain)];
    ThreeLines(src, C, src[C][0], src[C][1], src[C][2], fuel);
  }

  lemma ParentB()
    ensures Join(Parent(B), "subdir/c.h") == C
  {
    assert B == Join("sources/dir1", "b.h");
    ParentOfJoin("sources/dir1", "b.h");
  }

  /** b.h: the quoted include of subdir/c.h resolves next to b.h. */
  lemma ExpandB(src: Sources, fuel: nat)
    requires fuel >= 3
    requires B in src && src[B] == Zip(BLines + [BLast], BKinds)
    requires C in src && src[C] == Zip(CLines, CKinds)
    requires Std1 in src && src[Std1] == [Entry("// std1", Plain)]
    ensures ExpandFile(src, Dirs, B, fuel) == Trace(Succeeded, [BLines[0], CLines[0], "// std1", CLines[2], BLast], [])
  {
    ExpandC(src, fuel - 1);
    ParentB();
    QuotedLine(src, Dirs, B, BLines[1], "subdir/c.h", 2, fuel);
    assert src[B] == [Entry(BLines[0], Plain), Entry(BLines[1], Quoted("subdir/c.h")), Entry(BLast, Plain)];
    ThreeLines(src, B, src[B][0], src[B][1], src[B][2], fuel);
  }

  lemma ParentD()
    ensures Join(Parent(D), "lib/std2.h") == "sources/dir1/lib/std2.h"
  {
    assert D == Join("sources/dir1", "d.h");
    ParentOfJoin("sources/dir1", "d.h");
  }

  /** lib/std2.h is not under the first search directory but is under the second. */
  lemma SearchStd2(src: Sources, fuel: nat)
    requires fuel >= 1
    requires Std2 in src && src[Std2] == [Entry("// std2", Plain)]
    requires "sources/include1/lib/std2.h" !in src
    ensures TryEach(src, Dirs, SearchCandidates(Dirs, "lib/std2.h"), fuel) == Trace(Succeeded, ["// std2"], [])
  {
    OneLine(src, Std2, "// std2", fuel);
    var cands := SearchCandidates(Dirs, "lib/std2.h");
    assert cands[0] == "sources/include1/lib/std2.h" && cands[1] == Std2;
    assert cands[1..] == [Std2];
  }

  /**
   * d.h: the quoted include of lib/std2.h is not next to d.h nor in the
   * first search directory; the second search directory has it.
   */
  lemma ExpandD(src: Sources, fuel: nat)
    requires fuel >= 2
    requires D in src && src[D] == Zip(DLines, DKinds)
    requires Std2 in src && src[Std2] == [Entry("// std2", Plain)]
    requires "sources/dir1/lib/std2.h" !in src && "sources/include1/lib/std2.h" !in src
    ensures ExpandFile(src, Dirs, D, fuel) == Trace(Succeeded, [DLines[0], "// std2", DLines[2]], [])
  {
    SearchStd2(src, fuel - 1);
    ParentD();
    QuotedLine(src, Dirs, D, DLines[1], "lib/std2.h", 2, fuel);
    assert src[D] == [Entry(DLines[0], Plain), Entry(DLines[1], Quoted("lib/std2.h")), Entry(DLines[2], Plain)];
    ThreeLines(src, D, src[D][0], src[D][1], src[D][2], fuel);
  }

  /** Neither search directory has dummy.txt. */
  lemma SearchDummy(src: Sources, fuel: nat)
    requires fuel >= 1
    requires "sources/include1/dummy.txt" !in src && "sources/include2/dummy.txt" !in src
    ensures TryEach(src, Dirs, SearchCandidates(Dirs, "dummy.txt"), fuel) == Trace(Failed, [], [])
  {
    var cands := SearchCandidates(Dirs, "dummy.txt");
    assert cands[0] == "sources/include1/dummy.txt" && cands[1] == "sources/include2/dummy.txt";
    assert cands[1..] == ["sources/include2/dummy.txt"] && cands[1..][1..] == [];
    assert TryEach(src, Dirs, cands[1..], fuel) == Trace(Failed, [], []);
  }

  lemma ParentA(name: string)
    ensures Join(Parent(A), name) == Join("sources", name)
  {
    assert A == Join("sources", "a.cpp");
    ParentOfJoin("sources", "a.cpp");
  }

  /** Line 2 of a.cpp: dir1/b.h resolves next to a.cpp. */
  lemma LineA2(src: Sources, fuel: nat)
    requires fuel >= 4
    requires B in src && src[B] == Zip(BLines + [BLast], BKinds)
    requires C in src && src[C] == Zip(CLines, CKinds)
    requires Std1 in src && src[Std1] == [Entry("// std1", Plain)]
    ensures ExpandLine(src, Dirs, A, Entry(ALines[1], Quoted("dir1/b.h")), 2, fuel) ==
              Trace(Succeeded, [BLines[0], CLines[0], "// std1", CLines[2], BLast], [])
  {
    ExpandB(src, fuel - 1);
    ParentA("dir1/b.h");
    assert Join("sources", "dir1/b.h") == B;
    QuotedLine(src, Dirs, A, ALines[1], "dir1/b.h", 2, fuel);
  }

  /** Line 4 of a.cpp: dir1/d.h resolves next to a.cpp. */
  lemma LineA4(src: Sources, fuel: nat)
    requires fuel >= 3
    requires D in src && src[D] == Zip(DLines, DKinds)
    requires Std2 in src && src[Std2] == [Entry("// std2", Plain)]
    requires "sources/dir1/lib/std2.h" !in src && "sources/include1/lib/std2.h" !in src
    ensures ExpandLine(src, Dirs, A, Entry(ALines[3], Quoted("dir1/d.h")), 4, fuel) ==
              Trace(Succeeded, [DLines[0], "// std2", DLines[2]], [])
  {
    ExpandD(src, fuel - 1);
    ParentA("dir1/d.h");
    assert Join("sources", "dir1/d.h") == D;
    QuotedLine(src, Dirs, A, ALines[3], "dir1/d.h", 4, fuel);
  }

  /** Line 8 of a.cpp: dummy.txt resolves nowhere, and the diagnostic names it, a.cpp and line 8. */
  lemma LineA8(src: Sources, fuel: nat)
    requires fuel >= 2
    requires "sources/include1/dummy.txt" !in src && "sources/include2/dummy.txt" !in src
    ensures ExpandLine(src, Dirs, A, Entry(ALines[7], Angle("dummy.txt")), 8, fuel) ==
              Trace(Failed, [], [Diagnostic("dummy.txt", A, 8)])
  {
    SearchDummy(src, fuel - 1);
    AngleLine(src, Dirs, A, ALines[7], "dummy.txt", 8, fuel);
  }

  function Concat(outs: seq<seq<string>>): seq<string>
  {
    if outs == [] then [] else outs[0] + Concat(outs[1..])
  }

  /** Lines that each succeed without a diagnostic write their outputs one after another. */
  lemma {:induction false} Succeeding(src: Sources, p: Path, lines: seq<Entry>, n: nat, fuel: nat, outs: seq<seq<string>>)
    requires fuel > 0 && |outs| == |lines|
    requires forall i :: 0 <= i < |lines| ==> ExpandLine(src, Dirs, p, lines[i], n + i, fuel) == Trace(Succeeded, outs[i], [])
    ensures ExpandLines(src, Dirs, p, lines, n, fuel) == Trace(Succeeded, Concat(outs), [])
    decreases |lines|
  {
    if lines != [] {
      assert ExpandLine(src, Dirs, p, lines[0], n + 0, fuel) == Trace(Succeeded, outs[0], []);
      forall i | 0 <= i < |lines| - 1
        ensures ExpandLine(src, Dirs, p, lines[1..][i], n + 1 + i, fuel) == Trace(Succeeded, outs[1..][i], [])
      {
        assert ExpandLine(src, Dirs, p, lines[i + 1], n + (i + 1), fuel) == Trace(Succeeded, outs[i + 1], []);
      }
      Succeeding(src, p, lines[1..], n + 1, fuel, outs[1..]);
    }
  }

  /** Lines 1 to 7 of a.cpp all succeed and write everything the test expects. */
  lemma PrefixA(src: Sources, fuel: nat)
    requires fuel >= 4
    requires A in src && src[A] == Zip(ALines, AKinds)
    requires B in src && src[B] == Zip(BLines + [BLast], BKinds)
    requires C in src && src[C] == Zip(CLines, CKinds)
    requires D in src && src[D] == Zip(DLines, DKinds)
    requires Std1 in src && src[Std1] == [Entry("// std1", Plain)]
    requires Std2 in src && src[Std2] == [Entry("// std2", Plain)]
    requires "sources/dir1/lib/std2.h" !in src && "sources/include1/lib/std2.h" !in src
    ensures ExpandLines(src, Dirs, A, src[A][..7], 1, fuel) == Trace(Succeeded, Expected, [])
  {
    var e := src[A][..7];
    var outs := [[ALines[0]], [BLines[0], CLines[0], "// std1", CLines[2], BLast], [ALines[2]],
                 [DLines[0], "// std2", DLines[2]], [ALines[4]], [ALines[5]], [ALines[6]]];
    forall i | 0 <= i < 7 ensures ExpandLine(src, Dirs, A, e[i], 1 + i, fuel) == Trace(Succeeded, outs[i], []) {
      if i == 1 {
        LineA2(src, fuel);
      } else if i == 3 {
        LineA4(src, fuel);
      } else {
        assert e[i] == Entry(ALines[i], Plain);
      }
    }
    Succeeding(src, A, e, 1, fuel, outs);
    ConcatSeven(outs);
    ExpectedPieces();
  }

  /** What the test expects is a.cpp's lines up to line 7, with b.h (itself with c.h and std1.h inlined) and d.h (with std2.h inlined) in place. */
  lemma ExpectedPieces()
    ensures [ALines[0]] + ([BLines[0], CLines[0], "// std1", CLines[2], BLast] + ([ALines[2]]
            + ([DLines[0], "// std2", DLines[2]] + ([ALines[4]] + ([ALines[5]] + [ALines[6]]))))) == Expected
  {
  }

  lemma ConcatAt(outs: seq<seq<string>>, k: nat)
    requires k < |outs|
    ensures Concat(outs[k..]) == outs[k] + Concat(outs[k + 1..])
  {
    assert outs[k..][0] == outs[k] && outs[k..][1..] == outs[k + 1..];
  }

  lemma ConcatSeven(outs: seq<seq<string>>)
    requires |outs| == 7
    ensures Concat(outs) == outs[0] + (outs[1] + (outs[2] + (outs[3] + (outs[4] + (outs[5] + outs[6])))))
  {
    ConcatAt(outs, 6);
    assert outs[7..] == [];
    assert outs[6] + [] == outs[6];
    ConcatAt(outs, 5);
    ConcatAt(outs, 4);
    ConcatAt(outs, 3);
    ConcatAt(outs, 2);
    ConcatAt(outs, 1);
    ConcatAt(outs, 0);
    assert outs[0..] == outs;
  }

  /**
   * a.cpp: everything up to line 7 is written, line 8 fails and is
   * reported, and line 9 is never read.
   */
  lemma ExpandA(src: Sources, fuel: nat)
    requires fuel >= 4 && Fixture(src)
    ensures ExpandFile(src, Dirs, A, fuel) == Trace(Failed, Expected, [Diagnostic("dummy.txt", A, 8)])
  {
    var e := src[A];
    PrefixA(src, fuel);
    assert e == e[..7] + e[7..];
    ExpandLinesAppend(src, Dirs, A, e[..7], e[7..], 1, fuel);
    assert e[7..] == [Entry(ALines[7], Angle("dummy.txt"))] + [e[8]];
    ExpandLinesCons(src, Dirs, A, Entry(ALines[7], Angle("dummy.txt")), [e[8]], 8, fuel);
    LineA8(src, fuel);
    assert Expected + [] == Expected;
  }

  /** On the test's files, with nesting four deep or more, the run fails after writing the expected lines and reports dummy.txt. */
  lemma TestOutcome(fs: FileSystem, fuel: nat)
    requires TestFiles(fs) && fuel >= 4
    ensures ExpandFile(Parse(fs), Dirs, A, fuel) == Trace(Failed, Expected, [Diagnostic("dummy.txt", A, 8)])
  {
    FixtureParsed(fs);
    ExpandA(Parse(fs), fuel);
  }

  /**
   * Test() (main.cpp:92-157): Preprocess on a.cpp returns false, the output
   * file holds exactly the expected lines, and the one report is for
   * dummy.txt at line 8 of a.cpp.
   */
  method RunTest(fs: FileSystem) returns (ok: bool, written: seq<string>, reports: seq<Diagnostic>)
    requires TestFiles(fs)
    ensures !ok
    ensures written == Expected
    ensures reports == [Diagnostic("dummy.txt", A, 8)]
  {
    var out := new OutFile();
    var console := new Console();
    var st := Preprocess(A, out, console, fs, Dirs, 4);
    TestOutcome(fs, 4);
    ok := st == Succeeded;
    written := out.lines;
    reports := console.reports;
  }
}
