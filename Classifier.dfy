/**
 * The line classifier of the include expander.
 *
 * main.cpp decides with two anchored regular expressions whether a line is a
 * quoted include, an angle include or plain content:
 *
 *     \s*#\s*include\s*"([^"]*)"\s*        (quoted)
 *     \s*#\s*include\s*<([^>]*)>\s*        (angle)
 *
 * Both patterns are deterministic: every `\s*` is followed by a character that
 * is not whitespace (`#`, `i`, the opening delimiter) or by the end of the
 * line, and `[^"]*` / `[^>]*` must stop at the first closing delimiter. So a
 * left-to-right scanner that skips maximal whitespace runs accepts exactly the
 * lines the regex accepts. `Scan` is that scanner; `Form` is the language of
 * the pattern written as a concatenation, and the lemmas below show the two
 * agree in both directions.
 */
module Classifier {

  import opened Strings

  datatype Option<T> = None | Some(value: T)

  /** The result of classifying one line. */
  datatype LineKind = Quoted(path: string) | Angle(name: string) | Plain

  /** `\s`: space, tab, line feed, carriage return, vertical tab, form feed. */
  predicate IsSpace(c: char) {
    c == ' ' || c == '\t' || c == '\n' || c == '\r' || c == '\U{B}' || c == '\U{C}'
  }

  predicate AllSpace(s: string) {
    forall i :: 0 <= i < |s| ==> IsSpace(s[i])
  }

  const Keyword: string := "include"

  /** The first position at or after `i` that does not hold whitespace (see SkipSpaceStops). */
  function SkipSpace(s: string, i: nat): (j: nat)
    requires i <= |s|
    ensures i <= j <= |s|
    decreases |s| - i
  {
    if i < |s| && IsSpace(s[i]) then SkipSpace(s, i + 1) else i
  }

  /** The skip passes over whitespace only and stops at the end or at a character that is not whitespace. */
  lemma {:induction false} SkipSpaceStops(s: string, i: nat)
    requires i <= |s|
    ensures forall k :: i <= k < SkipSpace(s, i) ==> IsSpace(s[k])
    ensures SkipSpace(s, i) == |s| || !IsSpace(s[SkipSpace(s, i)])
    decreases |s| - i
  {
    if i < |s| && IsSpace(s[i]) {
      SkipSpaceStops(s, i + 1);
    }
  }

  /**
   * The whole-line match of `\s*#\s*include\s*<open>([^<close>]*)<close>\s*`:
   * the captured group when the line matches, None otherwise.
   */
  function Scan(line: string, open: char, close: char): Option<string>
  {
    var a := SkipSpace(line, 0);
    if a == |line| || line[a] != '#' then None
    else
      var b := SkipSpace(line, a + 1);
      if |line| - b < |Keyword| || line[b..b + |Keyword|] != Keyword then None
      else
        var c := SkipSpace(line, b + |Keyword|);
        if c == |line| || line[c] != open then None
        else
          var e := Find(line, c + 1, close);
          if e == |line| || SkipSpace(line, e + 1) != |line| then None
          else Some(line[c + 1..e])
  }

  /** The classification main.cpp makes: the quoted pattern is tried first. */
  function Classify(line: string): LineKind
  {
    match Scan(line, '"', '"')
    case Some(p) => Quoted(p)
    case None =>
      match Scan(line, '<', '>')
      case Some(n) => Angle(n)
      case None => Plain
  }

  /** The literal a directive names, if the line is one. */
  function Target(k: LineKind): Option<string>
  {
    match k
    case Quoted(p) => Some(p)
    case Angle(n) => Some(n)
    case Plain => None
  }

  // ---------------------------------------------------------------------
  // The language of the two patterns, written as concatenations.

  /** The line `w1 # w2 include w3 <open> body <close> w4`. */
  function Directive(w1: string, w2: string, w3: string, open: char, body: string, close: char, w4: string): string
  {
    w1 + ("#" + (w2 + (Keyword + (w3 + ([open] + (body + ([close] + w4)))))))
  }

  /** `line` matches the pattern with delimiters `open`/`close`, capturing `body`. */
  ghost predicate Form(line: string, open: char, body: string, close: char)
  {
    close !in body &&
    exists w1, w2, w3, w4 ::
      AllSpace(w1) && AllSpace(w2) && AllSpace(w3) && AllSpace(w4) &&
      line == Directive(w1, w2, w3, open, body, close, w4)
  }

  /** A skip over exactly the whitespace run `s[i..j]` stops at `j`. */
  lemma SkipSpaceExact(s: string, i: nat, j: nat)
    requires i <= j <= |s|
    requires forall k :: i <= k < j ==> IsSpace(s[k])
    requires j == |s| || !IsSpace(s[j])
    ensures SkipSpace(s, i) == j
  {
    SkipSpaceStops(s, i);
  }

  /** The scanner's verdict on a line whose landmarks are known. */
  lemma ScanAt(line: string, a: nat, b: nat, c: nat, e: nat, open: char, close: char)
    requires a < b && b + |Keyword| <= c < e < |line|
    requires SkipSpace(line, 0) == a && line[a] == '#'
    requires SkipSpace(line, a + 1) == b && line[b..b + |Keyword|] == Keyword
    requires SkipSpace(line, b + |Keyword|) == c && line[c] == open
    requires Find(line, c + 1, close) == e
    requires SkipSpace(line, e + 1) == |line|
    ensures Scan(line, open, close) == Some(line[c + 1..e])
  {
  }

  /** Where the pieces of a directive line sit. */
  lemma DirectivePieces(w1: string, w2: string, w3: string, open: char, body: string, close: char, w4: string)
    ensures var line := Directive(w1, w2, w3, open, body, close, w4);
            var a := |w1|;
            var b := a + 1 + |w2|;
            var c := b + |Keyword| + |w3|;
            var e := c + 1 + |body|;
            && |line| == e + 1 + |w4|
            && line[..a] == w1 && line[a] == '#' && line[a + 1..b] == w2
            && line[b..b + |Keyword|] == Keyword && line[b + |Keyword|..c] == w3
            && line[c] == open && line[c + 1..e] == body && line[e] == close && line[e + 1..] == w4
  {
  }

  /** Where the scanner stops on a line laid out as a directive. */
  lemma LandmarksAt(line: string, a: nat, b: nat, c: nat, e: nat, open: char, close: char,
                    w1: string, w2: string, w3: string, body: string, w4: string)
    requires a < b && b + |Keyword| <= c < e < |line|
    requires AllSpace(w1) && AllSpace(w2) && AllSpace(w3) && !IsSpace(open)
    requires line[..a] == w1 && line[a] == '#' && line[a + 1..b] == w2
    requires line[b..b + |Keyword|] == Keyword && line[b + |Keyword|..c] == w3
    requires line[c] == open && line[c + 1..e] == body && line[e] == close && line[e + 1..] == w4
    ensures SkipSpace(line, 0) == a
    ensures SkipSpace(line, a + 1) == b
    ensures SkipSpace(line, b + |Keyword|) == c
    ensures close !in body ==> Find(line, c + 1, close) == e
    ensures AllSpace(w4) ==> SkipSpace(line, e + 1) == |line|
  {
    forall k | 0 <= k < a ensures IsSpace(line[k]) { assert line[k] == w1[k]; }
    SkipSpaceExact(line, 0, a);
    forall k | a + 1 <= k < b ensures IsSpace(line[k]) { assert line[k] == w2[k - (a + 1)]; }
    assert line[b] == Keyword[0];
    SkipSpaceExact(line, a + 1, b);
    forall k | b + |Keyword| <= k < c ensures IsSpace(line[k]) { assert line[k] == w3[k - (b + |Keyword|)]; }
    SkipSpaceExact(line, b + |Keyword|, c);
    if close !in body {
      forall k | c + 1 <= k < e ensures line[k] != close { assert line[k] == body[k - (c + 1)]; }
      FindExact(line, c + 1, e, close);
    }
    if AllSpace(w4) {
      forall k | e + 1 <= k < |line| ensures IsSpace(line[k]) { assert line[k] == w4[k - (e + 1)]; }
      SkipSpaceExact(line, e + 1, |line|);
    }
  }

  /** Completeness: every line of the pattern's language is accepted, with its body captured. */
  lemma {:induction false} ScanComplete(w1: string, w2: string, w3: string, open: char, body: string, close: char, w4: string)
    requires AllSpace(w1) && AllSpace(w2) && AllSpace(w3) && AllSpace(w4)
    requires !IsSpace(open) && close !in body
    ensures Scan(Directive(w1, w2, w3, open, body, close, w4), open, close) == Some(body)
  {
    var line := Directive(w1, w2, w3, open, body, close, w4);
    var a := |w1|;
    var b := a + 1 + |w2|;
    var c := b + |Keyword| + |w3|;
    var e := c + 1 + |body|;
    DirectivePieces(w1, w2, w3, open, body, close, w4);
    LandmarksAt(line, a, b, c, e, open, close, w1, w2, w3, body, w4);
    ScanAt(line, a, b, c, e, open, close);
  }

  /** A directive line is rejected by the scanner for the other pair of delimiters. */
  lemma {:induction false} ScanOtherDelimiter(w1: string, w2: string, w3: string, open: char, body: string, close: char, w4: string, open': char, close': char)
    requires AllSpace(w1) && AllSpace(w2) && AllSpace(w3) && !IsSpace(open) && open' != open
    ensures Scan(Directive(w1, w2, w3, open, body, close, w4), open', close') == None
  {
    var line := Directive(w1, w2, w3, open, body, close, w4);
    var a := |w1|;
    var b := a + 1 + |w2|;
    var c := b + |Keyword| + |w3|;
    var e := c + 1 + |body|;
    DirectivePieces(w1, w2, w3, open, body, close, w4);
    LandmarksAt(line, a, b, c, e, open, close, w1, w2, w3, body, w4);
    ScanRejectsAt(line, a, b, c, open', close');
  }

  /** A line cut at its landmarks is the concatenation of its pieces. */
  lemma Reassemble(line: string, a: nat, b: nat, c: nat, e: nat, open: char, close: char,
                   w1: string, w2: string, w3: string, body: string, w4: string)
    requires a < b && b + |Keyword| <= c < e < |line|
    requires line[a] == '#' && line[b..b + |Keyword|] == Keyword && line[c] == open && line[e] == close
    requires w1 == line[..a] && w2 == line[a + 1..b] && w3 == line[b + |Keyword|..c]
    requires body == line[c + 1..e] && w4 == line[e + 1..]
    ensures line == Directive(w1, w2, w3, open, body, close, w4)
  {
    var k := b + |Keyword|;
    assert line[a..a + 1] == "#";
    assert line[c..c + 1] == [open];
    assert line[e..e + 1] == [close];
    Cut(line, e, e + 1);
    assert line[e..] == [close] + w4;
    Cut(line, c + 1, e);
    assert line[c + 1..] == body + ([close] + w4);
    Cut(line, c, c + 1);
    assert line[c..] == [open] + (body + ([close] + w4));
    Cut(line, k, c);
    assert line[k..] == w3 + ([open] + (body + ([close] + w4)));
    Cut(line, b, k);
    assert line[b..] == Keyword + (w3 + ([open] + (body + ([close] + w4))));
    Cut(line, a + 1, b);
    assert line[a + 1..] == w2 + (Keyword + (w3 + ([open] + (body + ([close] + w4)))));
    Cut(line, a, a + 1);
    assert line[a..] == "#" + (w2 + (Keyword + (w3 + ([open] + (body + ([close] + w4))))));
    Cut(line, 0, a);
    assert line == line[0..] && line[0..a] == w1;
    assert line == w1 + ("#" + (w2 + (Keyword + (w3 + ([open] + (body + ([close] + w4)))))));
  }

  lemma FormIntro(line: string, open: char, body: string, close: char, w1: string, w2: string, w3: string, w4: string)
    requires AllSpace(w1) && AllSpace(w2) && AllSpace(w3) && AllSpace(w4) && close !in body
    requires line == Directive(w1, w2, w3, open, body, close, w4)
    ensures Form(line, open, body, close)
  {
  }

  /** What a skip passes over is a whitespace run. */
  lemma SpaceRun(s: string, i: nat)
    requires i <= |s|
    ensures AllSpace(s[i..SkipSpace(s, i)])
  {
    SkipSpaceStops(s, i);
    var j := SkipSpace(s, i);
    forall k | 0 <= k < j - i ensures IsSpace(s[i..j][k]) {
      assert s[i..j][k] == s[i + k];
    }
  }

  /** What a search passes over holds no `c`, and it stops on a `c` unless it reaches the end. */
  lemma CloserFree(s: string, i: nat, c: char)
    requires i <= |s|
    ensures c !in s[i..Find(s, i, c)]
    ensures Find(s, i, c) < |s| ==> s[Find(s, i, c)] == c
  {
    FindStops(s, i, c);
    var j := Find(s, i, c);
    forall k | 0 <= k < j - i ensures s[i..j][k] != c {
      assert s[i..j][k] == s[i + k];
    }
  }

  /** The scanner rejects a line whose directive opens with a different delimiter. */
  lemma ScanRejectsAt(line: string, a: nat, b: nat, c: nat, open: char, close: char)
    requires a < b && b + |Keyword| <= c < |line|
    requires SkipSpace(line, 0) == a && line[a] == '#'
    requires SkipSpace(line, a + 1) == b && line[b..b + |Keyword|] == Keyword
    requires SkipSpace(line, b + |Keyword|) == c && line[c] != open
    ensures Scan(line, open, close) == None
  {
  }

  /** A line whose landmarks the scanner finds is in the pattern's language. */
  lemma FormAt(line: string, a: nat, b: nat, c: nat, e: nat, open: char, close: char)
    requires a < b && b + |Keyword| <= c < e < |line|
    requires SkipSpace(line, 0) == a && line[a] == '#'
    requires SkipSpace(line, a + 1) == b && line[b..b + |Keyword|] == Keyword
    requires SkipSpace(line, b + |Keyword|) == c && line[c] == open
    requires Find(line, c + 1, close) == e
    requires SkipSpace(line, e + 1) == |line|
    ensures Form(line, open, line[c + 1..e], close)
  {
    var w1, w2, w3, body, w4 := line[..a], line[a + 1..b], line[b + |Keyword|..c], line[c + 1..e], line[e + 1..];
    SpaceRun(line, 0);
    assert AllSpace(w1) by { assert line[0..a] == w1; }
    SpaceRun(line, a + 1);
    assert AllSpace(w2);
    SpaceRun(line, b + |Keyword|);
    assert AllSpace(w3);
    SpaceRun(line, e + 1);
    assert AllSpace(w4) by { assert line[e + 1..|line|] == w4; }
    CloserFree(line, c + 1, close);
    assert close !in body;
    Reassemble(line, a, b, c, e, open, close, w1, w2, w3, body, w4);
    FormIntro(line, open, body, close, w1, w2, w3, w4);
  }

  /** Soundness: a line the scanner accepts is in the pattern's language, and the body holds no closing delimiter. */
  lemma ScanSound(line: string, open: char, close: char, body: string)
    requires Scan(line, open, close) == Some(body)
    ensures Form(line, open, body, close)
  {
    var a := SkipSpace(line, 0);
    var b := SkipSpace(line, a + 1);
    var c := SkipSpace(line, b + |Keyword|);
    var e := Find(line, c + 1, close);
    assert line[a] == '#' && line[c] == open && e < |line| && body == line[c + 1..e];
    FindStops(line, c + 1, close);
    FormAt(line, a, b, c, e, open, close);
  }

  /** A line is classified as a quoted include of `p` exactly when it matches the quoted pattern capturing `p`. */
  lemma ClassifyQuoted(line: string, p: string)
    ensures Classify(line) == Quoted(p) <==> Form(line, '"', p, '"')
  {
    if Classify(line) == Quoted(p) {
      ScanSound(line, '"', '"', p);
    }
    if Form(line, '"', p, '"') {
      var w1, w2, w3, w4 :| AllSpace(w1) && AllSpace(w2) && AllSpace(w3) && AllSpace(w4) &&
                             line == Directive(w1, w2, w3, '"', p, '"', w4);
      ScanComplete(w1, w2, w3, '"', p, '"', w4);
    }
  }

  /** A line is classified as an angle include of `n` exactly when it matches the angle pattern capturing `n`. */
  lemma ClassifyAngle(line: string, n: string)
    ensures Classify(line) == Angle(n) <==> Form(line, '<', n, '>')
  {
    if Classify(line) == Angle(n) {
      ScanSound(line, '<', '>', n);
    }
    if Form(line, '<', n, '>') {
      var w1, w2, w3, w4 :| AllSpace(w1) && AllSpace(w2) && AllSpace(w3) && AllSpace(w4) &&
                             line == Directive(w1, w2, w3, '<', n, '>', w4);
      ScanOtherDelimiter(w1, w2, w3, '<', n, '>', w4, '"', '"');
      ScanComplete(w1, w2, w3, '<', n, '>', w4);
    }
  }

  /** A line is plain content exactly when it matches neither pattern. */
  lemma ClassifyPlain(line: string)
    ensures Classify(line) == Plain <==>
              (forall p :: !Form(line, '"', p, '"')) && (forall n :: !Form(line, '<', n, '>'))
  {
    match Classify(line)
    case Quoted(p) => ClassifyQuoted(line, p);
    case Angle(n) => ClassifyAngle(line, n);
    case Plain =>
      forall p ensures !Form(line, '"', p, '"') { ClassifyQuoted(line, p); }
      forall n ensures !Form(line, '<', n, '>') { ClassifyAngle(line, n); }
  }

  /**
   * Anchoring: a line whose first non-blank character is not `#` (for
   * instance a directive that follows code on the same line) is plain.
   */
  lemma TextBeforeHashIsPlain(line: string)
    requires SkipSpace(line, 0) < |line| && line[SkipSpace(line, 0)] != '#'
    ensures Classify(line) == Plain
  {
  }

  /** The captured literal never contains its closing delimiter. */
  lemma TargetHasNoCloser(line: string)
    ensures Classify(line).Quoted? ==> '"' !in Classify(line).path
    ensures Classify(line).Angle? ==> '>' !in Classify(line).name
  {
    match Classify(line)
    case Quoted(p) => ScanSound(line, '"', '"', p);
    case Angle(n) => ScanSound(line, '<', '>', n);
    case Plain =>
  }

  /** Whitespace between `include` and the delimiter is optional: `#   include<dummy.txt>` is an angle include. */
  lemma NoSpaceBeforeDelimiter()
    ensures Classify("#   include<dummy.txt>") == Angle("dummy.txt")
  {
    var line := Directive("", "   ", "", '<', "dummy.txt", '>', "");
    assert line == "#   include<dummy.txt>";
    ScanOtherDelimiter("", "   ", "", '<', "dummy.txt", '>', "", '"', '"');
    ScanComplete("", "   ", "", '<', "dummy.txt", '>', "");
  }

  /** A directive after other text on the same line is not recognised. */
  lemma MidLineDirectiveIsPlain()
    ensures Classify("code(); #include \"x.h\"") == Plain
  {
    TextBeforeHashIsPlain("code(); #include \"x.h\"");
  }
}
