/**
 * How ProcessFile in main.cpp reads its input: `getline` up to the next line
 * feed (which it consumes) or the end of the stream, and the loop stops when
 * a read hits the end of the stream without extracting anything
 * (main.cpp:44-49). The stream is modelled by its unread remainder.
 */
module LineReader {

  import opened Strings

  /** One `getline`: the text read, what is left unread, and whether the end of the stream was hit. */
  datatype Read = Read(text: string, remaining: string, eof: bool)

  function GetLine(rest: string): (r: Read)
    ensures '\n' !in r.text
    ensures (r.eof && r.text == []) <==> rest == []
    ensures rest == r.text + (if r.eof then "" else "\n") + r.remaining
    ensures r.eof ==> r.remaining == []
    ensures rest != [] ==> |r.remaining| < |rest|
  {
    if rest == [] then Read("", "", true)
    else
      var e := Find(rest, 0, '\n');
      FindStops(rest, 0, '\n');
      if e < |rest| then
        assert '\n' !in rest[..e] by {
          forall k | 0 <= k < e ensures rest[..e][k] != '\n' { }
        }
        assert rest == rest[..e] + "\n" + rest[e + 1..];
        Read(rest[..e], rest[e + 1..], false)
      else
        assert '\n' !in rest by {
          forall k | 0 <= k < |rest| ensures rest[k] != '\n' { }
        }
        Read(rest, "", true)
  }

  /** The lines the read loop of ProcessFile sees, in order. */
  function Lines(rest: string): seq<string>
    decreases |rest|
  {
    var r := GetLine(rest);
    if r.eof && r.text == [] then [] else [r.text] + Lines(r.remaining)
  }

  /** What writing each line followed by a line feed produces. */
  function Unlines(lines: seq<string>): string
  {
    if lines == [] then "" else lines[0] + "\n" + Unlines(lines[1..])
  }

  /** Writing one more line appends it and its line feed to the text. */
  lemma {:induction false} UnlinesSnoc(lines: seq<string>, s: string)
    ensures Unlines(lines + [s]) == Unlines(lines) + s + "\n"
  {
    if lines != [] {
      assert (lines + [s])[1..] == lines[1..] + [s];
      UnlinesSnoc(lines[1..], s);
    } else {
      assert [] + [s] == [s];
    }
  }

  /** A text with a line feed added at its end unless it is empty or already ends in one. */
  function Terminated(s: string): string
  {
    if s == [] || s[|s| - 1] == '\n' then s else s + "\n"
  }

  predicate NoLineFeeds(lines: seq<string>)
  {
    forall i :: 0 <= i < |lines| ==> '\n' !in lines[i]
  }

  /** No line read contains a line feed. */
  lemma {:induction false} LinesHaveNoLineFeeds(s: string)
    ensures NoLineFeeds(Lines(s))
    decreases |s|
  {
    var r := GetLine(s);
    if !(r.eof && r.text == []) {
      LinesHaveNoLineFeeds(r.remaining);
    }
  }

  lemma UnlinesCons(t: string, rest: seq<string>)
    ensures Unlines([t] + rest) == t + "\n" + Unlines(rest)
  {
    assert ([t] + rest)[1..] == rest;
  }

  lemma TerminatedAppend(a: string, b: string)
    requires b != []
    ensures Terminated(a + b) == a + Terminated(b)
  {
    assert (a + b)[|a + b| - 1] == b[|b| - 1];
  }

  /**
   * Copying the lines read, each with a line feed, reproduces the text; a
   * final line feed does not make an extra empty line, and a last line
   * without one gets one.
   */
  lemma {:induction false} UnlinesLines(s: string)
    ensures Unlines(Lines(s)) == Terminated(s)
    decreases |s|
  {
    var r := GetLine(s);
    if !(r.eof && r.text == []) {
      UnlinesCons(r.text, Lines(r.remaining));
      UnlinesLines(r.remaining);
      if r.eof {
        assert s == r.text && s[|s| - 1] in r.text;
      } else if r.remaining != [] {
        TerminatedAppend(r.text + "\n", r.remaining);
      }
    }
  }

  /** A last line without a line feed is still read, as the final line. */
  lemma {:induction false} LinesUnterminated(lines: seq<string>, last: string)
    requires NoLineFeeds(lines) && last != [] && '\n' !in last
    ensures Lines(Unlines(lines) + last) == lines + [last]
  {
    if lines == [] {
      FindStops(last, 0, '\n');
      assert Lines(last[|last|..]) == [];
      assert [] + last == last && [] + [last] == [last];
    } else {
      var l := lines[0];
      var s := Unlines(lines) + last;
      assert s == l + "\n" + (Unlines(lines[1..]) + last);
      FindExact(s, 0, |l|, '\n');
      assert s[..|l|] == l;
      assert s[|l| + 1..] == Unlines(lines[1..]) + last;
      LinesUnterminated(lines[1..], last);
      assert lines + [last] == [l] + (lines[1..] + [last]);
    }
  }

  /** Reading back what was written line by line gives the same lines. */
  lemma {:induction false} LinesUnlines(lines: seq<string>)
    requires NoLineFeeds(lines)
    ensures Lines(Unlines(lines)) == lines
  {
    if lines != [] {
      var s := Unlines(lines);
      var l := lines[0];
      assert s == l + "\n" + Unlines(lines[1..]);
      assert '\n' !in l;
      FindExact(s, 0, |l|, '\n');
      assert s[..|l|] == l;
      assert s[|l| + 1..] == Unlines(lines[1..]);
      LinesUnlines(lines[1..]);
    }
  }
}
