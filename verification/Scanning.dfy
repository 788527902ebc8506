/** bufio.Scanner over lines, and the printing that undoes it. */
module Scanning {
  import opened Paths

  /** The lines of a text before their carriage returns are dropped. */
  function RawLines(s: string): seq<string> {
    var parts := Split(s, '\n');
    if Last(parts) == "" then parts[..|parts| - 1] else parts
  }

  function DropCR(l: string): string {
    if l != "" && l[|l| - 1] == '\r' then l[..|l| - 1] else l
  }

  /** The scanner's buffer must hold a line and its newline. */
  predicate Scannable(s: string, limit: nat) {
    forall i | 0 <= i < |RawLines(s)| :: |RawLines(s)[i]| < limit
  }

  function Unlines(lines: seq<string>): string {
    if lines == [] then "" else lines[0] + ['\n'] + Unlines(lines[1..])
  }

  predicate OneLine(l: string) { '\n' !in l && '\r' !in l }

  lemma {:induction false} SplitUnlines(lines: seq<string>)
    requires forall i | 0 <= i < |lines| :: '\n' !in lines[i]
    ensures Split(Unlines(lines), '\n') == lines + [""]
  {
    if lines != [] {
      SplitUnlines(lines[1..]);
      SplitAppend(lines[0], '\n', Unlines(lines[1..]));
      assert lines == [lines[0]] + lines[1..];
    }
  }

  /** Scanning what was printed line by line gives the lines back. */
  lemma RawLinesBack(lines: seq<string>)
    requires forall i | 0 <= i < |lines| :: '\n' !in lines[i]
    ensures RawLines(Unlines(lines)) == lines
  {
    SplitUnlines(lines);
  }

  lemma {:induction false} UnlinesAppend(a: seq<string>, b: seq<string>)
    ensures Unlines(a + b) == Unlines(a) + Unlines(b)
  {
    if a == [] {
      assert a + b == b;
    } else {
      assert (a + b)[1..] == a[1..] + b;
      UnlinesAppend(a[1..], b);
    }
  }

  lemma UnlinesOne(lines: seq<string>, l: string)
    ensures Unlines(lines + [l]) == Unlines(lines) + (l + ['\n'])
  {
    UnlinesAppend(lines, [l]);
    assert Unlines([l]) == l + ['\n'] + Unlines([l][1..]);
  }
}
