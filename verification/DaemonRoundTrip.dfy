/** Printing avahi-daemon.conf and reading it again. */
module DaemonRoundTrip {
  import opened Basics
  import opened Paths
  import opened Revision
  import opened Texts
  import opened Scanning
  import opened Schemas
  import opened Daemons

  /** The same settings, with the white space around each value gone. */
  function Tidied(d: Daemon): Daemon {
    map s | s in d :: TidiedEntries(d[s])
  }

  function TidiedEntries(entries: map<string, string>): map<string, string> {
    map k | k in entries :: Trim(entries[k])
  }

  predicate EntryFits(k: string, v: string) { |k| + 1 + |v| < LINE_LIMIT }

  /** Every setting fits in a line that the scanner takes. */
  predicate Fits(d: Daemon) {
    forall s, k | s in d && k in d[s] :: EntryFits(k, d[s][k])
  }

  // ----- one printed line -----

  lemma PlainMeans(s: string)
    requires Plain(s)
    ensures s != "" && Trimmed(s) && OneLine(s) && '=' !in s && s[0] !in "#;["
    ensures Trim(s) == s
  {
    TrimKeeps(s);
  }

  lemma {:induction false} CutJoin(k: string, v: string)
    requires '=' !in k
    ensures Cut(k + (['='] + v)) == Some((k, v))
  {
    var s := k + (['='] + v);
    if k == "" {
      assert s == ['='] + v && s[1..] == v;
    } else {
      assert s[1..] == k[1..] + (['='] + v);
      CutJoin(k[1..], v);
      assert k == [k[0]] + k[1..];
    }
  }

  lemma {:induction false} CutParts(v: string)
    requires Cut(v).Some?
    ensures v == Cut(v).value.0 + (['='] + Cut(v).value.1)
  {
    if v[0] == '=' {
      assert v == "" + (['='] + v[1..]);
    } else {
      CutParts(v[1..]);
      assert v == [v[0]] + v[1..];
    }
  }

  lemma NoCR(l: string)
    requires OneLine(l)
    ensures DropCR(l) == l
  {
    assert l != "" ==> l[|l| - 1] in l;
  }

  lemma EntryOneLine(k: string, v: string)
    requires Plain(k) && OneLine(v)
    ensures OneLine(EntryLine(k, v))
  {
    PlainMeans(k);
  }

  lemma EntryTrim(k: string, v: string)
    requires Plain(k)
    ensures Trim(EntryLine(k, v)) == k + (['='] + TrimRight(v))
  {
    hide TrimRight, Plain, OneLine;
    PlainMeans(k);
    var s := k + ['='];
    assert EntryLine(k, v) == s + v && (s + v)[0] == k[0];
    TrimRightAppend(s, v);
    assert s + TrimRight(v) == k + (['='] + TrimRight(v));
  }

  /** A printed setting reads back as that setting, its value trimmed. */
  lemma EntryRead(r: Reading, k: string, v: string)
    requires Plain(k) && OneLine(v) && r.section != "" && k !in Entries(r.d, r.section)
    ensures ReadLine(r, DropCR(EntryLine(k, v)))
              == Some(r.(d := r.d[r.section := Entries(r.d, r.section)[k := Trim(v)]]))
  {
    hide Trim, TrimRight, Cut, Plain, Entries, EntryLine, DropCR, OneLine;
    EntryOneLine(k, v);
    NoCR(EntryLine(k, v));
    EntryTrim(k, v);
    PlainMeans(k);
    CutJoin(k, TrimRight(v));
    TrimAfterRight(v);
    assert (k + (['='] + TrimRight(v)))[0] == k[0];
  }

  lemma HeaderRead(r: Reading, section: string)
    requires Plain(section) && section !in r.d
    ensures ReadLine(r, DropCR(HeaderLine(section))) == Some(Reading(r.d[section := map[]], section))
    ensures OneLine(HeaderLine(section))
  {
    hide Trim, Cut, Plain;
    PlainMeans(section);
    var v := HeaderLine(section);
    NoCR(v);
    TrimKeeps(v);
    assert v[1..|v| - 1] == section;
  }

  lemma EmptyRead(r: Reading)
    ensures ReadLine(r, DropCR("")) == Some(r)
  {
    TrimKeeps("");
  }

  // ----- the lines of a section, and all sections -----

  lemma {:induction false} ReadAppend(r: Reading, a: seq<string>, b: seq<string>)
    ensures ReadLines(r, a + b) == match ReadLines(r, a) case None => None case Some(t) => ReadLines(t, b)
    decreases |a|
  {
    hide ReadLine, DropCR;
    if a == [] {
      assert a + b == b;
    } else {
      assert (a + b)[1..] == a[1..] + b;
      match ReadLine(r, DropCR(a[0])) {
        case None =>
        case Some(t) => ReadAppend(t, a[1..], b);
      }
    }
  }

  lemma ReadOne(r: Reading, l: string)
    ensures ReadLines(r, [l]) == ReadLine(r, DropCR(l))
  {
    hide ReadLine, DropCR;
    assert [l][1..] == [];
  }

  ghost predicate Writable(entries: map<string, string>) {
    forall k | k in entries :: Plain(k) && OneLine(entries[k])
  }

  /** The part of entries under the given keys. */
  function Part(ks: seq<string>, entries: map<string, string>): map<string, string> {
    map k | k in entries && k in ks :: Trim(entries[k])
  }

  lemma {:induction false} EntriesRead(r: Reading, ks: seq<string>, entries: map<string, string>)
    requires Writable(entries) && Sorted(ks) && (forall i | 0 <= i < |ks| :: ks[i] in entries)
    requires r.section != "" && r.section in r.d && r.d[r.section] == map[]
    ensures ReadLines(r, EntryLines(ks, entries)) == Some(r.(d := r.d[r.section := Part(ks, entries)]))
  {
    hide ReadLine, DropCR, EntryLine, Plain, OneLine, Trim, Less, Sorted;
    if ks == [] {
      assert Part(ks, entries) == map[];
      assert r.d[r.section := map[]] == r.d;
    } else {
      var n := |ks| - 1;
      var k := ks[n];
      SortedPrefix(ks);
      EntriesRead(r, ks[..n], entries);
      ReadAppend(r, EntryLines(ks[..n], entries), [EntryLine(k, entries[k])]);
      var t := r.(d := r.d[r.section := Part(ks[..n], entries)]);
      ReadOne(t, EntryLine(k, entries[k]));
      EntryRead(t, k, entries[k]);
      assert Part(ks, entries) == Part(ks[..n], entries)[k := Trim(entries[k])];
      assert r.d[r.section := Part(ks[..n], entries)][r.section := Part(ks, entries)]
        == r.d[r.section := Part(ks, entries)];
    }
  }

  lemma SortedPrefix(ks: seq<string>)
    requires Sorted(ks) && ks != []
    ensures Sorted(ks[..|ks| - 1]) && ks[|ks| - 1] !in ks[..|ks| - 1]
  {
    if ks[|ks| - 1] in ks[..|ks| - 1] {
      var i :| 0 <= i < |ks| - 1 && ks[i] == ks[|ks| - 1];
      LessTotal(ks[i], ks[i]);
    }
  }

  lemma SectionRead(r: Reading, section: string, entries: map<string, string>)
    requires Plain(section) && section !in r.d && Writable(entries)
    ensures ReadLines(r, SectionLines(section, entries))
              == Some(Reading(r.d[section := TidiedEntries(entries)], section))
  {
    hide ReadLine, DropCR, EntryLines, HeaderLine, SortedKeys, Less, Sorted, Trim, Writable;
    var ks := SortedKeys(entries.Keys);
    ListedKeys(entries);
    SectionNamed(section);
    var t := Reading(r.d[section := map[]], section);
    HeaderRead(r, section);
    ReadOne(r, HeaderLine(section));
    ReadAppend(r, [HeaderLine(section)], EntryLines(ks, entries));
    EntriesRead(t, ks, entries);
    AllKeys(entries);
    ReadAppend(r, [HeaderLine(section)] + EntryLines(ks, entries), [""]);
    var u := Reading(t.d[section := TidiedEntries(entries)], section);
    ReadOne(u, "");
    EmptyRead(u);
    assert r.d[section := map[]][section := TidiedEntries(entries)] == r.d[section := TidiedEntries(entries)];
  }

  lemma SectionNamed(section: string)
    requires Plain(section)
    ensures section != ""
  {
  }

  lemma AllKeys(entries: map<string, string>)
    ensures Part(SortedKeys(entries.Keys), entries) == TidiedEntries(entries)
  {
    var ks := SortedKeys(entries.Keys);
    forall k | k in entries
      ensures k in ks
    {
      assert k in Elements(ks);
    }
  }

  /** The sections printed so far. */
  function Sections(d: Daemon, n: nat): Daemon
    requires n <= |ORDER|
  {
    map s | s in d && s in ORDER[..n] :: TidiedEntries(d[s])
  }

  ghost predicate WritableAll(d: Daemon) {
    forall s | s in d :: Writable(d[s])
  }

  lemma {:induction false} SectionsRead(d: Daemon, n: nat) returns (last: string)
    requires n <= |ORDER| && WritableAll(d)
    ensures ReadLines(START, PrintedLines(d, n)) == Some(Reading(Sections(d, n), last))
  {
    hide SectionLines, Writable, TidiedEntries, Plain, ORDER, ReadLines, Sections;
    if n == 0 {
      last := "";
      NothingRead(d);
    } else {
      last := SectionsRead(d, n - 1);
      var s := ORDER[n - 1];
      MoreSections(d, n - 1);
      if s in d {
        OrderPlain();
        ReadAppend(START, PrintedLines(d, n - 1), SectionLines(s, d[s]));
        SectionRead(Reading(Sections(d, n - 1), last), s, d[s]);
        last := s;
      } else {
        assert PrintedLines(d, n) == PrintedLines(d, n - 1);
      }
    }
  }

  lemma NothingRead(d: Daemon)
    ensures ReadLines(START, []) == Some(Reading(Sections(d, 0), ""))
  {
    assert Sections(d, 0) == map[];
  }

  lemma MoreSections(d: Daemon, n: nat)
    requires n < |ORDER|
    ensures ORDER[n] !in Sections(d, n)
    ensures Sections(d, n + 1) == if ORDER[n] in d then Sections(d, n)[ORDER[n] := TidiedEntries(d[ORDER[n]])]
              else Sections(d, n)
  {
    hide ORDER, TidiedEntries;
    OrderDistinct(n);
  }

  lemma OrderDistinct(n: nat)
    requires n < |ORDER|
    ensures ORDER[n] !in ORDER[..n]
    ensures forall s :: s in ORDER[..n + 1] <==> s in ORDER[..n] || s == ORDER[n]
  {
  }

  // ----- which lines are too long -----

  ghost predicate ShortLines(lines: seq<string>) {
    forall i | 0 <= i < |lines| :: OneLine(lines[i]) && |lines[i]| < LINE_LIMIT
  }

  lemma {:induction false} EntryLinesShort(ks: seq<string>, entries: map<string, string>)
    requires Writable(entries) && forall i | 0 <= i < |ks| :: ks[i] in entries
    ensures ShortLines(EntryLines(ks, entries)) <==> forall i | 0 <= i < |ks| :: EntryFits(ks[i], entries[ks[i]])
    ensures forall i | 0 <= i < |EntryLines(ks, entries)| :: OneLine(EntryLines(ks, entries)[i])
  {
    hide Plain, OneLine;
    if ks != [] {
      var n := |ks| - 1;
      EntryLinesShort(ks[..n], entries);
      EntryOneLine(ks[n], entries[ks[n]]);
      ShortAppend(EntryLines(ks[..n], entries), [EntryLine(ks[n], entries[ks[n]])]);
      ShortOne(EntryLine(ks[n], entries[ks[n]]));
    }
  }

  lemma ShortAppend(a: seq<string>, b: seq<string>)
    ensures ShortLines(a + b) <==> ShortLines(a) && ShortLines(b)
  {
    hide OneLine;
    if ShortLines(a + b) {
      assert forall i | 0 <= i < |a| :: a[i] == (a + b)[i];
      assert forall i | 0 <= i < |b| :: b[i] == (a + b)[|a| + i];
    }
  }

  lemma ShortOne(l: string)
    ensures ShortLines([l]) <==> OneLine(l) && |l| < LINE_LIMIT
  {
    hide OneLine;
    assert [l][0] == l;
  }

  ghost predicate SectionFits(entries: map<string, string>) {
    forall k | k in entries :: EntryFits(k, entries[k])
  }

  lemma SectionShort(section: string, entries: map<string, string>)
    requires Plain(section) && |section| < 100 && Writable(entries)
    ensures ShortLines(SectionLines(section, entries)) <==> SectionFits(entries)
    ensures forall i | 0 <= i < |SectionLines(section, entries)| :: OneLine(SectionLines(section, entries)[i])
  {
    hide SortedKeys, Writable, Plain, OneLine, EntryFits, ShortLines, HeaderLine;
    var ks := SortedKeys(entries.Keys);
    ListedKeys(entries);
    HeaderShort(section);
    EntryLinesShort(ks, entries);
    ShortAppend([HeaderLine(section)], EntryLines(ks, entries));
    ShortAppend([HeaderLine(section)] + EntryLines(ks, entries), [""]);
    if SectionFits(entries) {
      assert forall i | 0 <= i < |ks| :: EntryFits(ks[i], entries[ks[i]]);
    }
    if forall i | 0 <= i < |ks| :: EntryFits(ks[i], entries[ks[i]]) {
      forall k | k in entries
        ensures EntryFits(k, entries[k])
      {
        assert k in Elements(ks);
      }
    }
  }

  lemma HeaderShort(section: string)
    requires Plain(section) && |section| < 100
    ensures ShortLines([HeaderLine(section)]) && ShortLines([""]) && OneLine(HeaderLine(section)) && OneLine("")
  {
    PlainMeans(section);
  }

  lemma OrderShort()
    ensures forall i | 0 <= i < |ORDER| :: |ORDER[i]| < 100
  {
  }

  /** The printed lines fit exactly when the settings of the sections visited do. */
  lemma {:induction false} PrintedShort(d: Daemon, n: nat)
    requires n <= |ORDER| && WritableAll(d)
    ensures ShortLines(PrintedLines(d, n)) <==> forall s | s in d && s in ORDER[..n] :: SectionFits(d[s])
    ensures forall i | 0 <= i < |PrintedLines(d, n)| :: OneLine(PrintedLines(d, n)[i])
  {
    hide SectionLines, Writable, Plain, ORDER, SectionFits, ShortLines, OneLine;
    if n == 0 {
      assert ShortLines([]) by {
        NoLines();
      }
    } else {
      PrintedShort(d, n - 1);
      var s := ORDER[n - 1];
      OrderDistinct(n - 1);
      OrderPlain();
      OrderShort();
      if s in d {
        SectionShort(s, d[s]);
        ShortAppend(PrintedLines(d, n - 1), SectionLines(s, d[s]));
      } else {
        assert PrintedLines(d, n) == PrintedLines(d, n - 1);
      }
    }
  }

  lemma NoLines()
    ensures ShortLines([])
  {
  }

  // ----- main results -----

  lemma ValidWritable(d: Daemon, isAddr: string -> bool)
    requires Valid(d, isAddr)
    ensures WritableAll(d) && forall s | s in d :: s in ORDER
  {
    hide ValueOk, KINDS, Plain, OneLine, ORDER;
    SchemaPlain();
    forall s | s in d
      ensures Writable(d[s]) && s in ORDER
    {
      forall k | k in d[s]
        ensures Plain(k) && OneLine(d[s][k])
      {
        assert SettingOk(s, k, d[s][k], isAddr);
        assert AllPlain(KINDS[s]);
      }
    }
  }

  /** Reading what Marshal printed for a valid configuration: every section comes
      back, empty ones included, and every setting, its value trimmed; unless a
      line is too long for the scanner, and then it is refused. */
  lemma MarshalParses(d: Daemon, isAddr: string -> bool)
    requires Valid(d, isAddr)
    ensures Parse(Printed(d)) == if Fits(d) then Some(Tidied(d)) else None
  {
    hide Valid, PrintedLines, WritableAll, RawLines, TidiedEntries, ReadLines, EntryFits, ORDER;
    ValidWritable(d, isAddr);
    var n := |ORDER|;
    PrintedShort(d, n);
    OneLinesScan(PrintedLines(d, n));
    assert ORDER[..n] == ORDER;
    var last := SectionsRead(d, n);
    assert Sections(d, n) == Tidied(d);
    FitsSections(d);
  }

  lemma OneLinesScan(lines: seq<string>)
    requires forall i | 0 <= i < |lines| :: OneLine(lines[i])
    ensures RawLines(Unlines(lines)) == lines
    ensures Scannable(Unlines(lines), LINE_LIMIT) <==> ShortLines(lines)
  {
    RawLinesBack(lines);
  }

  lemma FitsSections(d: Daemon)
    ensures Fits(d) <==> forall s | s in d :: SectionFits(d[s])
  {
    hide EntryFits;
    if forall s | s in d :: SectionFits(d[s]) {
      forall s, k | s in d && k in d[s]
        ensures EntryFits(k, d[s][k])
      {
        assert SectionFits(d[s]);
      }
    }
  }

  // ----- accepted texts -----

  /** What any accepted line can have put there. */
  ghost predicate Neat(d: Daemon) {
    forall s, k | s in d && k in d[s] :: EntryFits(k, d[s][k]) && Trimmed(d[s][k])
  }

  lemma LineNeat(r: Reading, line: string)
    requires Neat(r.d) && |line| < LINE_LIMIT && ReadLine(r, line).Some?
    ensures Neat(ReadLine(r, line).value.d)
  {
    hide Trim, Cut, Trimmed;
    var v := Trim(line);
    TrimShorter(line);
    if !Comment(v) && !Header(v) {
      CutParts(v);
      var (k, x) := Cut(v).value;
      TrimShorter(k);
      TrimShorter(x);
      TrimIsTrimmed(x);
      assert EntryFits(Trim(k), Trim(x));
    }
  }

  lemma {:induction false} LinesNeat(r: Reading, lines: seq<string>)
    requires Neat(r.d) && (forall i | 0 <= i < |lines| :: |lines[i]| < LINE_LIMIT) && ReadLines(r, lines).Some?
    ensures Neat(ReadLines(r, lines).value.d)
    decreases |lines|
  {
    hide Neat, ReadLine;
    if lines != [] {
      LineNeat(r, DropCR(lines[0]));
      LinesNeat(ReadLine(r, DropCR(lines[0])).value, lines[1..]);
    }
  }

  /** For every accepted and valid text, Marshal then ParseDaemon returns the same
      settings exactly, and printing once more changes nothing. */
  lemma AcceptedRoundTrip(text: string, isAddr: string -> bool)
    requires Parse(text).Some? && Valid(Parse(text).value, isAddr)
    ensures var d := Parse(text).value;
            Parse(Printed(d)) == Some(d) && Printed(Parse(Printed(d)).value) == Printed(d)
  {
    hide Valid, Printed, RawLines, ReadLines, EntryFits, Trimmed, Trim;
    var d := Parse(text).value;
    LinesNeat(START, RawLines(text));
    MarshalParses(d, isAddr);
    forall s, k | s in d && k in d[s]
      ensures Trim(d[s][k]) == d[s][k]
    {
      TrimKeeps(d[s][k]);
    }
    forall s | s in d
      ensures TidiedEntries(d[s]) == d[s]
    {
    }
    assert Tidied(d) == d;
  }
}
