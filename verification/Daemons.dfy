/** avahi-daemon.conf: reading, validating and printing. */
module Daemons {
  import opened Basics
  import opened Paths
  import opened Revision
  import opened Texts
  import opened Scanning
  import opened Schemas

  type Daemon = map<string, map<string, string>>

  const LINE_LIMIT: nat := 0x10_0000

  // ----- ParseDaemon -----

  datatype Reading = Reading(d: Daemon, section: string)

  /** strings.Cut at the first equals sign. */
  function Cut(v: string): Option<(string, string)> {
    if v == "" then None
    else if v[0] == '=' then Some(("", v[1..]))
    else
      match Cut(v[1..])
      case None => None
      case Some((k, x)) => Some(([v[0]] + k, x))
  }

  predicate Comment(v: string) {
    v == "" || v[0] == '#' || v[0] == ';'
  }

  predicate Header(v: string) {
    |v| > 1 && v[0] == '[' && v[|v| - 1] == ']'
  }

  function Entries(d: Daemon, section: string): map<string, string> {
    if section in d then d[section] else map[]
  }

  /** What one line does, or None for an error. */
  function ReadLine(r: Reading, line: string): Option<Reading> {
    var v := Trim(line);
    if Comment(v) then Some(r)
    else if Header(v) then
      var section := Trim(v[1..|v| - 1]);
      if section == "" then None
      else Some(Reading(if section in r.d then r.d else r.d[section := map[]], section))
    else
      match Cut(v)
      case None => None
      case Some((k, x)) =>
        var key := Trim(k);
        if r.section == "" || key == "" || key in Entries(r.d, r.section) then None
        else Some(r.(d := r.d[r.section := Entries(r.d, r.section)[key := Trim(x)]]))
  }

  function ReadLines(r: Reading, lines: seq<string>): Option<Reading>
    decreases |lines|
  {
    if lines == [] then Some(r)
    else
      match ReadLine(r, DropCR(lines[0]))
      case None => None
      case Some(next) => ReadLines(next, lines[1..])
  }

  const START := Reading(map[], "")

  function Parse(text: string): Option<Daemon> {
    if !Scannable(text, LINE_LIMIT) then None
    else
      match ReadLines(START, RawLines(text))
      case None => None
      case Some(r) => Some(r.d)
  }

  method ParseDaemon(text: string) returns (r: Option<Daemon>)
    ensures r == Parse(text)
  {
    hide Trim, Comment, Header, Cut, RawLines, DropCR;
    var d: Daemon, section := map[], "";
    var lines := RawLines(text);
    var i := 0;
    while i < |lines|
      invariant 0 <= i <= |lines|
      invariant forall j | 0 <= j < i :: |lines[j]| < LINE_LIMIT
      invariant ReadLines(START, lines) == ReadLines(Reading(d, section), lines[i..])
      invariant section == "" || section in d
    {
      if |lines[i]| >= LINE_LIMIT {
        return None;
      }
      ghost var before := Reading(d, section);
      assert lines[i..][0] == lines[i] && lines[i..][1..] == lines[i + 1..];
      var v := Trim(DropCR(lines[i]));
      if Comment(v) {
      } else if Header(v) {
        section := Trim(Middle(v));
        if section == "" {
          return None;
        }
        if section !in d {
          d := d[section := map[]];
        }
      } else {
        var cut := Cut(v);
        if cut.None? || section == "" || Trim(cut.value.0) == "" {
          return None;
        }
        var key, value := Trim(cut.value.0), Trim(cut.value.1);
        if key in d[section] {
          return None;
        }
        d := d[section := d[section][key := value]];
      }
      assert ReadLine(before, DropCR(lines[i])) == Some(Reading(d, section));
      i := i + 1;
    }
    return Some(d);
  }

  function Middle(v: string): string {
    if Header(v) then v[1..|v| - 1] else ""
  }

  // ----- Validate -----

  predicate AlphaNum(c: char) {
    'a' <= c <= 'z' || 'A' <= c <= 'Z' || '0' <= c <= '9'
  }

  predicate Label(s: string) {
    && 1 <= |s| <= 63 && AlphaNum(s[0]) && AlphaNum(s[|s| - 1])
    && forall i | 0 <= i < |s| :: AlphaNum(s[i]) || s[i] == '-'
  }

  function Undotted(s: string): string {
    if s != "" && s[|s| - 1] == '.' then s[..|s| - 1] else s
  }

  predicate DomainName(s: string) {
    var t := Undotted(s);
    1 <= |t| <= 253 && forall i | 0 <= i < |Split(t, '.')| :: Label(Split(t, '.')[i])
  }

  /** ValidDomain, label by label. */
  method ValidDomain(s: string) returns (ok: bool)
    ensures ok <==> DomainName(s)
  {
    hide Label, Split;
    var t := Undotted(s);
    if |t| == 0 || |t| > 253 {
      return false;
    }
    var parts := Split(t, '.');
    for i := 0 to |parts|
      invariant forall j | 0 <= j < i :: Label(parts[j])
    {
      if !Label(parts[i]) {
        return false;
      }
    }
    return true;
  }

  predicate InterfaceName(s: string) {
    1 <= |s| <= 15 && forall i | 0 <= i < |s| :: s[i] !in "\t\n\r /:," && s[i] != 0x0C as char && s[i] != '\0'
  }

  predicate Unsigned(s: string) {
    s != "" && (forall i | 0 <= i < |s| :: '0' <= s[i] <= '9') && Value(s, 10) < 0x1_0000_0000_0000_0000
  }

  predicate ItemOk(kind: Kind, item: string, isAddr: string -> bool) {
    match kind
    case Domains => DomainName(item)
    case Interfaces => InterfaceName(item)
    case Ips => isAddr(item)
    case _ => true
  }

  predicate ValueOk(kind: Kind, value: string, isAddr: string -> bool) {
    match kind
    case Bool => value == "yes" || value == "no"
    case Dbus => value == "yes" || value == "no" || value == "warn"
    case HostLabel => Label(value)
    case Domain => DomainName(value)
    case Uint => Unsigned(value)
    case Free => true
    case _ => value == "" || forall i | 0 <= i < |Split(value, ',')| :: ItemOk(kind, Trim(Split(value, ',')[i]), isAddr)
  }

  predicate Printable(value: string) {
    OneLine(value) && '\0' !in value
  }

  predicate SettingOk(section: string, key: string, value: string, isAddr: string -> bool) {
    && section in KINDS && key in KINDS[section]
    && Printable(value) && ValueOk(KINDS[section][key], value, isAddr)
  }

  predicate Valid(d: Daemon, isAddr: string -> bool) {
    && (forall s | s in d :: s in KINDS)
    && (forall s, k | s in d && k in d[s] :: SettingOk(s, k, d[s][k], isAddr))
    && !(Get(Entries(d, "server"), "use-ipv4") == Some("no") && Get(Entries(d, "server"), "use-ipv6") == Some("no"))
  }

  method CheckValue(kind: Kind, value: string, isAddr: string -> bool) returns (valid: bool)
    ensures valid <==> ValueOk(kind, value, isAddr)
  {
    hide Label, Split, DomainName, InterfaceName, Trim, Unsigned;
    valid := true;
    match kind {
      case Bool => valid := value == "yes" || value == "no";
      case Dbus => valid := value == "yes" || value == "no" || value == "warn";
      case HostLabel => valid := Label(value);
      case Domain => valid := ValidDomain(value);
      case Uint => valid := Unsigned(value);
      case Free =>
      case _ =>
        if value != "" {
          var items := Split(value, ',');
          for i := 0 to |items|
            invariant valid <==> forall j | 0 <= j < i :: ItemOk(kind, Trim(items[j]), isAddr)
          {
            var ok := CheckItem(kind, Trim(items[i]), isAddr);
            valid := valid && ok;
          }
        }
    }
  }

  method CheckItem(kind: Kind, item: string, isAddr: string -> bool) returns (ok: bool)
    ensures ok <==> ItemOk(kind, item, isAddr)
  {
    if kind == Domains {
      ok := ValidDomain(item);
    } else {
      ok := ItemOk(kind, item, isAddr);
    }
  }

  predicate SectionOk(section: string, entries: map<string, string>, isAddr: string -> bool) {
    section in KINDS && forall k | k in entries :: SettingOk(section, k, entries[k], isAddr)
  }

  method CheckSection(section: string, entries: map<string, string>, isAddr: string -> bool) returns (ok: bool)
    ensures ok <==> SectionOk(section, entries, isAddr)
  {
    hide ValueOk, KINDS, Printable;
    if section !in KINDS {
      return false;
    }
    var kinds := KINDS[section];
    var todo := entries.Keys;
    while todo != {}
      invariant todo <= entries.Keys
      invariant forall k | k in entries && k !in todo :: SettingOk(section, k, entries[k], isAddr)
      decreases todo
    {
      var k :| k in todo;
      todo := todo - {k};
      if k !in kinds || !Printable(entries[k]) {
        return false;
      }
      var valid := CheckValue(kinds[k], entries[k], isAddr);
      if !valid {
        return false;
      }
    }
    return true;
  }

  /** Validate visits the sections in no particular order. */
  method Validate(d: Daemon, isAddr: string -> bool) returns (ok: bool)
    ensures ok <==> Valid(d, isAddr)
  {
    hide SettingOk, KINDS;
    var todo := d.Keys;
    while todo != {}
      invariant todo <= d.Keys
      invariant forall s | s in d && s !in todo :: SectionOk(s, d[s], isAddr)
      decreases todo
    {
      var s :| s in todo;
      todo := todo - {s};
      var fine := CheckSection(s, d[s], isAddr);
      if !fine {
        return false;
      }
    }
    return !(Get(Entries(d, "server"), "use-ipv4") == Some("no") &&
      Get(Entries(d, "server"), "use-ipv6") == Some("no"));
  }

  // ----- Marshal -----

  function EntryLine(k: string, v: string): string { k + (['='] + v) }

  function HeaderLine(section: string): string { ['['] + section + [']'] }

  function EntryLines(ks: seq<string>, entries: map<string, string>): seq<string>
    requires forall i | 0 <= i < |ks| :: ks[i] in entries
  {
    if ks == [] then [] else EntryLines(ks[..|ks| - 1], entries) + [EntryLine(ks[|ks| - 1], entries[ks[|ks| - 1]])]
  }

  lemma ListedKeys(entries: map<string, string>)
    ensures forall i | 0 <= i < |SortedKeys(entries.Keys)| :: SortedKeys(entries.Keys)[i] in entries
  {
    forall i | 0 <= i < |SortedKeys(entries.Keys)|
      ensures SortedKeys(entries.Keys)[i] in entries
    {
      assert SortedKeys(entries.Keys)[i] in Elements(SortedKeys(entries.Keys));
    }
  }

  ghost function SectionLines(section: string, entries: map<string, string>): seq<string> {
    ListedKeys(entries);
    [HeaderLine(section)] + EntryLines(SortedKeys(entries.Keys), entries) + [""]
  }

  ghost function PrintedLines(d: Daemon, n: nat): seq<string>
    requires n <= |ORDER|
  {
    if n == 0 then []
    else PrintedLines(d, n - 1) + if ORDER[n - 1] in d then SectionLines(ORDER[n - 1], d[ORDER[n - 1]]) else []
  }

  ghost function Printed(d: Daemon): string { Unlines(PrintedLines(d, |ORDER|)) }

  method PrintSection(section: string, entries: map<string, string>) returns (b: string)
    ensures b == Unlines(SectionLines(section, entries))
  {
    hide SortedKeys, Sorted, Less, EntryLine, HeaderLine;
    b := HeaderLine(section) + ['\n'];
    UnlinesOne([], HeaderLine(section));
    var keys := SortedPaths(entries.Keys);
    ListedKeys(entries);
    var i := 0;
    while i < |keys|
      invariant 0 <= i <= |keys|
      invariant b == Unlines([HeaderLine(section)] + EntryLines(keys[..i], entries))
    {
      assert keys[..i + 1][..i] == keys[..i];
      UnlinesOne([HeaderLine(section)] + EntryLines(keys[..i], entries), EntryLine(keys[i], entries[keys[i]]));
      assert [HeaderLine(section)] + EntryLines(keys[..i + 1], entries)
          == [HeaderLine(section)] + EntryLines(keys[..i], entries) + [EntryLine(keys[i], entries[keys[i]])];
      b := b + (EntryLine(keys[i], entries[keys[i]]) + ['\n']);
      i := i + 1;
    }
    assert keys[..i] == keys;
    UnlinesOne([HeaderLine(section)] + EntryLines(keys, entries), "");
    b := b + ("" + ['\n']);
  }

  method Marshal(d: Daemon, isAddr: string -> bool) returns (r: Option<string>)
    ensures r == if Valid(d, isAddr) then Some(Printed(d)) else None
  {
    hide Valid, SectionLines, Unlines;
    var ok := Validate(d, isAddr);
    if !ok {
      return None;
    }
    var b := "";
    NothingPrinted();
    for i := 0 to |ORDER|
      invariant b == Unlines(PrintedLines(d, i))
    {
      if ORDER[i] in d {
        var text := PrintSection(ORDER[i], d[ORDER[i]]);
        UnlinesAppend(PrintedLines(d, i), SectionLines(ORDER[i], d[ORDER[i]]));
        b := b + text;
      } else {
        assert PrintedLines(d, i + 1) == PrintedLines(d, i) + [] == PrintedLines(d, i);
      }
    }
    return Some(b);
  }

  lemma NothingPrinted()
    ensures Unlines([]) == ""
  {
  }
}
