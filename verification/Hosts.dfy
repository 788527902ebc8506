/** The static hosts file: reading, validating, printing, and reading again. */
module Hosts {
  import opened Basics
  import opened Paths
  import opened Texts
  import opened Scanning
  import opened Daemons

  datatype Host = Host(address: string, hostname: string)

  /** What netip.ParseAddr makes of a string: `plain` is the unmapped address in canonical form. */
  datatype Addr = Addr(zone: string, unspecified: bool, multicast: bool, plain: string)

  type Parser = string -> Option<Addr>

  const HOST_LINE_LIMIT: nat := 0x1_0000

  /** Addresses without a zone are written with hex digits, colons and dots. */
  predicate AddrChar(c: char) {
    '0' <= c <= '9' || 'a' <= c <= 'f' || 'A' <= c <= 'F' || c == ':' || c == '.'
  }

  ghost predicate AddrsPlain(addr: Parser) {
    forall s | addr(s).Some? && addr(s).value.zone == "" :: s != "" && forall i | 0 <= i < |s| :: AddrChar(s[i])
  }

  // ----- ValidateHosts -----

  function Lower(s: string): string {
    seq(|s|, i requires 0 <= i < |s| => if 'A' <= s[i] <= 'Z' then (s[i] as int + 32) as char else s[i])
  }

  predicate HostOk(h: Host, addr: Parser) {
    && addr(h.address).Some?
    && addr(h.address).value.zone == "" && !addr(h.address).value.unspecified && !addr(h.address).value.multicast
    && DomainName(h.hostname) && '.' in Undotted(h.hostname)
  }

  /** What two entries must not share. */
  function KeyOf(h: Host, addr: Parser): string {
    (match addr(h.address) case Some(a) => a.plain case None => "") + " " + Lower(Undotted(h.hostname))
  }

  predicate Distinct(hosts: seq<Host>, addr: Parser) {
    forall i, j | 0 <= i < j < |hosts| :: KeyOf(hosts[i], addr) != KeyOf(hosts[j], addr)
  }

  predicate ValidHosts(hosts: seq<Host>, addr: Parser) {
    (forall i | 0 <= i < |hosts| :: HostOk(hosts[i], addr)) && Distinct(hosts, addr)
  }

  method ValidateHosts(hosts: seq<Host>, addr: Parser) returns (ok: bool)
    ensures ok <==> ValidHosts(hosts, addr)
  {
    hide HostOk, KeyOf;
    var seen: set<string> := {};
    for i := 0 to |hosts|
      invariant forall j | 0 <= j < i :: HostOk(hosts[j], addr)
      invariant forall j, k | 0 <= j < k < i :: KeyOf(hosts[j], addr) != KeyOf(hosts[k], addr)
      invariant forall key :: key in seen <==> exists j :: 0 <= j < i && KeyOf(hosts[j], addr) == key
    {
      var fine := CheckHost(hosts[i], addr);
      if !fine {
        return false;
      }
      var key := KeyOf(hosts[i], addr);
      if key in seen {
        return false;
      }
      seen := seen + {key};
    }
    return true;
  }

  method CheckHost(h: Host, addr: Parser) returns (ok: bool)
    ensures ok <==> HostOk(h, addr)
  {
    var a := addr(h.address);
    if a.None? || a.value.zone != "" || a.value.unspecified || a.value.multicast {
      return false;
    }
    var fqdn := ValidDomain(h.hostname);
    return fqdn && '.' in Undotted(h.hostname);
  }

  // ----- ParseHosts -----

  /** The text before the first hash. */
  function Uncommented(l: string): string {
    if l == "" || l[0] == '#' then "" else [l[0]] + Uncommented(l[1..])
  }

  function Word(s: string): (w: string)
    ensures w <= s
    ensures s != "" && !IsSpace(s[0]) ==> w != ""
  {
    if s == "" || IsSpace(s[0]) then "" else
      assert s == [s[0]] + s[1..];
      [s[0]] + Word(s[1..])
  }

  /** strings.Fields. */
  function Fields(s: string): seq<string>
    decreases |s|
  {
    if s == "" then []
    else if IsSpace(s[0]) then Fields(s[1..])
    else [Word(s)] + Fields(s[|Word(s)|..])
  }

  /** What one line adds, or None for an error. */
  function HostLine(line: string): Option<seq<Host>> {
    var fields := Fields(Uncommented(DropCR(line)));
    if |fields| == 0 then Some([]) else if |fields| != 2 then None else Some([Host(fields[0], fields[1])])
  }

  function HostLines(lines: seq<string>): Option<seq<Host>> {
    if lines == [] then Some([])
    else
      match HostLines(lines[..|lines| - 1])
      case None => None
      case Some(hosts) =>
        match HostLine(lines[|lines| - 1])
        case None => None
        case Some(more) => Some(hosts + more)
  }

  function ReadHosts(text: string, addr: Parser): Option<seq<Host>> {
    if !Scannable(text, HOST_LINE_LIMIT) then None
    else
      match HostLines(RawLines(text))
      case None => None
      case Some(hosts) => if ValidHosts(hosts, addr) then Some(hosts) else None
  }

  method ParseHosts(text: string, addr: Parser) returns (r: Option<seq<Host>>)
    ensures r == ReadHosts(text, addr)
  {
    hide RawLines, Fields, Uncommented, DropCR, ValidHosts;
    var hosts: seq<Host> := [];
    var lines := RawLines(text);
    for i := 0 to |lines|
      invariant forall j | 0 <= j < i :: |lines[j]| < HOST_LINE_LIMIT
      invariant HostLines(lines[..i]) == Some(hosts)
    {
      assert lines[..i + 1][..i] == lines[..i];
      if |lines[i]| >= HOST_LINE_LIMIT {
        return None;
      }
      var fields := Fields(Uncommented(DropCR(lines[i])));
      if |fields| != 0 {
        if |fields| != 2 {
          BadLine(lines, i);
          return None;
        }
        hosts := hosts + [Host(fields[0], fields[1])];
      } else {
        assert hosts + [] == hosts;
      }
    }
    assert lines[..|lines|] == lines;
    var ok := ValidateHosts(hosts, addr);
    r := if ok then Some(hosts) else None;
  }

  lemma {:induction false} BadLine(lines: seq<string>, i: nat)
    requires i < |lines| && HostLine(lines[i]).None?
    ensures HostLines(lines).None?
  {
    hide HostLine;
    if i < |lines| - 1 {
      BadLine(lines[..|lines| - 1], i);
    }
  }

  // ----- MarshalHosts -----

  function Row(h: Host): string { h.address + (['\t'] + h.hostname) }

  function Rows(hosts: seq<Host>): (rows: seq<string>)
    ensures |rows| == |hosts|
  {
    seq(|hosts|, i requires 0 <= i < |hosts| => Row(hosts[i]))
  }

  method MarshalHosts(hosts: seq<Host>, addr: Parser) returns (r: Option<string>)
    ensures r == if ValidHosts(hosts, addr) then Some(Unlines(Rows(hosts))) else None
  {
    hide ValidHosts, Row;
    var ok := ValidateHosts(hosts, addr);
    if !ok {
      return None;
    }
    var b := "";
    for i := 0 to |hosts|
      invariant b == Unlines(Rows(hosts)[..i])
    {
      UnlinesOne(Rows(hosts)[..i], Row(hosts[i]));
      assert Rows(hosts)[..i + 1] == Rows(hosts)[..i] + [Row(hosts[i])];
      b := b + (Row(hosts[i]) + ['\n']);
    }
    assert Rows(hosts)[..|hosts|] == Rows(hosts);
    return Some(b);
  }

  // ----- reading what was printed -----

  predicate NameChar(c: char) { AlphaNum(c) || c == '-' || c == '.' }

  lemma {:induction false} SplitHas(s: string, sep: char, i: nat)
    requires i < |s| && s[i] != sep
    ensures exists p :: p in Split(s, sep) && s[i] in p
  {
    var rest := Split(s[1..], sep);
    if i == 0 {
      assert s[0] in Split(s, sep)[0];
    } else {
      SplitHas(s[1..], sep, i - 1);
      var p :| p in rest && s[i] in p;
      if p == rest[0] && s[0] != sep {
        assert s[i] in Split(s, sep)[0];
      } else {
        var j :| 0 <= j < |rest| && rest[j] == p;
        assert p in Split(s, sep) by {
          if s[0] == sep {
            assert Split(s, sep)[j + 1] == p;
          } else {
            assert Split(s, sep)[j] == p;
          }
        }
      }
    }
  }

  lemma DomainChars(s: string)
    requires DomainName(s)
    ensures s != "" && forall i | 0 <= i < |s| :: NameChar(s[i])
  {
    hide Split;
    var t := Undotted(s);
    forall i | 0 <= i < |s|
      ensures NameChar(s[i])
    {
      if i < |t| && s[i] != '.' {
        SplitHas(t, '.', i);
        var p :| p in Split(t, '.') && t[i] in p;
        assert Label(p);
      }
    }
  }

  predicate Solid(s: string) {
    s != "" && forall i | 0 <= i < |s| :: !IsSpace(s[i]) && s[i] != '#'
  }

  lemma {:induction false} WordOf(s: string, rest: string)
    requires Solid(s) && (rest != "" ==> IsSpace(rest[0]))
    ensures Word(s + rest) == s
  {
    if |s| == 1 {
      assert (s + rest)[1..] == rest;
      assert Word(rest) == "";
    } else {
      assert (s + rest)[1..] == s[1..] + rest;
      WordOf(s[1..], rest);
      assert s == [s[0]] + s[1..];
    }
  }

  lemma RowFields(h: Host)
    requires Solid(h.address) && Solid(h.hostname)
    ensures Fields(Row(h)) == [h.address, h.hostname]
  {
    var tail := ['\t'] + h.hostname;
    WordOf(h.address, tail);
    assert Row(h)[|h.address|..] == tail;
    assert tail[1..] == h.hostname;
    WordOf(h.hostname, "");
    assert h.hostname + "" == h.hostname;
    assert h.hostname[|h.hostname|..] == "";
    assert Fields(h.hostname) == [h.hostname] + Fields("");
    assert Fields(tail) == Fields(h.hostname);
  }

  lemma {:induction false} NoHash(l: string)
    requires '#' !in l
    ensures Uncommented(l) == l
  {
    if l != "" {
      NoHash(l[1..]);
      assert l == [l[0]] + l[1..];
    }
  }

  lemma HostSolid(h: Host, addr: Parser)
    requires AddrsPlain(addr) && HostOk(h, addr)
    ensures Solid(h.address) && Solid(h.hostname) && OneLine(Row(h)) && '#' !in Row(h)
  {
    DomainChars(h.hostname);
    assert forall i | 0 <= i < |h.address| :: AddrChar(h.address[i]);
  }

  lemma RowRead(h: Host, addr: Parser)
    requires AddrsPlain(addr) && HostOk(h, addr)
    ensures HostLine(Row(h)) == Some([h]) && OneLine(Row(h))
  {
    hide Fields, Uncommented, Solid, HostOk, AddrsPlain;
    HostSolid(h, addr);
    RowFields(h);
    NoHash(Row(h));
    assert Row(h) != "" ==> Row(h)[|Row(h)| - 1] in Row(h);
  }

  lemma {:induction false} RowsRead(hosts: seq<Host>, addr: Parser)
    requires AddrsPlain(addr) && forall i | 0 <= i < |hosts| :: HostOk(hosts[i], addr)
    ensures HostLines(Rows(hosts)) == Some(hosts)
    ensures forall i | 0 <= i < |hosts| :: OneLine(Rows(hosts)[i])
  {
    hide HostLine, Row, OneLine, HostOk, AddrsPlain;
    if hosts != [] {
      var n := |hosts| - 1;
      RowsRead(hosts[..n], addr);
      RowRead(hosts[n], addr);
      assert Rows(hosts)[..n] == Rows(hosts[..n]);
      assert hosts == hosts[..n] + [hosts[n]];
      assert forall i | 0 <= i < n :: Rows(hosts)[i] == Rows(hosts[..n])[i];
    }
  }

  predicate HostsFit(hosts: seq<Host>) {
    forall i | 0 <= i < |hosts| :: |hosts[i].address| + 1 + |hosts[i].hostname| < HOST_LINE_LIMIT
  }

  /** Every valid list comes back unchanged, unless a line is too long for the scanner. */
  lemma HostsRoundTrip(hosts: seq<Host>, addr: Parser)
    requires AddrsPlain(addr) && ValidHosts(hosts, addr)
    ensures ReadHosts(Unlines(Rows(hosts)), addr) == if HostsFit(hosts) then Some(hosts) else None
  {
    hide HostOk, AddrsPlain, Distinct, RawLines, HostLines, Row, Scannable, HostsFit, OneLine;
    RowsRead(hosts, addr);
    RowsScan(hosts);
  }

  lemma RowsScan(hosts: seq<Host>)
    requires forall i | 0 <= i < |hosts| :: OneLine(Rows(hosts)[i])
    ensures RawLines(Unlines(Rows(hosts))) == Rows(hosts)
    ensures Scannable(Unlines(Rows(hosts)), HOST_LINE_LIMIT) <==> HostsFit(hosts)
  {
    hide RawLines, Unlines;
    RawLinesBack(Rows(hosts));
    assert forall i | 0 <= i < |hosts| :: |Rows(hosts)[i]| == |hosts[i].address| + 1 + |hosts[i].hostname|;
  }

  lemma {:induction false} FieldsShorter(s: string)
    requires |Fields(s)| > 0
    ensures |Fields(s)[0]| <= |s|
    ensures |Fields(s)| > 1 ==> |Fields(s)[0]| + 1 + |Fields(s)[1]| <= |s|
    decreases |s|
  {
    if IsSpace(s[0]) {
      FieldsShorter(s[1..]);
    } else {
      var w, rest := Word(s), s[|Word(s)|..];
      if Fields(rest) != [] {
        FieldsShorter(rest);
        WordEnds(s);
      }
    }
  }

  /** What follows a word begins with space. */
  lemma {:induction false} WordEnds(s: string)
    ensures |Word(s)| < |s| ==> IsSpace(s[|Word(s)|])
    ensures |Word(s)| < |s| && Fields(s[|Word(s)|..]) != [] ==> |Fields(s[|Word(s)|..])[0]| < |s| - |Word(s)|
  {
    if s != "" && !IsSpace(s[0]) {
      WordEnds(s[1..]);
      assert s[1..][|Word(s[1..])|..] == s[|Word(s)|..];
    } else if s != "" {
      assert s[0..] == s;
      if Fields(s) != [] {
        FirstShorter(s[1..]);
      }
    }
  }

  lemma {:induction false} FirstShorter(s: string)
    requires Fields(s) != []
    ensures |Fields(s)[0]| <= |s|
    decreases |s|
  {
    if IsSpace(s[0]) {
      FirstShorter(s[1..]);
    }
  }

  lemma {:induction false} UncommentedShorter(l: string)
    ensures |Uncommented(l)| <= |l|
  {
    if l != "" {
      UncommentedShorter(l[1..]);
    }
  }

  lemma {:induction false} LinesFit(lines: seq<string>)
    requires HostLines(lines).Some? && forall i | 0 <= i < |lines| :: |lines[i]| < HOST_LINE_LIMIT
    ensures HostsFit(HostLines(lines).value)
  {
    if lines != [] {
      var l := lines[|lines| - 1];
      LinesFit(lines[..|lines| - 1]);
      var fields := Fields(Uncommented(DropCR(l)));
      UncommentedShorter(DropCR(l));
      if |fields| == 2 {
        FieldsShorter(Uncommented(DropCR(l)));
      }
    }
  }

  /** Every accepted file keeps its entries when it is printed and read again. */
  lemma AcceptedHosts(text: string, addr: Parser)
    requires AddrsPlain(addr) && ReadHosts(text, addr).Some?
    ensures ReadHosts(Unlines(Rows(ReadHosts(text, addr).value)), addr) == ReadHosts(text, addr)
  {
    hide ValidHosts, AddrsPlain, HostLines, HostsFit, RawLines;
    LinesFit(RawLines(text));
    HostsRoundTrip(ReadHosts(text, addr).value, addr);
  }
}
