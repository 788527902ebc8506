/** File names: what `validPath` accepts, what `read` lists, and how a path
    names a file once the kernel has resolved it. */
module Paths {

  const CONF := "avahi-daemon.conf"
  const HOSTS := "hosts"
  const SERVICES := "services/"
  const SUFFIX := ".service"

  predicate HasPrefix(s: string, p: string) {
    |p| <= |s| && s[..|p|] == p
  }

  predicate HasSuffix(s: string, q: string) {
    |q| <= |s| && s[|s| - |q|..] == q
  }

  function Split(s: string, sep: char): (parts: seq<string>)
    ensures |parts| > 0
  {
    if s == [] then [""]
    else
      var rest := Split(s[1..], sep);
      if s[0] == sep then [""] + rest else [[s[0]] + rest[0]] + rest[1..]
  }

  function Last(parts: seq<string>): string
    requires |parts| > 0
  {
    parts[|parts| - 1]
  }

  /** Lexical cleaning of a relative path, component by component, as path.Clean does it. */
  function Clean(parts: seq<string>, stack: seq<string>): seq<string> {
    if parts == [] then stack
    else
      var c := parts[0];
      Clean(parts[1..],
            if c == "" || c == "." then stack
            else if c == ".." && stack != [] && Last(stack) != ".." then stack[..|stack| - 1]
            else stack + [c])
  }

  function Base(p: string): string { Last(Split(p, '/')) }

  function DirParts(p: string): seq<string> {
    var parts := Split(p, '/');
    Clean(parts[..|parts| - 1], [])
  }

  predicate ValidPath(p: string) {
    || p == CONF
    || p == HOSTS
    || (&& HasPrefix(p, SERVICES)
        && DirParts(p) == ["services"]
        && HasSuffix(p, SUFFIX)
        && |Base(p)| > 8
        && '\\' !in p && '\0' !in p && '\r' !in p && '\n' !in p)
  }

  /** The names `read` asks for. No file name holds a NUL or a second slash. */
  predicate Managed(p: string) {
    || p == CONF
    || p == HOSTS
    || (&& HasPrefix(p, SERVICES)
        && HasSuffix(p[9..], SUFFIX)
        && '/' !in p[9..]
        && '\0' !in p)
  }

  predicate InServices(p: string) { HasPrefix(p, SERVICES) }

  /** The file a valid path names: `..`, `.` and doubled slashes resolve away. */
  function Canon(p: string): string {
    if p == CONF || p == HOSTS then p else SERVICES + Base(p)
  }

  /** The sibling temporary file that `stage` creates for p. */
  function TempName(p: string, id: string): string {
    (if p == CONF || p == HOSTS then "" else SERVICES) + ".awm-" + id + ".tmp"
  }

  /** The last part is the text after the last separator. */
  lemma SplitLast(s: string, sep: char)
    ensures var l := Last(Split(s, sep));
            && sep !in l && HasSuffix(s, l)
            && (|l| < |s| ==> s[|s| - |l| - 1] == sep)
  {
    LastIsSuffix(s, sep);
    LastAfterSep(s, sep);
  }

  lemma {:induction false} LastIsSuffix(s: string, sep: char)
    ensures HasSuffix(s, Last(Split(s, sep)))
  {
    if s != [] {
      LastIsSuffix(s[1..], sep);
      LastStep(s, sep);
      if Last(Split(s, sep)) != s {
        SuffixOfTail(s, Last(Split(s[1..], sep)));
      }
    }
  }

  lemma LastStep(s: string, sep: char)
    requires s != []
    ensures Last(Split(s, sep)) == s || Last(Split(s, sep)) == Last(Split(s[1..], sep))
  {
    PartsIffSep(s[1..], sep);
    assert [s[0]] + s[1..] == s;
  }

  lemma SuffixOfTail(s: string, l: string)
    requires s != [] && HasSuffix(s[1..], l)
    ensures HasSuffix(s, l)
  {
    assert s[1..][|s| - 1 - |l|..] == s[|s| - |l|..];
  }

  lemma {:induction false} LastAfterSep(s: string, sep: char)
    ensures var l := Last(Split(s, sep));
            sep !in l && |l| <= |s| && (|l| < |s| ==> s[|s| - |l| - 1] == sep)
  {
    if s != [] {
      LastAfterSep(s[1..], sep);
      PartsIffSep(s[1..], sep);
    }
  }

  lemma {:induction false} PartsIffSep(s: string, sep: char)
    ensures |Split(s, sep)| == 1 ==> Split(s, sep) == [s] && sep !in s
    ensures |Split(s, sep)| > 1 ==> sep in s && |Last(Split(s, sep))| < |s|
  {
    if s != [] {
      PartsIffSep(s[1..], sep);
      assert s == [s[0]] + s[1..];
    }
  }

  lemma BaseKeepsSuffix(p: string)
    requires HasSuffix(p, SUFFIX)
    ensures HasSuffix(Base(p), SUFFIX)
  {
    hide Split;
    SplitLast(p, '/');
    var l := Base(p);
    forall i | |p| - 8 <= i < |p|
      ensures p[i] != '/'
    {
      assert p[i] == p[|p| - 8..][i - (|p| - 8)];
    }
    assert |l| >= 8;
    assert l == p[|p| - |l|..];
    assert l[|l| - 8..] == p[|p| - 8..];
  }

  /** Whatever validPath accepts names a file that `read` lists. */
  lemma CanonManaged(p: string)
    requires ValidPath(p)
    ensures Managed(Canon(p))
  {
    hide Split, Clean, DirParts;
    if p != CONF && p != HOSTS {
      SplitLast(p, '/');
      BaseKeepsSuffix(p);
      var q := Canon(p);
      assert q[9..] == Base(p);
      assert q[..9] == SERVICES;
      assert Base(p) == p[|p| - |Base(p)|..];
    }
  }

  /** A listed name resolves to itself. */
  lemma ManagedCanon(p: string)
    requires Managed(p)
    ensures Canon(p) == p
  {
    hide Split;
    if p != CONF && p != HOSTS {
      SplitLast(p, '/');
      var l := Base(p);
      assert SERVICES == p[..9];
      assert p[8] == SERVICES[8] == '/';
      forall i | 9 <= i < |p|
        ensures p[i] != '/'
      {
        assert p[i] == p[9..][i - 9];
      }
      assert forall i :: |p| - |l| <= i < |p| ==> p[i] == l[i - (|p| - |l|)];
      assert |l| == |p| - 9;
      assert p == p[..9] + p[9..];
    }
  }

  /** A path that validPath accepts is the name of a listed file exactly when
      path.Clean would leave it alone. */
  lemma CanonicalIff(p: string)
    requires ValidPath(p)
    ensures Managed(p) <==> Canon(p) == p
  {
    CanonManaged(p);
    if Managed(p) {
      ManagedCanon(p);
    }
  }

  /** Every service file has a second spelling that `validPath` accepts. */
  lemma AliasAccepted(name: string)
    requires ValidPath(SERVICES + name) && '/' !in name
    ensures ValidPath(SERVICES + "/" + name)
    ensures Canon(SERVICES + "/" + name) == Canon(SERVICES + name) == SERVICES + name
    ensures Managed(SERVICES + name) && !Managed(SERVICES + "/" + name)
  {
    var p, q := SERVICES + name, SERVICES + "/" + name;
    AliasParts(name);
    assert p[..9] == q[..9] == SERVICES;
    assert p[9..] == name && q[9..][0] == '/';
    assert p[|p| - 8..] == q[|q| - 8..];
    ServicesOnly(p);
    ServicesOnly(q);
    CanonManaged(p);
  }

  lemma ServicesOnly(p: string)
    requires HasPrefix(p, SERVICES)
    ensures p != CONF && p != HOSTS
  {
    assert p[..9][0] == 's';
  }

  lemma AliasParts(name: string)
    requires '/' !in name
    ensures Base(SERVICES + name) == Base(SERVICES + "/" + name) == name
    ensures DirParts(SERVICES + name) == DirParts(SERVICES + "/" + name)
  {
    var d := SERVICES[..8];
    assert SERVICES == d + ['/'];
    PartsIffSep(name, '/');
    SplitAppend(d, '/', name);
    SplitAppend("", '/', name);
    SplitAppend(d, '/', "/" + name);
    assert SERVICES + name == d + ['/'] + name;
    assert "" + ['/'] + name == "/" + name;
    assert SERVICES + "/" + name == d + ['/'] + ("/" + name);
    var one, two := Split(SERVICES + name, '/'), Split(SERVICES + "/" + name, '/');
    assert one == [d, name] && two == [d, "", name];
    assert one[..1] == [d] && two[..2] == [d, ""];
    AliasClean(d);
  }

  lemma AliasClean(d: string)
    ensures Clean([d, ""], []) == Clean([d], [])
  {
    assert [d][1..] == [] && [d, ""][1..] == [""] && [""][1..] == [];
  }

  lemma {:induction false} SplitAppend(a: string, sep: char, b: string)
    requires sep !in a
    ensures Split(a + [sep] + b, sep) == [a] + Split(b, sep)
  {
    var s := a + [sep] + b;
    if a == [] {
      assert s[1..] == b;
    } else {
      assert s[1..] == a[1..] + [sep] + b;
      SplitAppend(a[1..], sep, b);
      assert a == [a[0]] + a[1..];
    }
  }

  lemma SuffixLast(s: string, q: string)
    requires HasSuffix(s, q) && |q| > 0
    ensures s[|s| - 1] == q[|q| - 1]
  {
    assert s[|s| - |q|..][|q| - 1] == s[|s| - 1];
  }

  /** Staged temporaries never show up in `read`. */
  lemma TempUnmanaged(p: string, id: string)
    ensures !Managed(TempName(p, id))
  {
    var t := TempName(p, id);
    assert t[|t| - 1] == 'p';
    assert CONF[|CONF| - 1] == 'f' && HOSTS[|HOSTS| - 1] == 's';
    if HasPrefix(t, SERVICES) && HasSuffix(t[9..], SUFFIX) {
      SuffixLast(t[9..], SUFFIX);
    }
  }
}
