/** `Image.Revision`: the text that is hashed, and why it names one image. */
module Revision {
  import opened Images

  // ----- sort.Strings: byte order, and the one sorted listing of a set -----

  predicate Less(a: string, b: string) {
    if b == [] then false
    else if a == [] then true
    else if a[0] != b[0] then a[0] < b[0]
    else Less(a[1..], b[1..])
  }

  lemma {:induction false} LessTotal(a: string, b: string)
    ensures a == b <==> !Less(a, b) && !Less(b, a)
    ensures !(Less(a, b) && Less(b, a))
  {
    if a != [] && b != [] {
      assert a == [a[0]] + a[1..] && b == [b[0]] + b[1..];
      LessTotal(a[1..], b[1..]);
    }
  }

  lemma {:induction false} LessTransitive(a: string, b: string, c: string)
    requires Less(a, b) && Less(b, c)
    ensures Less(a, c)
  {
    if a != [] && a[0] == b[0] == c[0] {
      LessTransitive(a[1..], b[1..], c[1..]);
    }
  }

  predicate Sorted(ks: seq<string>) {
    forall i, j | 0 <= i < j < |ks| :: Less(ks[i], ks[j])
  }

  function Elements(ks: seq<string>): set<string> {
    set k | k in ks
  }

  /** A set has one sorted listing, so no map iteration order can show. */
  lemma {:induction false} SortedUnique(a: seq<string>, b: seq<string>)
    requires Sorted(a) && Sorted(b) && Elements(a) == Elements(b)
    ensures a == b
  {
    if a == [] || b == [] {
      EmptyListing(a);
      EmptyListing(b);
    } else {
      assert a[0] in Elements(b) && b[0] in Elements(a);
      LessTotal(a[0], b[0]);
      HeadIsLeast(a, b[0]);
      HeadIsLeast(b, a[0]);
      TailElements(a);
      TailElements(b);
      SortedUnique(a[1..], b[1..]);
      assert a == [a[0]] + a[1..] && b == [b[0]] + b[1..];
    }
  }

  lemma EmptyListing(ks: seq<string>)
    ensures Elements(ks) == {} <==> ks == []
  {
    if ks != [] {
      assert ks[0] in Elements(ks);
    }
  }

  lemma HeadIsLeast(ks: seq<string>, k: string)
    requires Sorted(ks) && k in ks
    ensures k == ks[0] || Less(ks[0], k)
  {
  }

  lemma TailElements(ks: seq<string>)
    requires Sorted(ks) && ks != []
    ensures Elements(ks[1..]) == Elements(ks) - {ks[0]} && Sorted(ks[1..])
  {
    LessTotal(ks[0], ks[0]);
    forall k | k in ks && k != ks[0]
      ensures k in ks[1..]
    {
      var i :| 0 <= i < |ks| && ks[i] == k;
      assert ks[1..][i - 1] == k;
    }
  }

  function Insert(ks: seq<string>, k: string): (r: seq<string>)
    requires Sorted(ks) && k !in ks
    ensures Sorted(r) && Elements(r) == Elements(ks) + {k} && |r| == |ks| + 1
  {
    if ks == [] then [k]
    else if Less(k, ks[0]) then
      (forall j | 0 < j < |ks| ensures Less(k, ks[j]) { LessTransitive(k, ks[0], ks[j]); }
       [k] + ks)
    else
      LessTotal(k, ks[0]);
      assert ks == [ks[0]] + ks[1..];
      var rest := Insert(ks[1..], k);
      assert forall i | 0 <= i < |rest| :: rest[i] in Elements(ks[1..]) + {k};
      assert forall i | 0 <= i < |rest| :: Less(ks[0], rest[i]);
      [ks[0]] + rest
  }

  ghost function SortedKeys(keys: set<string>): (ks: seq<string>)
    ensures Sorted(ks) && Elements(ks) == keys
  {
    if keys == {} then []
    else
      var k :| k in keys;
      Insert(SortedKeys(keys - {k}), k)
  }

  /** `sortedPaths`, whatever order the map yields its keys in. */
  method SortedPaths(keys: set<string>) returns (ks: seq<string>)
    ensures ks == SortedKeys(keys) && Sorted(ks) && Elements(ks) == keys
  {
    ks := [];
    var todo := keys;
    while todo != {}
      invariant todo <= keys && Sorted(ks) && Elements(ks) == keys - todo
      decreases todo
    {
      var k :| k in todo;
      assert k !in Elements(ks);
      ks := Insert(ks, k);
      todo := todo - {k};
    }
    SortedUnique(ks, SortedKeys(keys));
  }

  // ----- the hashed text -----

  datatype Meta = Meta(sha: string, mode: Perm, uid: int, gid: int)

  function Digits(n: nat, base: nat): (s: string)
    requires base == 8 || base == 10
    ensures s != [] && forall c | c in s :: '0' <= c <= '9'
  {
    var last := [('0' as int + n % base) as char];
    if n < base then last else Digits(n / base, base) + last
  }

  function Value(s: string, base: nat): int {
    if s == [] then 0 else Value(s[..|s| - 1], base) * base + (s[|s| - 1] as int - '0' as int)
  }

  lemma ValueOfLast(s: string, d: nat, base: nat)
    requires d < 10
    ensures Value(s + [('0' as int + d) as char], base) == Value(s, base) * base + d
  {
    var t := s + [('0' as int + d) as char];
    assert t[..|t| - 1] == s;
  }

  lemma DivMod(n: nat, base: nat)
    requires base > 0
    ensures n / base * base + n % base == n
  {
  }

  lemma {:induction false} DigitsValue(n: nat, base: nat)
    requires base == 8 || base == 10
    ensures Value(Digits(n, base), base) == n
  {
    var q, r := n / base, n % base;
    DivMod(n, base);
    if n < base {
      assert r == n;
      assert Digits(n, base) == "" + [('0' as int + r) as char];
      ValueOfLast("", r, base);
    } else {
      DigitsValue(q, base);
      assert Digits(n, base) == Digits(q, base) + [('0' as int + r) as char];
      ValueOfLast(Digits(q, base), r, base);
    }
  }

  function Decimal(i: int): (s: string)
    ensures s != [] && forall c | c in s :: '0' <= c <= '9' || c == '-'
  {
    if i < 0 then "-" + Digits(-i, 10) else Digits(i, 10)
  }

  lemma DecimalInjective(i: int, j: int)
    requires Decimal(i) == Decimal(j)
    ensures i == j
  {
    var m, n := if i < 0 then -i else i, if j < 0 then -j else j;
    var a, b := Digits(m, 10), Digits(n, 10);
    assert a[0] in a && b[0] in b;
    assert Decimal(i)[0] == (if i < 0 then '-' else a[0]);
    assert Decimal(j)[0] == (if j < 0 then '-' else b[0]);
    assert ("-" + a)[1..] == a && ("-" + b)[1..] == b;
    DigitsValue(m, 10);
    DigitsValue(n, 10);
  }

  /** One line and what follows it: the path, the digest, the mode in octal, the owner. */
  function Line(p: string, m: Meta, rest: string): string {
    p + (['\0'] + (m.sha + (['\0'] + Owner(m, rest))))
  }

  function Owner(m: Meta, rest: string): string {
    Digits(m.mode, 8) + ([':'] + (Decimal(m.uid) + ([':'] + (Decimal(m.gid) + (['\n'] + rest)))))
  }

  function Lines(ks: seq<string>, metas: map<string, Meta>): string
    requires forall k | k in ks :: k in metas
  {
    if ks == [] then "" else Line(ks[0], metas[ks[0]], Lines(ks[1..], metas))
  }

  ghost function Text(metas: map<string, Meta>): string {
    assert forall k | k in SortedKeys(metas.Keys) :: k in Elements(SortedKeys(metas.Keys));
    Lines(SortedKeys(metas.Keys), metas)
  }

  predicate NulFree(metas: map<string, Meta>) {
    forall p | p in metas :: '\0' !in p && '\0' !in metas[p].sha
  }

  /** Two texts cut at the same mark agree on both sides of it. */
  lemma {:induction false} CutUnique(c: char, x: string, y: string, x': string, y': string)
    requires c !in x && c !in x' && x + ([c] + y) == x' + ([c] + y')
    ensures x == x' && y == y'
  {
    var s, s' := x + ([c] + y), x' + ([c] + y');
    assert s[0] == (if x == [] then c else x[0]);
    assert s'[0] == (if x' == [] then c else x'[0]);
    if x == [] {
      assert s[1..] == y && s'[1..] == y';
    } else {
      assert s[1..] == x[1..] + ([c] + y) && s'[1..] == x'[1..] + ([c] + y');
      CutUnique(c, x[1..], y, x'[1..], y');
      assert x == [x[0]] + x[1..] && x' == [x'[0]] + x'[1..];
    }
  }

  lemma OwnerInjective(m: Meta, rest: string, n: Meta, rest': string)
    requires Owner(m, rest) == Owner(n, rest')
    ensures m.mode == n.mode && m.uid == n.uid && m.gid == n.gid && rest == rest'
  {
    hide Digits, Decimal;
    var g, g' := Decimal(m.gid) + (['\n'] + rest), Decimal(n.gid) + (['\n'] + rest');
    var u, u' := Decimal(m.uid) + ([':'] + g), Decimal(n.uid) + ([':'] + g');
    CutUnique(':', Digits(m.mode, 8), u, Digits(n.mode, 8), u');
    CutUnique(':', Decimal(m.uid), g, Decimal(n.uid), g');
    CutUnique('\n', Decimal(m.gid), rest, Decimal(n.gid), rest');
    DigitsValue(m.mode, 8);
    DigitsValue(n.mode, 8);
    DecimalInjective(m.uid, n.uid);
    DecimalInjective(m.gid, n.gid);
  }

  lemma LineInjective(p: string, m: Meta, rest: string, q: string, n: Meta, rest': string)
    requires '\0' !in p && '\0' !in m.sha && '\0' !in q && '\0' !in n.sha
    requires Line(p, m, rest) == Line(q, n, rest')
    ensures p == q && m == n && rest == rest'
  {
    hide Owner;
    var a, b := Owner(m, rest), Owner(n, rest');
    CutUnique('\0', p, m.sha + (['\0'] + a), q, n.sha + (['\0'] + b));
    CutUnique('\0', m.sha, a, n.sha, b);
    OwnerInjective(m, rest, n, rest');
  }

  lemma {:induction false} LinesInjective(ks: seq<string>, a: map<string, Meta>, ls: seq<string>, b: map<string, Meta>)
    requires (forall k | k in ks :: k in a) && (forall k | k in ls :: k in b)
    requires NulFree(a) && NulFree(b) && Lines(ks, a) == Lines(ls, b)
    ensures ks == ls && forall k | k in ks :: a[k] == b[k]
  {
    if ks != [] && ls != [] {
      hide Line;
      LineInjective(ks[0], a[ks[0]], Lines(ks[1..], a), ls[0], b[ls[0]], Lines(ls[1..], b));
      LinesInjective(ks[1..], a, ls[1..], b);
      assert ks == [ks[0]] + ks[1..] && ls == [ls[0]] + ls[1..];
    }
  }

  /** The hashed text names every path, digest, mode and owner, and nothing else. */
  lemma TextInjective(a: map<string, Meta>, b: map<string, Meta>)
    requires NulFree(a) && NulFree(b)
    ensures Text(a) == Text(b) <==> a == b
  {
    if Text(a) == Text(b) {
      var ka, kb := SortedKeys(a.Keys), SortedKeys(b.Keys);
      assert forall k | k in ka :: k in Elements(ka);
      assert forall k | k in kb :: k in Elements(kb);
      LinesInjective(ka, a, kb, b);
      assert a.Keys == Elements(ka) == Elements(kb) == b.Keys;
    }
  }

  // ----- the revision of an image -----

  /** What the model asks of SHA-256 in hexadecimal: no collisions, no NUL, never empty. */
  ghost predicate CollisionFree(sha: string -> string) {
    && (forall a, b :: sha(a) == sha(b) ==> a == b)
    && (forall a :: '\0' !in sha(a) && sha(a) != "")
  }

  function Metas(sha: string -> string, im: Image): map<string, Meta> {
    map p | p in im :: Meta(sha(im[p].data), im[p].mode, im[p].uid, im[p].gid)
  }

  ghost function RevisionOf(sha: string -> string, im: Image): string {
    sha(Text(Metas(sha, im)))
  }

  lemma LineThen(p: string, m: Meta, rest: string)
    ensures Line(p, m, rest) == Line(p, m, "") + rest
  {
    hide Digits, Decimal;
    assert Owner(m, rest) == Owner(m, "") + rest;
  }

  lemma LinesStep(text: string, ks: seq<string>, i: nat, metas: map<string, Meta>)
    requires i < |ks| && forall k | k in ks :: k in metas
    ensures text + Lines(ks[i..], metas) == (text + Line(ks[i], metas[ks[i]], "")) + Lines(ks[i + 1..], metas)
  {
    hide Line;
    assert ks[i..][0] == ks[i] && ks[i..][1..] == ks[i + 1..];
    LineThen(ks[i], metas[ks[i]], Lines(ks[i + 1..], metas));
  }

  /** The hash is fed line by line in sorted order. */
  method Feed(metas: map<string, Meta>) returns (text: string)
    ensures text == Text(metas)
  {
    hide Line;
    var ks := SortedPaths(metas.Keys);
    assert forall k | k in ks :: k in Elements(ks);
    text := "";
    var i := 0;
    while i < |ks|
      invariant 0 <= i <= |ks|
      invariant text + Lines(ks[i..], metas) == Lines(ks, metas)
    {
      LinesStep(text, ks, i, metas);
      text := text + Line(ks[i], metas[ks[i]], "");
      i := i + 1;
    }
    assert ks[i..] == [];
    assert text + "" == text;
  }

  method Revise(sha: string -> string, im: Image) returns (rev: string)
    ensures rev == RevisionOf(sha, im)
  {
    var text := Feed(Metas(sha, im));
    rev := sha(text);
  }

  lemma MetasInjective(sha: string -> string, a: Image, b: Image)
    requires CollisionFree(sha) && Metas(sha, a) == Metas(sha, b)
    ensures a == b
  {
    assert a.Keys == Metas(sha, a).Keys == b.Keys;
    forall p | p in a
      ensures a[p] == b[p]
    {
      assert Metas(sha, a)[p] == Metas(sha, b)[p];
      assert a[p].data == b[p].data;
    }
  }

  /** With NUL-free paths and no collisions, equal revisions mean equal images. */
  lemma RevisionNamesImage(sha: string -> string, a: Image, b: Image)
    requires CollisionFree(sha)
    requires forall p | p in a.Keys + b.Keys :: '\0' !in p
    ensures RevisionOf(sha, a) == RevisionOf(sha, b) <==> a == b
  {
    var ma, mb := Metas(sha, a), Metas(sha, b);
    if RevisionOf(sha, a) == RevisionOf(sha, b) {
      assert Text(ma) == Text(mb);
      TextInjective(ma, mb);
      MetasInjective(sha, a, b);
    }
  }
}
