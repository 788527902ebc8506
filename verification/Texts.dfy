/** Pieces of Go's strings package. */
module Texts {
  import opened Paths

  /** unicode.IsSpace. */
  predicate IsSpace(c: char) {
    || c in "\t\n\r " || c as int in {0x0B, 0x0C, 0x85, 0xA0, 0x1680, 0x2028, 0x2029, 0x202F, 0x205F, 0x3000}
    || 0x2000 <= c as int <= 0x200A
  }

  /** strings.TrimSpace(s) == "". */
  predicate Blank(s: string) {
    forall i | 0 <= i < |s| :: IsSpace(s[i])
  }

  /** strings.TrimSpace. */
  function TrimLeft(s: string): (r: string)
    ensures r == [] || !IsSpace(r[0])
  {
    if s == [] then [] else if IsSpace(s[0]) then TrimLeft(s[1..]) else s
  }

  function TrimRight(s: string): (r: string)
    ensures r == [] || !IsSpace(r[|r| - 1])
    ensures r <= s
  {
    if s == [] then [] else if IsSpace(s[|s| - 1]) then TrimRight(s[..|s| - 1]) else s
  }

  function Trim(s: string): string { TrimRight(TrimLeft(s)) }

  predicate Trimmed(s: string) {
    s != [] ==> !IsSpace(s[0]) && !IsSpace(s[|s| - 1])
  }

  lemma TrimKeeps(s: string)
    requires Trimmed(s)
    ensures Trim(s) == s
  {
  }

  lemma TrimIsTrimmed(s: string)
    ensures Trimmed(Trim(s))
  {
    var l := TrimLeft(s);
    if Trim(s) != [] {
      assert Trim(s)[0] == l[0];
    }
  }

  /** Trailing space goes, the rest of the text stays. */
  lemma {:induction false} TrimRightAppend(s: string, v: string)
    requires s != "" && !IsSpace(s[|s| - 1])
    ensures TrimRight(s + v) == s + TrimRight(v)
  {
    if v == "" {
      assert s + v == s;
    } else {
      assert (s + v)[|s + v| - 1] == v[|v| - 1];
      assert (s + v)[..|s + v| - 1] == s + v[..|v| - 1];
      TrimRightAppend(s, v[..|v| - 1]);
      assert IsSpace(v[|v| - 1]) || s + v == s + TrimRight(v);
    }
  }

  lemma {:induction false} TrimLeftAppend(s: string, c: char)
    requires IsSpace(c)
    ensures TrimRight(TrimLeft(s + [c])) == TrimRight(TrimLeft(s))
  {
    if s == "" {
      assert s + [c] == [c];
    } else if IsSpace(s[0]) {
      assert (s + [c])[1..] == s[1..] + [c];
      TrimLeftAppend(s[1..], c);
    } else {
      assert TrimLeft(s + [c]) == s + [c];
      assert (s + [c])[..|s|] == s;
    }
  }

  /** Trimming the end first makes no difference. */
  lemma {:induction false} TrimAfterRight(v: string)
    ensures Trim(TrimRight(v)) == Trim(v)
  {
    if v != "" && IsSpace(v[|v| - 1]) {
      TrimAfterRight(v[..|v| - 1]);
      TrimLeftAppend(v[..|v| - 1], v[|v| - 1]);
      assert v[..|v| - 1] + [v[|v| - 1]] == v;
    }
  }

  lemma {:induction false} TrimShorter(v: string)
    ensures |TrimLeft(v)| <= |v| && |Trim(v)| <= |v|
  {
    if v != "" && IsSpace(v[0]) {
      TrimShorter(v[1..]);
    }
  }

  predicate At(s: string, sub: string, i: nat) {
    i + |sub| <= |s| && s[i..i + |sub|] == sub
  }

  /** strings.Contains. */
  predicate Contains(s: string, sub: string) {
    exists i :: 0 <= i <= |s| && At(s, sub, i)
  }

  /** A list of names with a bar before, between and after them. */
  function Barred(names: seq<string>): string {
    if names == [] then "|" else "|" + names[0] + Barred(names[1..])
  }

  /** Looking for |x| in such a list is looking for x, when no name holds a bar. */
  lemma {:induction false} ContainsIsMember(names: seq<string>, x: string)
    requires '|' !in x && forall n | n in names :: '|' !in n
    ensures Contains(Barred(names), "|" + x + "|") <==> x in names
  {
    if names != [] {
      ContainsIsMember(names[1..], x);
      ContainsStep(names[0], Barred(names[1..]), x);
    }
  }

  lemma ContainsStep(n: string, tail: string, x: string)
    requires '|' !in x && '|' !in n && tail != [] && tail[0] == '|'
    ensures Contains("|" + n + tail, "|" + x + "|") <==> x == n || Contains(tail, "|" + x + "|")
  {
    var s, sub := "|" + n + tail, "|" + x + "|";
    if Contains(s, sub) && x != n {
      var i: nat :| i <= |s| && At(s, sub, i);
      AtFirst(n, tail, x, i);
      Shifted(n, tail, sub, i - 1 - |n|);
    }
    if Contains(tail, sub) {
      var i: nat :| i <= |tail| && At(tail, sub, i);
      Shifted(n, tail, sub, i);
    }
    if x == n {
      assert s[0..|sub|] == sub;
      assert At(s, sub, 0);
    }
  }

  lemma Shifted(n: string, tail: string, sub: string, i: nat)
    ensures At(tail, sub, i) <==> At("|" + n + tail, sub, i + 1 + |n|)
  {
    var s := "|" + n + tail;
    if i + |sub| <= |tail| {
      assert s[i + 1 + |n|..i + 1 + |n| + |sub|] == tail[i..i + |sub|];
    }
  }

  lemma AtFirst(n: string, tail: string, x: string, i: nat)
    requires '|' !in x && '|' !in n && tail != [] && tail[0] == '|'
    requires At("|" + n + tail, "|" + x + "|", i)
    ensures (i == 0 && x == n) || i > |n|
  {
    var s, sub := "|" + n + tail, "|" + x + "|";
    var found := s[i..i + |sub|];
    assert forall j | 0 <= j < |sub| :: s[i + j] == found[j] == sub[j];
    assert forall j | 0 <= j < |x| :: sub[j + 1] == x[j];
    assert forall j | 1 <= j <= |x| :: sub[j] == x[j - 1];
    assert forall j | 1 <= j <= |n| :: s[j] == n[j - 1];
    assert forall j | 0 <= j < |sub| :: s[i + j] == sub[j];
    assert s[i + 0] == '|' && s[i + (|x| + 1)] == '|';
    assert s[|n| + 1] == tail[0];
    if |x| == |n| {
      assert i == 0 ==> forall j | 0 <= j < |x| :: s[j + 1] == x[j];
      assert i == 0 ==> forall j | 0 <= j < |x| :: n[j] == x[j];
    }
  }
}
