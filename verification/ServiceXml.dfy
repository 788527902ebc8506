/** The shape check of `ParseService`: a loop over XML tokens with a stack of
    open elements and a count of children for each. */
module ServiceXml {
  import opened Basics
  import opened Texts

  datatype Name = Name(space: string, local: string)

  datatype Attr = Attr(name: Name, value: string)

  datatype Token = Start(name: Name, attrs: seq<Attr>) | End(local: string) | Text(text: string) | Skip

  const ROOT := "service-group"
  const SERVICE := "service"
  const NAME := "name"
  /** |type|port|domain-name|host-name|subtype|txt-record| */
  const FIELDS := "|" + "type" +
    ("|" + "port" + ("|" + "domain-name" + ("|" + "host-name" + ("|" + "subtype" + ("|" + "txt-record" + "|")))))

  predicate Allowed(parent: string, local: string) {
    || (parent == "" && local == ROOT)
    || (parent == ROOT && (local == NAME || local == SERVICE))
    || (parent == SERVICE && Contains(FIELDS, "|" + local + "|"))
  }

  const FIELD_NAMES := ["type", "port", "domain-name", "host-name", "subtype", "txt-record"]

  /** The search in one string is membership, for every name that XML allows. */
  lemma FieldsAre(local: string)
    requires '|' !in local
    ensures Contains(FIELDS, "|" + local + "|") <==> local in FIELD_NAMES
  {
    BarredFields();
    ContainsIsMember(FIELD_NAMES, local);
  }

  lemma BarredFields()
    ensures Barred(FIELD_NAMES) == FIELDS
  {
    var a, b, c, d, e := ["txt-record"], ["subtype", "txt-record"], ["host-name", "subtype", "txt-record"],
      ["domain-name", "host-name", "subtype", "txt-record"],
      ["port", "domain-name", "host-name", "subtype", "txt-record"];
    BarredCons("txt-record", []);
    assert ["txt-record"] + [] == a;
    BarredCons("subtype", a);
    assert ["subtype"] + a == b;
    BarredCons("host-name", b);
    assert ["host-name"] + b == c;
    BarredCons("domain-name", c);
    assert ["domain-name"] + c == d;
    BarredCons("port", d);
    assert ["port"] + d == e;
    BarredCons("type", e);
    assert ["type"] + e == FIELD_NAMES;
  }

  lemma BarredCons(n: string, rest: seq<string>)
    ensures Barred([n] + rest) == "|" + n + Barred(rest)
  {
    assert ([n] + rest)[1..] == rest;
  }

  predicate Repeatable(local: string) {
    local == SERVICE || local == "subtype" || local == "txt-record"
  }

  predicate OwnAttr(local: string, a: string) {
    || (local == NAME && a == "replace-wildcards")
    || (local == SERVICE && a == "protocol")
    || (local == "txt-record" && a == "value-format")
  }

  /** Only the attribute an element may have, unprefixed, and not twice. */
  predicate AttrsFine(local: string, attrs: seq<Attr>) {
    && (forall i | 0 <= i < |attrs| :: OwnAttr(local, attrs[i].name.local) && attrs[i].name.space == "")
    && (forall i, j | 0 <= i < j < |attrs| :: attrs[i].name.local != attrs[j].name.local)
  }

  predicate BlankOnly(parent: string) {
    parent == "" || parent == SERVICE || parent == ROOT
  }

  function Num(c: map<string, nat>, k: string): nat { if k in c then c[k] else 0 }

  function Bump(c: map<string, nat>, k: string): map<string, nat> { c[k := Num(c, k) + 1] }

  predicate Complete(local: string, c: map<string, nat>) {
    local == SERVICE ==> Num(c, "type") == 1 && Num(c, "port") == 1
  }

  // ----- the loop -----

  datatype Shape = Shape(stack: seq<string>, counts: seq<map<string, nat>>, roots: nat)

  function Parent(stack: seq<string>): string {
    if stack == [] then "" else stack[|stack| - 1]
  }

  /** Every end tag closes an open element, as the decoder guarantees. */
  predicate Balanced(tokens: seq<Token>, depth: nat) {
    tokens == [] ||
    match tokens[0]
    case Start(_, _) => Balanced(tokens[1..], depth + 1)
    case End(_) => depth > 0 && Balanced(tokens[1..], depth - 1)
    case _ => Balanced(tokens[1..], depth)
  }

  /** What one token does, or None for a rejection. */
  function Step(sh: Shape, t: Token): (r: Option<Shape>)
    requires |sh.stack| == |sh.counts| && (t.End? ==> sh.stack != [])
    ensures r.Some? ==> |r.value.stack| == |r.value.counts|
    ensures r.Some? ==> |r.value.stack| == |sh.stack| + (if t.Start? then 1 else if t.End? then -1 else 0)
  {
    var n, parent := |sh.stack|, Parent(sh.stack);
    match t
    case Start(name, attrs) =>
      if !Allowed(parent, name.local) || name.space != "" || !AttrsFine(name.local, attrs) then None
      else if parent == "" then
        if sh.roots > 0 then None else Some(Shape(sh.stack + [name.local], sh.counts + [map[]], sh.roots + 1))
      else if Num(sh.counts[n - 1], name.local) > 0 && !Repeatable(name.local) then None
      else Some(Shape(sh.stack + [name.local], sh.counts[n - 1 := Bump(sh.counts[n - 1], name.local)] + [map[]],
        sh.roots))
    case End(local) =>
      if !Complete(local, sh.counts[n - 1]) then None else Some(Shape(sh.stack[..n - 1], sh.counts[..n - 1], sh.roots))
    case Text(s) =>
      if BlankOnly(parent) && !Blank(s) then None else Some(sh)
    case Skip => Some(sh)
  }

  function Fold(sh: Shape, tokens: seq<Token>): Option<Shape>
    requires |sh.stack| == |sh.counts| && Balanced(tokens, |sh.stack|)
    decreases |tokens|
  {
    if tokens == [] then Some(sh)
    else
      match Step(sh, tokens[0])
      case None => None
      case Some(next) => Fold(next, tokens[1..])
  }

  const EMPTY := Shape([], [], 0)

  method CheckAttrs(local: string, attrs: seq<Attr>) returns (ok: bool)
    ensures ok <==> AttrsFine(local, attrs)
  {
    var seen: set<string> := {};
    for i := 0 to |attrs|
      invariant AttrsFine(local, attrs[..i])
      invariant forall a :: a in seen <==> exists j :: 0 <= j < i && attrs[j].name.local == a
    {
      var a := attrs[i].name;
      if !OwnAttr(local, a.local) || a.space != "" || a.local in seen {
        return false;
      }
      seen := seen + {a.local};
    }
    assert attrs[..|attrs|] == attrs;
    return true;
  }

  /** The token loop, with every index into the stack and the counts in range.
      `broken` says that the decoder fails after these tokens. */
  method CheckShape(tokens: seq<Token>, broken: bool) returns (ok: bool)
    requires Balanced(tokens, 0)
    ensures ok <==> !broken && Fold(EMPTY, tokens).Some?
  {
    hide Allowed, AttrsFine, Complete, Blank, BlankOnly, Repeatable;
    var stack: seq<string>, counts: seq<map<string, nat>>, roots: nat := [], [], 0;
    var i := 0;
    while i < |tokens|
      invariant 0 <= i <= |tokens| && |stack| == |counts| && Balanced(tokens[i..], |stack|)
      invariant Fold(EMPTY, tokens) == Fold(Shape(stack, counts, roots), tokens[i..])
    {
      assert tokens[i..][0] == tokens[i] && tokens[i..][1..] == tokens[i + 1..];
      ghost var next := Step(Shape(stack, counts, roots), tokens[i]);
      match tokens[i] {
        case Start(name, attrs) =>
          var parent := "";
          if |stack| > 0 {
            parent := stack[|stack| - 1];
          }
          if !Allowed(parent, name.local) || name.space != "" {
            return false;
          }
          if parent == "" {
            roots := roots + 1;
            if roots > 1 {
              return false;
            }
          } else {
            var c := Bump(counts[|counts| - 1], name.local);
            if c[name.local] > 1 && !Repeatable(name.local) {
              return false;
            }
            counts := counts[|counts| - 1 := c];
          }
          var fine := CheckAttrs(name.local, attrs);
          if !fine {
            return false;
          }
          stack := stack + [name.local];
          counts := counts + [map[]];
        case End(local) =>
          if !Complete(local, counts[|counts| - 1]) {
            return false;
          }
          stack := stack[..|stack| - 1];
          counts := counts[..|counts| - 1];
        case Text(s) =>
          if BlankOnly(Parent(stack)) && !Blank(s) {
            return false;
          }
        case Skip =>
      }
      assert next == Some(Shape(stack, counts, roots));
      i := i + 1;
    }
    return !broken;
  }

  // ----- trees -----

  /** A document or the content of an element, as first child and next sibling. */
  datatype Forest =
    | Nil
    | Tree(name: Name, attrs: seq<Attr>, kids: Forest, next: Forest)
    | Chars(text: string, next: Forest)
    | Misc(next: Forest)

  function Flatten(f: Forest): seq<Token> {
    match f
    case Nil => []
    case Tree(name, attrs, kids, next) => [Start(name, attrs)] + (Flatten(kids) + ([End(name.local)] + Flatten(next)))
    case Chars(t, next) => [Text(t)] + Flatten(next)
    case Misc(next) => [Skip] + Flatten(next)
  }

  /** The tokens of a tree are properly nested, whatever comes after them. */
  lemma {:induction false} FlattenBalanced(f: Forest, rest: seq<Token>, depth: nat)
    requires Balanced(rest, depth)
    ensures Balanced(Flatten(f) + rest, depth)
    decreases f
  {
    match f {
      case Nil =>
        assert Flatten(f) + rest == rest;
      case Tree(name, attrs, kids, next) =>
        FlattenBalanced(next, rest, depth);
        TailBalanced(name.local, Flatten(next) + rest, depth);
        FlattenBalanced(kids, [End(name.local)] + (Flatten(next) + rest), depth + 1);
        HeadAway(f, rest);
      case Chars(t, next) =>
        FlattenBalanced(next, rest, depth);
        assert (Flatten(f) + rest)[1..] == Flatten(next) + rest;
      case Misc(next) =>
        FlattenBalanced(next, rest, depth);
        assert (Flatten(f) + rest)[1..] == Flatten(next) + rest;
    }
  }

  lemma TailBalanced(local: string, tail: seq<Token>, depth: nat)
    requires Balanced(tail, depth)
    ensures Balanced([End(local)] + tail, depth + 1)
  {
    assert ([End(local)] + tail)[1..] == tail;
  }

  lemma HeadAway(f: Forest, rest: seq<Token>)
    requires f.Tree?
    ensures Flatten(f) + rest
              == [Start(f.name, f.attrs)] + (Flatten(f.kids) + ([End(f.name.local)] + (Flatten(f.next) + rest)))
    ensures (Flatten(f) + rest)[1..] == Flatten(f.kids) + ([End(f.name.local)] + (Flatten(f.next) + rest))
  {
  }

  function Tallied(c: map<string, nat>, f: Forest): map<string, nat>
    decreases f
  {
    match f
    case Nil => c
    case Tree(name, _, _, next) => Tallied(Bump(c, name.local), next)
    case Chars(_, next) => Tallied(c, next)
    case Misc(next) => Tallied(c, next)
  }

  function Roots(f: Forest): nat {
    match f
    case Nil => 0
    case Tree(_, _, _, next) => 1 + Roots(next)
    case Chars(_, next) => Roots(next)
    case Misc(next) => Roots(next)
  }

  /** The siblings f are accepted inside parent, after earlier siblings with counts c. */
  predicate SiblingsOk(parent: string, c: map<string, nat>, roots: nat, f: Forest)
    decreases f
  {
    match f
    case Nil => true
    case Chars(t, next) => (BlankOnly(parent) ==> Blank(t)) && SiblingsOk(parent, c, roots, next)
    case Misc(next) => SiblingsOk(parent, c, roots, next)
    case Tree(name, attrs, kids, next) =>
      && Allowed(parent, name.local) && name.space == "" && AttrsFine(name.local, attrs)
      && (if parent == "" then roots == 0 else Num(c, name.local) == 0 || Repeatable(name.local))
      && var begun := if parent == "" then roots + 1 else roots;
      && SiblingsOk(name.local, map[], begun, kids) && Complete(name.local, Tallied(map[], kids))
      && SiblingsOk(parent, if parent == "" then c else Bump(c, name.local), begun, next)
  }

  /** The stack machine after the siblings f. */
  function Past(sh: Shape, f: Forest): Shape
    requires |sh.stack| == |sh.counts|
  {
    var n := |sh.stack|;
    if n == 0 then sh.(roots := sh.roots + Roots(f))
    else sh.(counts := sh.counts[n - 1 := Tallied(sh.counts[n - 1], f)])
  }

  ghost predicate Running(sh: Shape) {
    |sh.stack| == |sh.counts| && forall i | 0 <= i < |sh.stack| :: sh.stack[i] != ""
  }

  function Inner(sh: Shape): map<string, nat>
    requires |sh.stack| == |sh.counts|
  {
    if sh.stack == [] then map[] else sh.counts[|sh.counts| - 1]
  }

  /** The stack machine and the recursion over the tree agree. */
  lemma {:induction false} FoldSiblings(sh: Shape, f: Forest, rest: seq<Token>)
    requires Running(sh) && Balanced(rest, |sh.stack|) && Balanced(Flatten(f) + rest, |sh.stack|)
    ensures Fold(sh, Flatten(f) + rest)
         == if SiblingsOk(Parent(sh.stack), Inner(sh), sh.roots, f) then Fold(Past(sh, f), rest) else None
    decreases f
  {
    hide Allowed, AttrsFine, Complete, Blank, BlankOnly, Repeatable;
    match f {
      case Nil =>
        assert Flatten(f) + rest == rest;
        assert Past(sh, f) == sh;
      case Tree(name, attrs, kids, next) => FoldTree(sh, f, rest);
      case Chars(t, next) =>
        assert (Flatten(f) + rest)[1..] == Flatten(next) + rest;
        FoldSiblings(sh, next, rest);
      case Misc(next) =>
        assert (Flatten(f) + rest)[1..] == Flatten(next) + rest;
        FoldSiblings(sh, next, rest);
    }
  }

  lemma {:induction false} FoldTree(sh: Shape, f: Forest, rest: seq<Token>)
    requires f.Tree? && Running(sh) && Balanced(rest, |sh.stack|) && Balanced(Flatten(f) + rest, |sh.stack|)
    ensures Fold(sh, Flatten(f) + rest)
         == if SiblingsOk(Parent(sh.stack), Inner(sh), sh.roots, f) then Fold(Past(sh, f), rest) else None
    decreases f, 0
  {
    hide Allowed, AttrsFine, Complete, Blank, BlankOnly, Repeatable, Fold, Step, Tallied, Flatten, Balanced, Past,
      SiblingsOk, FIELDS;
    var local := f.name.local;
    var tail := Flatten(f.next) + rest;
    FlattenBalanced(f.next, rest, |sh.stack|);
    TailBalanced(local, tail, |sh.stack|);
    FlattenBalanced(f.kids, [End(local)] + tail, |sh.stack| + 1);
    HeadAway(f, rest);
    FoldOne(sh, Start(f.name, f.attrs), Flatten(f.kids) + ([End(local)] + tail));
    Opens(sh, f.name, f.attrs);
    Unfolded(Parent(sh.stack), Inner(sh), sh.roots, f);
    var entered := Step(sh, Start(f.name, f.attrs));
    if entered.Some? {
      var inside := entered.value;
      FoldSiblings(inside, f.kids, [End(local)] + tail);
      var full := Past(inside, f.kids);
      PastKeeps(inside, f.kids);
      FoldOne(full, End(local), tail);
      Closes(sh, f);
      var closed := Step(full, End(local));
      if closed.Some? {
        FoldSiblings(closed.value, f.next, rest);
      }
    }
  }

  lemma FoldOne(sh: Shape, t: Token, tail: seq<Token>)
    requires |sh.stack| == |sh.counts| && Balanced([t] + tail, |sh.stack|)
    ensures t.End? ==> sh.stack != []
    ensures Step(sh, t).Some? ==> Balanced(tail, |Step(sh, t).value.stack|)
    ensures Fold(sh, [t] + tail) == match Step(sh, t) case None => None case Some(next) => Fold(next, tail)
  {
    hide Allowed, AttrsFine, Complete, Blank, BlankOnly, Repeatable;
    assert ([t] + tail)[1..] == tail;
  }

  lemma Unfolded(parent: string, c: map<string, nat>, roots: nat, f: Forest)
    requires f.Tree?
    ensures var begun := if parent == "" then roots + 1 else roots;
            SiblingsOk(parent, c, roots, f) <==>
            && Admits(parent, c, roots, f.name, f.attrs)
            && SiblingsOk(f.name.local, map[], begun, f.kids) && Complete(f.name.local, Tallied(map[], f.kids))
            && SiblingsOk(parent, if parent == "" then c else Bump(c, f.name.local), begun, f.next)
  {
    hide Allowed, AttrsFine, Complete, Blank, BlankOnly, Repeatable;
  }

  predicate Admits(parent: string, c: map<string, nat>, roots: nat, name: Name, attrs: seq<Attr>) {
    && Allowed(parent, name.local) && name.space == "" && AttrsFine(name.local, attrs)
    && (if parent == "" then roots == 0 else Num(c, name.local) == 0 || Repeatable(name.local))
  }

  lemma Opens(sh: Shape, name: Name, attrs: seq<Attr>)
    requires Running(sh)
    ensures Step(sh, Start(name, attrs)).Some? <==> Admits(Parent(sh.stack), Inner(sh), sh.roots, name, attrs)
    ensures Step(sh, Start(name, attrs)).Some? ==>
              var inside := Step(sh, Start(name, attrs)).value;
              && Running(inside) && inside.stack == sh.stack + [name.local] && Parent(inside.stack) == name.local != ""
              && Inner(inside) == map[] && inside.roots == if Parent(sh.stack) == "" then sh.roots + 1 else sh.roots
  {
    hide AttrsFine, Complete, Blank, BlankOnly, Repeatable;
    if Allowed(Parent(sh.stack), name.local) {
      NameGiven(Parent(sh.stack), name.local);
    }
    hide Allowed;
  }

  lemma PastKeeps(sh: Shape, f: Forest)
    requires Running(sh) && sh.stack != []
    ensures var full := Past(sh, f);
            Running(full) && full.stack == sh.stack && Inner(full) == Tallied(Inner(sh), f) && full.roots == sh.roots
  {
  }

  /** After a whole element the machine is where the recursion over the tree goes on. */
  lemma Closes(sh: Shape, f: Forest)
    requires f.Tree? && Running(sh) && Step(sh, Start(f.name, f.attrs)).Some?
    requires Running(Past(Step(sh, Start(f.name, f.attrs)).value, f.kids)) &&
               Past(Step(sh, Start(f.name, f.attrs)).value, f.kids).stack != []
    ensures var closed := Step(Past(Step(sh, Start(f.name, f.attrs)).value, f.kids), End(f.name.local));
            && (closed.Some? <==> Complete(f.name.local, Tallied(map[], f.kids)))
            && (closed.Some? ==>
                  && closed.value.stack == sh.stack && Running(closed.value)
                  && Past(closed.value, f.next) == Past(sh, f)
                  && Inner(closed.value)
                        == (if Parent(sh.stack) == "" then Inner(sh) else Bump(Inner(sh), f.name.local))
                  && closed.value.roots == (if Parent(sh.stack) == "" then sh.roots + 1 else sh.roots))
  {
    hide Allowed, AttrsFine, Complete, Blank, BlankOnly, Repeatable;
  }

  lemma NameGiven(parent: string, local: string)
    requires Allowed(parent, local)
    ensures local != ""
  {
    if local == "" {
      FieldsAre("");
    }
  }

  /** On every properly nested stream the loop accepts exactly what the recursion over the tree accepts. */
  lemma LoopIsRecursion(doc: Forest)
    ensures Balanced(Flatten(doc), 0)
    ensures Fold(EMPTY, Flatten(doc)).Some? <==> SiblingsOk("", map[], 0, doc)
  {
    FlattenBalanced(doc, [], 0);
    assert Flatten(doc) + [] == Flatten(doc);
    FoldSiblings(EMPTY, doc, []);
  }
}
