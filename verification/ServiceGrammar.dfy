/** The service file format stated declaratively, and the token loop as its recogniser. */
module ServiceGrammar {
  import opened Basics
  import opened Texts
  import opened ServiceXml

  datatype Elem = Elem(name: Name, attrs: seq<Attr>, kids: Forest)

  function Elems(f: Forest): seq<Elem> {
    match f
    case Nil => []
    case Tree(name, attrs, kids, next) => [Elem(name, attrs, kids)] + Elems(next)
    case Chars(_, next) => Elems(next)
    case Misc(next) => Elems(next)
  }

  function Count(f: Forest, n: string): nat {
    match f
    case Nil => 0
    case Tree(name, _, _, next) => (if name.local == n then 1 else 0) + Count(next, n)
    case Chars(_, next) => Count(next, n)
    case Misc(next) => Count(next, n)
  }

  /** No text but white space directly in here. */
  predicate NoText(f: Forest) {
    match f
    case Nil => true
    case Tree(_, _, _, next) => NoText(next)
    case Chars(t, next) => Blank(t) && NoText(next)
    case Misc(next) => NoText(next)
  }

  /** XML names hold no bar. */
  predicate Legal(f: Forest) {
    match f
    case Nil => true
    case Tree(name, _, kids, next) => '|' !in name.local && Legal(kids) && Legal(next)
    case Chars(_, next) => Legal(next)
    case Misc(next) => Legal(next)
  }

  // ----- the grammar -----

  predicate Optional(attrs: seq<Attr>, n: string) {
    attrs == [] || (|attrs| == 1 && attrs[0].name == Name("", n))
  }

  predicate FieldElem(e: Elem) {
    && e.name.space == "" && e.name.local in FIELD_NAMES && Elems(e.kids) == []
    && (if e.name.local == "txt-record" then Optional(e.attrs, "value-format") else e.attrs == [])
  }

  predicate ServiceElem(e: Elem) {
    && e.name == Name("", SERVICE) && Optional(e.attrs, "protocol") && NoText(e.kids)
    && (forall k | k in Elems(e.kids) :: FieldElem(k))
    && Count(e.kids, "type") == 1 && Count(e.kids, "port") == 1
    && Count(e.kids, "domain-name") <= 1 && Count(e.kids, "host-name") <= 1
  }

  predicate NameElem(e: Elem) {
    e.name == Name("", NAME) && Optional(e.attrs, "replace-wildcards") && Elems(e.kids) == []
  }

  predicate GroupElem(e: Elem) {
    && e.name == Name("", ROOT) && e.attrs == [] && NoText(e.kids)
    && (forall k | k in Elems(e.kids) :: NameElem(k) || ServiceElem(k))
    && Count(e.kids, NAME) <= 1
  }

  predicate Grammar(doc: Forest) {
    NoText(doc) && |Elems(doc)| <= 1 && forall e | e in Elems(doc) :: GroupElem(e)
  }

  // ----- the recursion over siblings, element by element -----

  predicate ElemOk(parent: string, e: Elem) {
    && Allowed(parent, e.name.local) && e.name.space == "" && AttrsFine(e.name.local, e.attrs)
    && SiblingsOk(e.name.local, map[], 0, e.kids) && Complete(e.name.local, Tallied(map[], e.kids))
  }

  predicate Few(c: map<string, nat>, f: Forest, n: string) {
    Repeatable(n) || Count(f, n) == 0 || Num(c, n) + Count(f, n) <= 1
  }

  lemma {:induction false} RootsIgnored(parent: string, c: map<string, nat>, r: nat, r': nat, f: Forest)
    requires parent != ""
    ensures SiblingsOk(parent, c, r, f) == SiblingsOk(parent, c, r', f)
    decreases f
  {
    hide Allowed, AttrsFine, Complete, Blank, BlankOnly, Repeatable;
    match f {
      case Nil =>
      case Tree(name, attrs, kids, next) =>
        if Allowed(parent, name.local) {
          NameGiven(parent, name.local);
          RootsIgnored(name.local, map[], r, r', kids);
        }
        RootsIgnored(parent, Bump(c, name.local), r, r', next);
      case Chars(_, next) => RootsIgnored(parent, c, r, r', next);
      case Misc(next) => RootsIgnored(parent, c, r, r', next);
    }
  }

  lemma {:induction false} Counted(c: map<string, nat>, f: Forest, n: string)
    ensures Num(Tallied(c, f), n) == Num(c, n) + Count(f, n)
    decreases f
  {
    match f {
      case Nil =>
      case Tree(name, _, _, next) => Counted(Bump(c, name.local), next, n);
      case Chars(_, next) => Counted(c, next, n);
      case Misc(next) => Counted(c, next, n);
    }
  }

  ghost predicate AllOk(parent: string, f: Forest) {
    forall e | e in Elems(f) :: ElemOk(parent, e)
  }

  lemma AllOkTree(parent: string, f: Forest)
    requires f.Tree?
    ensures AllOk(parent, f) <==> ElemOk(parent, Elem(f.name, f.attrs, f.kids)) && AllOk(parent, f.next)
  {
    hide ElemOk;
    assert forall e :: e in Elems(f) <==> e == Elem(f.name, f.attrs, f.kids) || e in Elems(f.next);
  }

  lemma AllOkNone(parent: string, f: Forest)
    requires Elems(f) == []
    ensures AllOk(parent, f)
  {
  }

  lemma AllOkSame(parent: string, f: Forest, g: Forest)
    requires Elems(f) == Elems(g)
    ensures AllOk(parent, f) <==> AllOk(parent, g)
  {
  }

  /** Inside an element the recursion says: texts blank where they must be, every
      child acceptable, and none that may not repeat there twice. */
  lemma {:induction false} InsideIff(parent: string, c: map<string, nat>, r: nat, f: Forest)
    requires parent != ""
    ensures SiblingsOk(parent, c, r, f) <==>
            && (BlankOnly(parent) ==> NoText(f))
            && AllOk(parent, f)
            && (forall n :: Few(c, f, n))
    decreases f
  {
    hide Allowed, AttrsFine, Complete, Blank, BlankOnly, Repeatable;
    match f {
      case Nil =>
      case Tree(name, attrs, kids, next) => InsideTree(parent, c, r, f);
      case Chars(t, next) =>
        InsideIff(parent, c, r, next);
        SameFew(c, f, next);
      case Misc(next) =>
        InsideIff(parent, c, r, next);
        SameFew(c, f, next);
    }
  }

  lemma SameFew(c: map<string, nat>, f: Forest, g: Forest)
    requires forall n :: Count(f, n) == Count(g, n)
    ensures (forall n :: Few(c, f, n)) <==> (forall n :: Few(c, g, n))
  {
    assert forall n :: Few(c, f, n) <==> Few(c, g, n);
  }

  lemma {:induction false} InsideTree(parent: string, c: map<string, nat>, r: nat, f: Forest)
    requires parent != "" && f.Tree?
    ensures SiblingsOk(parent, c, r, f) <==>
            && (BlankOnly(parent) ==> NoText(f))
            && AllOk(parent, f)
            && (forall n :: Few(c, f, n))
    decreases f, 0
  {
    hide Allowed, AttrsFine, Complete, Blank, BlankOnly, Repeatable, Few, AllOk;
    var local := f.name.local;
    if Allowed(parent, local) {
      NameGiven(parent, local);
      RootsIgnored(local, map[], r, 0, f.kids);
    }
    InsideIff(parent, Bump(c, local), r, f.next);
    FewTree(c, f);
    AllOkTree(parent, f);
  }

  lemma FewTree(c: map<string, nat>, f: Forest)
    requires f.Tree?
    ensures (forall n :: Few(c, f, n)) <==>
            (Num(c, f.name.local) == 0 || Repeatable(f.name.local)) && forall n :: Few(Bump(c, f.name.local), f.next, n)
  {
    hide Repeatable;
    var local := f.name.local;
    forall n
      ensures n != local ==> (Few(c, f, n) <==> Few(Bump(c, local), f.next, n))
    {
    }
    assert Few(c, f, local) <==> (Num(c, local) == 0 || Repeatable(local)) && Few(Bump(c, local), f.next, local);
  }

  lemma {:induction false} TopIff(r: nat, f: Forest)
    ensures SiblingsOk("", map[], r, f) <==>
            NoText(f) && AllOk("", f) && (Elems(f) == [] || r + |Elems(f)| <= 1)
    decreases f
  {
    hide Allowed, AttrsFine, Complete, Blank, Repeatable, AllOk;
    match f {
      case Nil => assert AllOk("", Nil) by { AllOkNone("", Nil); }
      case Tree(name, attrs, kids, next) =>
        if Allowed("", name.local) {
          NameGiven("", name.local);
          RootsIgnored(name.local, map[], r + 1, 0, kids);
        }
        TopIff(r + 1, next);
        AllOkTree("", f);
      case Chars(t, next) =>
        TopIff(r, next);
        AllOkSame("", f, next);
      case Misc(next) =>
        TopIff(r, next);
        AllOkSame("", f, next);
    }
  }

  // ----- level by level -----

  lemma OptionalIff(attrs: seq<Attr>, local: string, n: string)
    requires forall a :: OwnAttr(local, a) <==> a == n
    ensures AttrsFine(local, attrs) <==> Optional(attrs, n)
  {
    if |attrs| > 1 {
      assert OwnAttr(local, attrs[0].name.local) && OwnAttr(local, attrs[1].name.local) ==>
          attrs[0].name.local == attrs[1].name.local;
    }
  }

  lemma NoAttrsIff(attrs: seq<Attr>, local: string)
    requires forall a :: !OwnAttr(local, a)
    ensures AttrsFine(local, attrs) <==> attrs == []
  {
    if attrs != [] {
      assert !OwnAttr(local, attrs[0].name.local);
    }
  }

  /** Nothing is allowed inside a name or a field. */
  lemma LeafIff(parent: string, f: Forest)
    requires parent != "" && parent != ROOT && parent != SERVICE
    ensures SiblingsOk(parent, map[], 0, f) <==> Elems(f) == []
  {
    hide AttrsFine, Complete, Blank, Repeatable;
    InsideIff(parent, map[], 0, f);
    if Elems(f) != [] {
      assert Elems(f)[0] in Elems(f) && !ElemOk(parent, Elems(f)[0]);
    } else {
      NoneCounted(f);
    }
  }

  lemma {:induction false} NoneCounted(f: Forest)
    requires Elems(f) == []
    ensures forall n :: Count(f, n) == 0
  {
    match f {
      case Nil =>
      case Tree(_, _, _, _) =>
      case Chars(_, next) => NoneCounted(next);
      case Misc(next) => NoneCounted(next);
    }
  }

  lemma {:induction false} CountsPresent(f: Forest, n: string)
    ensures Count(f, n) > 0 <==> exists e :: e in Elems(f) && e.name.local == n
  {
    match f {
      case Nil =>
      case Tree(name, attrs, kids, next) =>
        CountsPresent(next, n);
        assert forall e :: e in Elems(f) <==> e == Elem(name, attrs, kids) || e in Elems(next);
      case Chars(_, next) => CountsPresent(next, n);
      case Misc(next) => CountsPresent(next, n);
    }
  }

  lemma FieldIff(e: Elem)
    requires '|' !in e.name.local
    ensures ElemOk(SERVICE, e) <==> FieldElem(e)
  {
    hide AttrsFine, SiblingsOk, Tallied, Contains, FIELDS, Optional, FIELD_NAMES, Elems;
    var local := e.name.local;
    FieldsAre(local);
    if local in FIELD_NAMES {
      FieldsPlain(local);
      LeafIff(local, e.kids);
      if local == "txt-record" {
        OptionalIff(e.attrs, local, "value-format");
      } else {
        NoAttrsIff(e.attrs, local);
      }
    }
  }

  lemma FieldsPlain(local: string)
    requires local in FIELD_NAMES
    ensures local != "" && local != ROOT && local != SERVICE && local != NAME
  {
  }

  lemma {:induction false} LegalElems(f: Forest)
    requires Legal(f)
    ensures forall e | e in Elems(f) :: '|' !in e.name.local && Legal(e.kids)
  {
    match f {
      case Nil =>
      case Tree(name, attrs, kids, next) => LegalElems(next);
      case Chars(_, next) => LegalElems(next);
      case Misc(next) => LegalElems(next);
    }
  }

  lemma ServiceIff(e: Elem)
    requires e.name.local == SERVICE && Legal(e.kids)
    ensures ElemOk(ROOT, e) <==> ServiceElem(e)
  {
    hide AttrsFine, SiblingsOk, Tallied, Contains, FIELDS, Optional, Blank, NoText, Few, ElemOk, FieldElem;
    LegalElems(e.kids);
    forall k | k in Elems(e.kids)
      ensures ElemOk(SERVICE, k) <==> FieldElem(k)
    {
      FieldIff(k);
    }
    InsideIff(SERVICE, map[], 0, e.kids);
    OptionalIff(e.attrs, SERVICE, "protocol");
    if Count(e.kids, "type") == 1 && Count(e.kids, "port") == 1 && forall k | k in Elems(e.kids) :: FieldElem(k) {
      ServiceCounts(e.kids);
    }
    ServiceOk(e);
  }

  lemma ServiceOk(e: Elem)
    requires e.name.local == SERVICE
    ensures ElemOk(ROOT, e) <==>
            && e.name.space == "" && AttrsFine(SERVICE, e.attrs) && SiblingsOk(SERVICE, map[], 0, e.kids)
            && Count(e.kids, "type") == 1 && Count(e.kids, "port") == 1
  {
    hide AttrsFine, SiblingsOk, Tallied, Contains, FIELDS;
    Counted(map[], e.kids, "type");
    Counted(map[], e.kids, "port");
  }

  lemma ServiceCounts(f: Forest)
    requires Count(f, "type") == 1 && Count(f, "port") == 1
    requires forall k | k in Elems(f) :: FieldElem(k)
    ensures (forall n :: Few(map[], f, n)) <==> Count(f, "domain-name") <= 1 && Count(f, "host-name") <= 1
  {
    forall n
      ensures Few(map[], f, n) || n == "domain-name" || n == "host-name"
    {
      CountsPresent(f, n);
    }
    assert Few(map[], f, "domain-name") <==> Count(f, "domain-name") <= 1;
    assert Few(map[], f, "host-name") <==> Count(f, "host-name") <= 1;
  }

  lemma NameIff(e: Elem)
    requires e.name.local == NAME
    ensures ElemOk(ROOT, e) <==> NameElem(e)
  {
    hide AttrsFine, SiblingsOk, Tallied, Contains, FIELDS, Optional;
    LeafIff(NAME, e.kids);
    OptionalIff(e.attrs, NAME, "replace-wildcards");
  }

  lemma GroupIff(e: Elem)
    requires '|' !in e.name.local && Legal(e.kids)
    ensures ElemOk("", e) <==> GroupElem(e)
  {
    hide AttrsFine, SiblingsOk, Tallied, Contains, FIELDS, Optional, Blank, NoText, Few, ElemOk, NameElem,
      ServiceElem;
    LegalElems(e.kids);
    forall k | k in Elems(e.kids)
      ensures ElemOk(ROOT, k) <==> NameElem(k) || ServiceElem(k)
    {
      ChildIff(k);
    }
    InsideIff(ROOT, map[], 0, e.kids);
    NoAttrsIff(e.attrs, ROOT);
    if forall k | k in Elems(e.kids) :: NameElem(k) || ServiceElem(k) {
      GroupCounts(e.kids);
    }
    GroupOk(e);
  }

  lemma GroupOk(e: Elem)
    ensures ElemOk("", e) <==>
            e.name == Name("", ROOT) && AttrsFine(ROOT, e.attrs) && SiblingsOk(ROOT, map[], 0, e.kids)
  {
    hide AttrsFine, SiblingsOk, Tallied, Contains, FIELDS;
  }

  lemma ChildIff(k: Elem)
    requires Legal(k.kids)
    ensures ElemOk(ROOT, k) <==> NameElem(k) || ServiceElem(k)
  {
    hide AttrsFine, SiblingsOk, Tallied, Contains, FIELDS, Optional, NoText, FieldElem, Elems, Count;
    if k.name.local == NAME {
      NameIff(k);
    } else if k.name.local == SERVICE {
      ServiceIff(k);
    }
  }

  lemma GroupCounts(f: Forest)
    requires forall k | k in Elems(f) :: NameElem(k) || ServiceElem(k)
    ensures (forall n :: Few(map[], f, n)) <==> Count(f, NAME) <= 1
  {
    hide Optional, FieldElem, Elems, Count, NoText;
    forall n
      ensures Few(map[], f, n) || n == NAME
    {
      CountsPresent(f, n);
    }
    assert Few(map[], f, NAME) <==> Count(f, NAME) <= 1;
  }

  /** Main result: on every properly nested token stream with XML names, the
      stack-and-count loop accepts exactly the documents of the grammar. */
  lemma AcceptsGrammar(doc: Forest)
    requires Legal(doc)
    ensures Balanced(Flatten(doc), 0)
    ensures Fold(EMPTY, Flatten(doc)).Some? <==> Grammar(doc)
  {
    hide ElemOk, GroupElem, Fold, SiblingsOk, NoText;
    LoopIsRecursion(doc);
    TopIff(0, doc);
    LegalElems(doc);
    forall e | e in Elems(doc)
      ensures ElemOk("", e) <==> GroupElem(e)
    {
      GroupIff(e);
    }
  }
}
