/** Service groups as values: what `Marshal` prints and what the decoder reads
    back from an accepted document. */
module ServiceGroups {
  import opened Basics
  import opened Revision
  import opened Texts
  import opened ServiceXml
  import opened ServiceGrammar

  datatype Txt = Txt(value: string, format: string)

  datatype Service = Service(protocol: string, kind: string, domain: string, host: string, port: nat,
                             subtypes: seq<string>, txt: seq<Txt>)

  datatype Group = Group(name: string, wildcards: string, services: seq<Service>)

  const MAX_PORT: nat := 65535

  // ----- xml.MarshalIndent -----

  function Attrs(n: string, value: string): seq<Attr> {
    if value == "" then [] else [Attr(Name("", n), value)]
  }

  function Body(text: string): Forest {
    if text == "" then Nil else Chars(text, Nil)
  }

  /** An element on a line of its own. */
  function Row(indent: string, n: string, attrs: seq<Attr>, kids: Forest, next: Forest): Forest {
    Chars(indent, Tree(Name("", n), attrs, kids, next))
  }

  const INDENT1 := "\n  "
  const INDENT2 := "\n    "

  function PrintSubtypes(subtypes: seq<string>, next: Forest): Forest {
    if subtypes == [] then next
    else Row(INDENT2, "subtype", [], Body(subtypes[0]), PrintSubtypes(subtypes[1..], next))
  }

  function PrintTxt(txt: seq<Txt>, next: Forest): Forest {
    if txt == [] then next
    else Row(INDENT2, "txt-record", Attrs("value-format", txt[0].format), Body(txt[0].value), PrintTxt(txt[1..], next))
  }

  function PrintIf(n: string, value: string, next: Forest): Forest {
    if value == "" then next else Row(INDENT2, n, [], Body(value), next)
  }

  function PrintFields(s: Service): Forest {
    Row(INDENT2, "type", [], Body(s.kind),
         PrintIf("domain-name", s.domain,
                 PrintIf("host-name", s.host,
                         Row(INDENT2, "port", [], Body(Digits(s.port, 10)),
                              PrintSubtypes(s.subtypes, PrintTxt(s.txt, Chars(INDENT1, Nil)))))))
  }

  function PrintServices(services: seq<Service>, next: Forest): Forest {
    if services == [] then next
    else Row(INDENT1, SERVICE, Attrs("protocol", services[0].protocol), PrintFields(services[0]),
      PrintServices(services[1..], next))
  }

  /** The XML header, the group, and a final newline. */
  function Print(g: Group): Forest {
    Misc(Row("\n", ROOT, [],
              Row(INDENT1, NAME, Attrs("replace-wildcards", g.wildcards), Body(g.name),
                PrintServices(g.services, Chars("\n", Nil))),
              Chars("\n", Nil)))
  }

  // ----- xml.Unmarshal -----

  function TextOf(f: Forest): string {
    match f
    case Nil => ""
    case Tree(_, _, _, next) => TextOf(next)
    case Chars(t, next) => t + TextOf(next)
    case Misc(next) => TextOf(next)
  }

  /** The last attribute of that name wins. */
  function AttrOf(attrs: seq<Attr>, n: string, before: string): string {
    if attrs == [] then before
    else AttrOf(attrs[1..], n, if attrs[0].name.local == n then attrs[0].value else before)
  }

  predicate AllDigits(s: string) {
    s != "" && forall i | 0 <= i < |s| :: '0' <= s[i] <= '9'
  }

  /** A uint16 from text; empty text leaves zero. */
  function ParsePort(text: string): Option<nat> {
    var t := Trim(text);
    if text == "" then Some(0)
    else if AllDigits(t) && 0 <= Value(t, 10) <= MAX_PORT then Some(Value(t, 10)) else None
  }

  /** What one child element does: scalars are overwritten, lists grow, anything else is skipped. */
  function Put(s: Service, n: string, attrs: seq<Attr>, t: string): Option<Service> {
    if n == "type" then Some(s.(kind := t))
    else if n == "domain-name" then Some(s.(domain := t))
    else if n == "host-name" then Some(s.(host := t))
    else if n == "subtype" then Some(s.(subtypes := s.subtypes + [t]))
    else if n == "txt-record" then Some(s.(txt := s.txt + [Txt(t, AttrOf(attrs, "value-format", ""))]))
    else if n == "port" then
      match ParsePort(t)
      case None => None
      case Some(p) => Some(s.(port := p))
    else Some(s)
  }

  function ReadFields(s: Service, f: Forest): Option<Service>
    decreases f
  {
    match f
    case Nil => Some(s)
    case Chars(_, next) => ReadFields(s, next)
    case Misc(next) => ReadFields(s, next)
    case Tree(name, attrs, kids, next) =>
      match Put(s, name.local, attrs, TextOf(kids))
      case None => None
      case Some(t) => ReadFields(t, next)
  }

  const BLANK := Service("", "", "", "", 0, [], [])

  function ReadGroup(g: Group, f: Forest): Option<Group>
    decreases f
  {
    match f
    case Nil => Some(g)
    case Chars(_, next) => ReadGroup(g, next)
    case Misc(next) => ReadGroup(g, next)
    case Tree(name, attrs, kids, next) =>
      if name.local == NAME then
        ReadGroup(g.(name := TextOf(kids), wildcards := AttrOf(attrs, "replace-wildcards", g.wildcards)), next)
      else if name.local == SERVICE then
        match ReadFields(BLANK.(protocol := AttrOf(attrs, "protocol", "")), kids)
        case None => None
        case Some(s) => ReadGroup(g.(services := g.services + [s]), next)
      else ReadGroup(g, next)
  }

  /** The first root element; None without one, or for a malformed port. */
  function Decode(doc: Forest): Option<Group> {
    if Elems(doc) == [] then None else ReadGroup(Group("", "", []), Elems(doc)[0].kids)
  }

  // ----- the printed form is accepted -----

  lemma BlankIndents()
    ensures Blank("\n") && Blank(INDENT1) && Blank(INDENT2)
  {
  }

  /** A well-formed tail of the fields of a service. */
  ghost predicate GoodTail(f: Forest) {
    NoText(f) && forall e | e in Elems(f) :: FieldElem(e)
  }

  lemma LineGood(n: string, attrs: seq<Attr>, text: string, next: Forest)
    requires GoodTail(next) && n in FIELD_NAMES
    requires if n == "txt-record" then Optional(attrs, "value-format") else attrs == []
    ensures GoodTail(Row(INDENT2, n, attrs, Body(text), next))
    ensures forall m :: Count(Row(INDENT2, n, attrs, Body(text), next), m) == (if n == m then 1 else 0) + Count(next, m)
  {
    BlankIndents();
    var f := Row(INDENT2, n, attrs, Body(text), next);
    assert FieldElem(Elem(Name("", n), attrs, Body(text)));
    assert Elems(f) == [Elem(Name("", n), attrs, Body(text))] + Elems(next);
  }

  lemma {:induction false} SubtypesGood(subtypes: seq<string>, next: Forest)
    requires GoodTail(next)
    ensures GoodTail(PrintSubtypes(subtypes, next))
    ensures forall m | m != "subtype" :: Count(PrintSubtypes(subtypes, next), m) == Count(next, m)
  {
    hide GoodTail;
    if subtypes != [] {
      SubtypesGood(subtypes[1..], next);
      LineGood("subtype", [], subtypes[0], PrintSubtypes(subtypes[1..], next));
    }
  }

  lemma {:induction false} TxtGood(txt: seq<Txt>, next: Forest)
    requires GoodTail(next)
    ensures GoodTail(PrintTxt(txt, next))
    ensures forall m | m != "txt-record" :: Count(PrintTxt(txt, next), m) == Count(next, m)
  {
    hide GoodTail;
    if txt != [] {
      TxtGood(txt[1..], next);
      LineGood("txt-record", Attrs("value-format", txt[0].format), txt[0].value, PrintTxt(txt[1..], next));
    }
  }

  lemma IfGood(n: string, value: string, next: Forest)
    requires GoodTail(next) && n in FIELD_NAMES && n != "txt-record"
    ensures GoodTail(PrintIf(n, value, next))
    ensures forall m | m != n :: Count(PrintIf(n, value, next), m) == Count(next, m)
    ensures Count(PrintIf(n, value, next), n) <= 1 + Count(next, n)
  {
    hide GoodTail;
    if value != "" {
      LineGood(n, [], value, next);
    }
  }

  lemma FieldsGood(s: Service)
    ensures ServiceElem(Elem(Name("", SERVICE), Attrs("protocol", s.protocol), PrintFields(s)))
  {
    hide PrintSubtypes, PrintTxt, PrintIf, Row;
    var last := Chars(INDENT1, Nil);
    assert GoodTail(last) && forall m :: Count(last, m) == 0 by {
      BlankIndents();
    }
    TxtGood(s.txt, last);
    var a := PrintTxt(s.txt, last);
    SubtypesGood(s.subtypes, a);
    var b := PrintSubtypes(s.subtypes, a);
    LineGood("port", [], Digits(s.port, 10), b);
    var c := Row(INDENT2, "port", [], Body(Digits(s.port, 10)), b);
    IfGood("host-name", s.host, c);
    var d := PrintIf("host-name", s.host, c);
    IfGood("domain-name", s.domain, d);
    var e := PrintIf("domain-name", s.domain, d);
    LineGood("type", [], s.kind, e);
  }

  lemma {:induction false} ServicesGood(services: seq<Service>, next: Forest)
    requires NoText(next) && Elems(next) == []
    ensures var f := PrintServices(services, next);
            NoText(f) && (forall e | e in Elems(f) :: ServiceElem(e)) && Count(f, NAME) == 0
  {
    hide ServiceElem, PrintFields;
    BlankIndents();
    if services == [] {
      NoneCounted(next);
    } else {
      ServicesGood(services[1..], next);
      FieldsGood(services[0]);
      var f, g := PrintServices(services, next), PrintServices(services[1..], next);
      assert forall e :: e in Elems(f) <==>
          e == Elem(Name("", SERVICE), Attrs("protocol", services[0].protocol), PrintFields(services[0])) ||
            e in Elems(g);
    }
  }

  function PrintedKids(g: Group): Forest {
    Row(INDENT1, NAME, Attrs("replace-wildcards", g.wildcards), Body(g.name),
      PrintServices(g.services, Chars("\n", Nil)))
  }

  lemma OneRoot(g: Group)
    ensures Elems(Print(g)) == [Elem(Name("", ROOT), [], PrintedKids(g))] && NoText(Print(g))
  {
    hide PrintServices;
    BlankIndents();
    var last := Chars("\n", Nil);
    var root := Tree(Name("", ROOT), [], PrintedKids(g), last);
    assert Elems(last) == [] && NoText(last);
    assert Elems(root) == [Elem(Name("", ROOT), [], PrintedKids(g))] && NoText(root);
    assert Elems(Chars("\n", root)) == Elems(root) && NoText(Chars("\n", root));
  }

  /** The shape check passes everything that Marshal prints. */
  lemma PrintedAccepted(g: Group)
    ensures Grammar(Print(g))
  {
    hide ServiceElem, PrintServices;
    BlankIndents();
    var tail := Chars("\n", Nil);
    ServicesGood(g.services, tail);
    var services := PrintServices(g.services, tail);
    var first := Elem(Name("", NAME), Attrs("replace-wildcards", g.wildcards), Body(g.name));
    var kids := PrintedKids(g);
    var row := Tree(first.name, first.attrs, first.kids, services);
    assert kids == Chars(INDENT1, row) && NoText(row) && Count(row, NAME) == 1;
    assert Elems(kids) == [first] + Elems(services);
    assert NameElem(first) && GroupElem(Elem(Name("", ROOT), [], kids));
    OneRoot(g);
  }

  /** A printed group with n blank lines after the XML header. */
  function Padded(g: Group, n: nat): Forest {
    Misc(Chars(seq(n, _ => '\n'), Print(g).next))
  }

  /** They change neither the verdict nor the value, so acceptable files can be of any
      size up to the limit. */
  lemma PaddedAccepted(g: Group, n: nat)
    ensures Grammar(Padded(g, n)) && Decode(Padded(g, n)) == Decode(Print(g))
  {
    PrintedAccepted(g);
    assert Blank(seq(n, _ => '\n'));
    var rest := Print(g).next;
    assert Elems(Padded(g, n)) == Elems(Chars(seq(n, _ => '\n'), rest)) == Elems(rest) == Elems(Print(g));
    assert NoText(Print(g)) ==> NoText(Padded(g, n));
  }

  // ----- and reads back as what was printed -----

  lemma BodyText(text: string)
    ensures TextOf(Body(text)) == text
  {
  }

  lemma AttrsValue(n: string, value: string)
    ensures AttrOf(Attrs(n, value), n, "") == value
  {
    if value != "" {
      assert Attrs(n, value)[1..] == [];
    }
  }

  lemma PortBack(p: nat)
    requires p <= MAX_PORT
    ensures ParsePort(Digits(p, 10)) == Some(p)
  {
    var t := Digits(p, 10);
    DigitsValue(p, 10);
    hide Digits, Value, Trim;
    assert forall i | 0 <= i < |t| :: t[i] in t;
    TrimKeeps(t);
  }

  lemma {:induction false} SubtypesBack(s: Service, subtypes: seq<string>, next: Forest)
    ensures ReadFields(s, PrintSubtypes(subtypes, next)) == ReadFields(s.(subtypes := s.subtypes + subtypes), next)
    decreases |subtypes|
  {
    hide ReadFields, Row, Body;
    if subtypes == [] {
      assert s.subtypes + subtypes == s.subtypes;
    } else {
      RowBack(s, "subtype", [], subtypes[0], PrintSubtypes(subtypes[1..], next));
      SubtypesBack(s.(subtypes := s.subtypes + [subtypes[0]]), subtypes[1..], next);
      assert s.subtypes + [subtypes[0]] + subtypes[1..] == s.subtypes + subtypes;
    }
  }

  lemma {:induction false} TxtBack(s: Service, txt: seq<Txt>, next: Forest)
    ensures ReadFields(s, PrintTxt(txt, next)) == ReadFields(s.(txt := s.txt + txt), next)
    decreases |txt|
  {
    hide ReadFields, Row, Body;
    if txt == [] {
      assert s.txt + txt == s.txt;
    } else {
      RowBack(s, "txt-record", Attrs("value-format", txt[0].format), txt[0].value, PrintTxt(txt[1..], next));
      AttrsValue("value-format", txt[0].format);
      TxtBack(s.(txt := s.txt + [txt[0]]), txt[1..], next);
      assert s.txt + [txt[0]] + txt[1..] == s.txt + txt;
    }
  }

  lemma FieldsBack(s: Service)
    requires s.port <= MAX_PORT
    ensures ReadFields(BLANK.(protocol := s.protocol), PrintFields(s)) == Some(s)
  {
    hide Digits, Body, ParsePort, PrintSubtypes, PrintTxt, ReadFields, Row;
    PortBack(s.port);
    var last := Chars(INDENT1, Nil);
    var a := PrintTxt(s.txt, last);
    var b := PrintSubtypes(s.subtypes, a);
    var c := Row(INDENT2, "port", [], Body(Digits(s.port, 10)), b);
    var d := PrintIf("host-name", s.host, c);
    var t := BLANK.(protocol := s.protocol, kind := s.kind);
    RowBack(BLANK.(protocol := s.protocol), "type", [], s.kind, PrintIf("domain-name", s.domain, d));
    IfBack(t, "domain-name", s.domain, d);
    t := t.(domain := s.domain);
    IfBack(t, "host-name", s.host, c);
    t := t.(host := s.host);
    RowBack(t, "port", [], Digits(s.port, 10), b);
    t := t.(port := s.port);
    SubtypesBack(t, s.subtypes, a);
    t := t.(subtypes := [] + s.subtypes);
    TxtBack(t, s.txt, last);
    assert [] + s.subtypes == s.subtypes && [] + s.txt == s.txt;
    LastBack(s);
  }

  lemma RowBack(s: Service, n: string, attrs: seq<Attr>, text: string, next: Forest)
    ensures ReadFields(s, Row(INDENT2, n, attrs, Body(text), next))
         == match Put(s, n, attrs, text) case None => None case Some(t) => ReadFields(t, next)
  {
    hide Put;
    BodyText(text);
  }

  lemma IfBack(s: Service, n: string, value: string, next: Forest)
    requires n in ["domain-name", "host-name"] && (if n == "domain-name" then s.domain else s.host) == ""
    ensures ReadFields(s, PrintIf(n, value, next))
         == ReadFields(if n == "domain-name" then s.(domain := value) else s.(host := value), next)
  {
    hide ReadFields, Row;
    RowBack(s, n, [], value, next);
  }

  lemma LastBack(s: Service)
    ensures ReadFields(s, Chars(INDENT1, Nil)) == Some(s)
  {
  }

  lemma {:induction false} ServicesBack(g: Group, services: seq<Service>, next: Forest)
    requires forall s | s in services :: s.port <= MAX_PORT
    requires ReadGroup(g.(services := g.services + services), next) == Some(g.(services := g.services + services))
    ensures ReadGroup(g, PrintServices(services, next)) == Some(g.(services := g.services + services))
    decreases |services|
  {
    hide PrintFields, ReadFields;
    if services == [] {
      assert g.services + services == g.services;
    } else {
      AttrsValue("protocol", services[0].protocol);
      FieldsBack(services[0]);
      var h := g.(services := g.services + [services[0]]);
      assert h.services + services[1..] == g.services + services;
      ServicesBack(h, services[1..], next);
    }
  }

  /** Round trip: decoding what was printed gives the group back. */
  lemma PrintedReadsBack(g: Group)
    requires forall s | s in g.services :: s.port <= MAX_PORT
    ensures Decode(Print(g)) == Some(g)
  {
    hide PrintServices;
    OneRoot(g);
    BodyText(g.name);
    AttrsValue("replace-wildcards", g.wildcards);
    var h := Group(g.name, g.wildcards, []);
    var services := PrintServices(g.services, Chars("\n", Nil));
    var row := Tree(Name("", NAME), Attrs("replace-wildcards", g.wildcards), Body(g.name), services);
    assert ReadGroup(Group("", "", []), PrintedKids(g)) == ReadGroup(Group("", "", []), row) == ReadGroup(h, services);
    assert h.services + g.services == g.services;
    ServicesBack(h, g.services, Chars("\n", Nil));
  }

  // ----- nothing in an accepted document is lost -----

  /** The texts of the elements called n, in order. */
  function TextsNamed(f: Forest, n: string): (ts: seq<string>)
    ensures |ts| == Count(f, n)
  {
    match f
    case Nil => []
    case Tree(name, _, kids, next) => (if name.local == n then [TextOf(kids)] else []) + TextsNamed(next, n)
    case Chars(_, next) => TextsNamed(next, n)
    case Misc(next) => TextsNamed(next, n)
  }

  function TxtNamed(f: Forest): seq<Txt> {
    match f
    case Nil => []
    case Tree(name, attrs, kids, next) =>
      (if name.local == "txt-record" then [Txt(TextOf(kids), AttrOf(attrs, "value-format", ""))] else []) +
        TxtNamed(next)
    case Chars(_, next) => TxtNamed(next)
    case Misc(next) => TxtNamed(next)
  }

  function LastOr(ts: seq<string>, before: string): string {
    if ts == [] then before else ts[|ts| - 1]
  }

  /** s holds of f, over s0, every list element, and of each scalar the last occurrence. */
  ghost predicate Holds(s0: Service, f: Forest, s: Service) {
    && s.kind == LastOr(TextsNamed(f, "type"), s0.kind)
    && s.domain == LastOr(TextsNamed(f, "domain-name"), s0.domain)
    && s.host == LastOr(TextsNamed(f, "host-name"), s0.host)
    && (if TextsNamed(f, "port") == [] then s.port == s0.port
          else ParsePort(LastOr(TextsNamed(f, "port"), "")) == Some(s.port))
    && s.subtypes == s0.subtypes + TextsNamed(f, "subtype")
    && s.txt == s0.txt + TxtNamed(f)
    && s.protocol == s0.protocol
  }

  /** What reading does in general. */
  lemma {:induction false} ReadMeans(s0: Service, f: Forest)
    requires ReadFields(s0, f).Some?
    ensures Holds(s0, f, ReadFields(s0, f).value)
    decreases f
  {
    hide ParsePort, TextOf, AttrOf, Put;
    match f {
      case Nil =>
      case Chars(_, next) => ReadMeans(s0, next);
      case Misc(next) => ReadMeans(s0, next);
      case Tree(name, attrs, kids, next) =>
        hide Holds;
        var s1 := Put(s0, name.local, attrs, TextOf(kids)).value;
        ReadMeans(s1, next);
        HoldsTree(s0, f, s1, ReadFields(s1, next).value);
    }
  }

  lemma HoldsTree(s0: Service, f: Forest, s1: Service, s: Service)
    requires f.Tree? && Put(s0, f.name.local, f.attrs, TextOf(f.kids)) == Some(s1) && Holds(s1, f.next, s)
    ensures Holds(s0, f, s)
  {
    hide ParsePort, TextOf, AttrOf, Put, TextsNamed;
    PutMeans(s0, f.name.local, f.attrs, TextOf(f.kids));
    NamedTree(f, "type", s0.kind);
    NamedTree(f, "domain-name", s0.domain);
    NamedTree(f, "host-name", s0.host);
    NamedTree(f, "port", "");
    NamedTree(f, "subtype", "");
    LastAny(TextsNamed(f.next, "port"));
  }

  lemma PutMeans(s0: Service, n: string, attrs: seq<Attr>, t: string)
    requires Put(s0, n, attrs, t).Some?
    ensures var s := Put(s0, n, attrs, t).value;
            && s.kind == (if n == "type" then t else s0.kind)
            && s.domain == (if n == "domain-name" then t else s0.domain)
            && s.host == (if n == "host-name" then t else s0.host)
            && (if n == "port" then ParsePort(t) == Some(s.port) else s.port == s0.port)
            && s.subtypes == s0.subtypes + (if n == "subtype" then [t] else [])
            && s.txt == s0.txt + (if n == "txt-record" then [Txt(t, AttrOf(attrs, "value-format", ""))] else [])
            && s.protocol == s0.protocol
  {
    hide ParsePort, AttrOf;
  }

  lemma NamedTree(f: Forest, n: string, before: string)
    requires f.Tree?
    ensures var t := TextOf(f.kids);
            && TextsNamed(f, n) == (if f.name.local == n then [t] else []) + TextsNamed(f.next, n)
            && LastOr(TextsNamed(f, n), before)
                  == LastOr(TextsNamed(f.next, n), if f.name.local == n then t else before)
  {
    hide TextOf;
    assert [] + TextsNamed(f.next, n) == TextsNamed(f.next, n);
  }

  lemma LastAny(ts: seq<string>)
    ensures ts != [] ==> forall a, b :: LastOr(ts, a) == LastOr(ts, b)
  {
  }

  /** The decoded service holds every element of an accepted one: the scalars
      that are there, and both lists in document order. */
  lemma NothingLost(e: Elem, s: Service)
    requires ServiceElem(e) && ReadFields(BLANK.(protocol := AttrOf(e.attrs, "protocol", "")), e.kids) == Some(s)
    ensures TextsNamed(e.kids, "type") == [s.kind]
    ensures |TextsNamed(e.kids, "port")| == 1 && ParsePort(TextsNamed(e.kids, "port")[0]) == Some(s.port)
    ensures TextsNamed(e.kids, "domain-name") == [s.domain] ||
              (TextsNamed(e.kids, "domain-name") == [] && s.domain == "")
    ensures TextsNamed(e.kids, "host-name") == [s.host] || (TextsNamed(e.kids, "host-name") == [] && s.host == "")
    ensures TextsNamed(e.kids, "subtype") == s.subtypes && TxtNamed(e.kids) == s.txt
    ensures forall k | k in Elems(e.kids) :: k.name.local in FIELD_NAMES && Elems(k.kids) == []
    ensures NoText(e.kids) &&
              ((e.attrs == [] && s.protocol == "") || (|e.attrs| == 1 && e.attrs[0].value == s.protocol))
  {
    hide ParsePort, TextOf, NoText, FIELD_NAMES;
    ReadMeans(BLANK.(protocol := AttrOf(e.attrs, "protocol", "")), e.kids);
    if e.attrs != [] {
      assert e.attrs[1..] == [];
    }
  }

  /** Without the check a repeated scalar would be dropped without a word. */
  lemma RepeatedScalarDropped(a: string, b: string, next: Forest)
    ensures var f := Tree(Name("", "type"), [], Body(a), Tree(Name("", "type"), [], Body(b), next));
            ReadFields(BLANK, f) == ReadFields(BLANK, f.next)
            && !ServiceElem(Elem(Name("", SERVICE), [], f))
  {
    BodyText(a);
    BodyText(b);
    assert Count(Tree(Name("", "type"), [], Body(b), next), "type") >= 1;
  }
}
