/** config.xml as a list of the children of its root: reading it, printing it, and what survives.

    Above the XML text: an element comes with the text it holds, anything else with its bytes. */
module ConfigDocument {
  import opened Wrappers
  import opened Text
  import opened Config

  datatype Child =
    | Element(name: string, prefixed: bool, text: string, raw: string)
    | Misc(raw: string)       // a comment, processing instruction or directive
    | Chars(text: string)

  /** A setting, printed from the configuration, or anything else, kept as it is. */
  datatype Node = Known(field: Index) | Raw(child: Child)

  datatype Parsed = Parsed(nodes: seq<Node>, values: map<Index, string>, dirty: bool)

  function FieldFrom(name: string, i: nat): Option<Index>
    requires i <= COUNT
    decreases COUNT - i, name
  {
    if i == COUNT then None
    else if EqualFold(FIELDS[i].xml, name) then Some(i)
    else FieldFrom(name, i + 1)
  }

  /** The setting an element names, whatever its case. */
  function FieldOf(name: string): Option<Index> {
    FieldFrom(name, 0)
  }

  // ----- Reading -----

  datatype Reading = Reading(p: Parsed, seen: set<string>)

  const START := Reading(Parsed([], map[], false), {})

  function ReadKnown(p: Parsed, i: Index, e: Child): Parsed
    requires e.Element?
  {
    var text := Trim(e.text, SPACES);
    if i in p.values then
      p.(dirty := true, values := if p.values[i] == "" && text != "" then p.values[i := text] else p.values)
    else
      Parsed(p.nodes + [Known(i)], p.values[i := text], p.dirty || e.name != FIELDS[i].xml || e.prefixed)
  }

  function ReadUnknown(r: Reading, e: Child): Reading
    requires e.Element?
  {
    var key := Lower(e.name);
    if key in r.seen then r.(p := r.p.(dirty := true))
    else Reading(r.p.(nodes := r.p.nodes + [Raw(e)]), r.seen + {key})
  }

  function ReadChild(r: Reading, child: Child): Option<Reading> {
    match child
    case Chars(text) => if Blank(text) then Some(r) else None
    case Misc(_) => Some(r.(p := r.p.(nodes := r.p.nodes + [Raw(child)])))
    case Element(name, _, _, _) =>
      match FieldOf(name)
      case None => Some(ReadUnknown(r, child))
      case Some(i) => Some(r.(p := ReadKnown(r.p, i, child)))
  }

  function ReadAll(children: seq<Child>): Option<Reading>
    decreases |children|
  {
    if children == [] then Some(START)
    else
      match ReadAll(children[..|children| - 1])
      case None => None
      case Some(r) => ReadChild(r, children[|children| - 1])
  }

  /** None: text that is not blank stands between the elements. */
  function Parse(children: seq<Child>): Option<Parsed> {
    match ReadAll(children) case None => None case Some(r) => Some(r.p)
  }

  method ParseDocument(children: seq<Child>) returns (out: Option<Parsed>)
    ensures out == Parse(children)
  {
    var nodes: seq<Node>, values: map<Index, string>, dirty := [], map[], false;
    var seen: set<string> := {};
    for n := 0 to |children|
      invariant ReadAll(children[..n]) == Some(Reading(Parsed(nodes, values, dirty), seen))
    {
      assert children[..n + 1][..n] == children[..n];
      var child := children[n];
      match child
      case Chars(text) =>
        if !Blank(text) {
          ReadAllFails(children, n + 1);
          return None;
        }
      case Misc(_) =>
        nodes := nodes + [Raw(child)];
      case Element(name, prefixed, text, _) =>
        match FieldOf(name) {
          case None =>
            if Lower(name) in seen {
              dirty := true;
            } else {
              seen := seen + {Lower(name)};
              nodes := nodes + [Raw(child)];
            }
          case Some(i) =>
            var t := Trim(text, SPACES);
            if i in values {
              dirty := true;
              if values[i] == "" && t != "" {
                values := values[i := t];
              }
            } else {
              if name != FIELDS[i].xml || prefixed {
                dirty := true;
              }
              values := values[i := t];
              nodes := nodes + [Known(i)];
            }
        }
    }
    assert children[..|children|] == children;
    out := Some(Parsed(nodes, values, dirty));
  }

  lemma {:induction false} ReadAllFails(children: seq<Child>, n: nat)
    requires n <= |children| && ReadAll(children[..n]).None?
    ensures ReadAll(children).None?
    decreases |children|
  {
    if n < |children| {
      assert children[..|children| - 1][..n] == children[..n];
      ReadAllFails(children[..|children| - 1], n);
    } else {
      assert children[..n] == children;
    }
  }

  // ----- Printing -----

  function Printed(c: Config, node: Node): Child {
    match node
    case Known(i) => Element(FIELDS[i].xml, false, Format(c[i]), Format(c[i]))
    case Raw(child) => child
  }

  /** One child a line, indented. */
  function Lines(nodes: seq<Node>, c: Config): seq<Child>
    decreases |nodes|
  {
    if nodes == [] then []
    else Lines(nodes[..|nodes| - 1], c) + [Chars("\n  "), Printed(c, nodes[|nodes| - 1])]
  }

  function Render(nodes: seq<Node>, c: Config): seq<Child> {
    Lines(nodes, c) + [Chars("\n")]
  }

  method RenderDocument(nodes: seq<Node>, c: Config) returns (out: seq<Child>)
    ensures out == Render(nodes, c)
  {
    out := [];
    for n := 0 to |nodes|
      invariant out == Lines(nodes[..n], c)
    {
      assert nodes[..n + 1][..n] == nodes[..n];
      out := out + [Chars("\n  ")];
      match nodes[n] {
        case Raw(child) => out := out + [child];
        case Known(i) => out := out + [Element(FIELDS[i].xml, false, Format(c[i]), Format(c[i]))];
      }
    }
    assert nodes[..|nodes|] == nodes;
    out := out + [Chars("\n")];
  }

  // ----- What a document that was read looks like -----

  function Fields(nodes: seq<Node>): set<Index> {
    set n: Node | n in nodes && n.Known? :: n.field
  }

  function Names(nodes: seq<Node>): set<string> {
    set n: Node | n in nodes && n.Raw? && n.child.Element? :: Lower(n.child.name)
  }

  /** Every setting and every name once; nothing of what is kept is text or a setting. */
  predicate Tidy(nodes: seq<Node>)
    decreases |nodes|
  {
    if nodes == [] then true
    else
      var rest, n := nodes[..|nodes| - 1], nodes[|nodes| - 1];
      && Tidy(rest)
      && match n
         case Known(i) => i !in Fields(rest)
         case Raw(child) =>
           !child.Chars? && (child.Element? ==> FieldOf(child.name).None? && Lower(child.name) !in Names(rest))
  }

  lemma FieldsSnoc(nodes: seq<Node>, n: Node)
    ensures Fields(nodes + [n]) == Fields(nodes) + if n.Known? then {n.field} else {}
    ensures Names(nodes + [n]) == Names(nodes) + if n.Raw? && n.child.Element? then {Lower(n.child.name)} else {}
  {
    assert forall m :: m in nodes + [n] <==> m in nodes || m == n;
    assert n in nodes + [n];
  }

  predicate ReadOk(r: Reading) {
    Tidy(r.p.nodes) && r.p.values.Keys == Fields(r.p.nodes) && r.seen == Names(r.p.nodes)
  }

  lemma SnocTidy(nodes: seq<Node>, n: Node)
    ensures Tidy(nodes + [n]) <==>
            && Tidy(nodes)
            && match n
               case Known(i) => i !in Fields(nodes)
               case Raw(child) =>
                 !child.Chars? && (child.Element? ==> FieldOf(child.name).None? && Lower(child.name) !in Names(nodes))
  {
    assert (nodes + [n])[..|nodes|] == nodes && (nodes + [n])[|nodes|] == n;
  }

  lemma ReadChildOk(r: Reading, child: Child)
    requires ReadOk(r) && ReadChild(r, child).Some?
    ensures ReadOk(ReadChild(r, child).value)
  {
    hide Tidy, Fields, Names, FieldOf, Lower, Trim, Blank;
    var t := ReadChild(r, child).value;
    if t.p.nodes != r.p.nodes {
      var n := if child.Element? && FieldOf(child.name).Some? then Known(FieldOf(child.name).value) else Raw(child);
      assert t.p.nodes == r.p.nodes + [n];
      SnocTidy(r.p.nodes, n);
      FieldsSnoc(r.p.nodes, n);
    }
  }

  /** Reading keeps one of each: it yields a tidy document, and the values of the settings in it. */
  lemma {:induction false} ReadIsTidy(children: seq<Child>)
    requires ReadAll(children).Some?
    ensures ReadOk(ReadAll(children).value)
    decreases |children|
  {
    if children != [] {
      ReadIsTidy(children[..|children| - 1]);
      ReadChildOk(ReadAll(children[..|children| - 1]).value, children[|children| - 1]);
    }
  }

  /** The text a printed setting reads as. */
  function Texts(nodes: seq<Node>, c: Config): map<Index, string> {
    map i | i in Fields(nodes) :: Trim(Format(c[i]), SPACES)
  }

  /** Lengths and initials tell the settings apart. */
  const SHAPES: seq<(nat, char)> := [
    (11, 'b'), (4, 'p'), (7, 'u'), (9, 'e'), (7, 's'), (11, 's'), (10, 's'), (6, 'a'), (20, 'a'), (22, 'a'),
    (14, 't'), (12, 'a'), (8, 'l'), (12, 'l'), (12, 'i'), (13, 'l'), (6, 'b')]

  lemma ShapeOf(i: Index)
    ensures |SHAPES| == COUNT && (|FIELDS[i].xml|, LowerChar(FIELDS[i].xml[0])) == SHAPES[i]
  {
  }

  lemma ShapesDiffer(i: Index, j: Index)
    requires |SHAPES| == COUNT && SHAPES[i] == SHAPES[j]
    ensures i == j
  {
  }

  lemma NamesDiffer(i: Index, j: Index)
    requires EqualFold(FIELDS[i].xml, FIELDS[j].xml)
    ensures i == j
  {
    ShapeOf(i);
    ShapeOf(j);
    var a, b := FIELDS[i].xml, FIELDS[j].xml;
    assert |Lower(a)| == |Lower(b)| && Lower(a)[0] == Lower(b)[0];
    ShapesDiffer(i, j);
  }

  lemma {:induction false} FieldFromXml(i: Index, k: nat)
    requires k <= i
    ensures FieldFrom(FIELDS[i].xml, k) == Some(i)
    decreases i - k
  {
    if EqualFold(FIELDS[k].xml, FIELDS[i].xml) {
      NamesDiffer(k, i);
    } else {
      FieldFromXml(i, k + 1);
    }
  }

  lemma ReadPrinted(nodes: seq<Node>, n: Node, c: Config)
    requires Tidy(nodes + [n])
    ensures ReadChild(Reading(Parsed(nodes, Texts(nodes, c), false), Names(nodes)), Printed(c, n))
            == Some(Reading(Parsed(nodes + [n], Texts(nodes + [n], c), false), Names(nodes + [n])))
  {
    SnocTidy(nodes, n);
    FieldsSnoc(nodes, n);
    hide Tidy, Fields, Names, Format, Lower, Trim, Blank;
    match n
    case Known(i) =>
      FieldFromXml(i, 0);
      assert Names(nodes + [n]) == Names(nodes);
      assert Texts(nodes + [n], c) == Texts(nodes, c)[i := Trim(Format(c[i]), SPACES)];
    case Raw(child) =>
      assert Fields(nodes + [n]) == Fields(nodes);
      assert Texts(nodes + [n], c) == Texts(nodes, c);
      if !child.Element? {
        assert Names(nodes + [n]) == Names(nodes);
      }
  }

  lemma ReadLine(children: seq<Child>, child: Child)
    ensures ReadAll(children + [Chars("\n  "), child]) ==
            match ReadAll(children) case None => None case Some(r) => ReadChild(r, child)
  {
    hide ReadKnown, ReadUnknown, FieldOf;
    var all := children + [Chars("\n  "), child];
    var some := children + [Chars("\n  ")];
    assert all[..|all| - 1] == some && some[..|some| - 1] == children;
    assert Blank("\n  ");
  }

  lemma {:induction false} ReadLines(nodes: seq<Node>, c: Config)
    requires Tidy(nodes)
    ensures ReadAll(Lines(nodes, c)) == Some(Reading(Parsed(nodes, Texts(nodes, c), false), Names(nodes)))
    decreases |nodes|
  {
    hide ReadChild, Printed, Texts, Names;
    if nodes != [] {
      var rest, n := nodes[..|nodes| - 1], nodes[|nodes| - 1];
      assert nodes == rest + [n];
      ReadLines(rest, c);
      ReadPrinted(rest, n, c);
      ReadLine(Lines(rest, c), Printed(c, n));
    } else {
      NothingPrinted(c);
    }
  }

  lemma NothingPrinted(c: Config)
    ensures Texts([], c) == map[] && Names([]) == {}
  {
  }

  /** A printed document reads as itself: the same nodes, exactly the printed settings, nothing to
      rewrite. */
  lemma ParseRender(nodes: seq<Node>, c: Config)
    requires Tidy(nodes)
    ensures Parse(Render(nodes, c)) == Some(Parsed(nodes, Texts(nodes, c), false))
  {
    ReadLines(nodes, c);
    var all := Render(nodes, c);
    assert all[..|all| - 1] == Lines(nodes, c) && all[|all| - 1] == Chars("\n");
    assert Blank("\n");
  }

  // ----- What becomes of duplicates -----

  predicate IsFor(child: Child, i: Index) {
    child.Element? && FieldOf(child.name) == Some(i)
  }

  /** The value that counts: the first that is not blank; "" if all are, None if there is no element. */
  function FirstValue(children: seq<Child>, i: Index): Option<string>
    decreases |children|
  {
    if children == [] then None
    else
      var first := children[0];
      var rest := FirstValue(children[1..], i);
      if !IsFor(first, i) then rest
      else if !Blank(first.text) || rest.None? then Some(Trim(first.text, SPACES))
      else rest
  }

  predicate Repeats(children: seq<Child>, n: nat)
    requires n < |children| && children[n].Element?
  {
    exists j | 0 <= j < n :: children[j].Element? && Lower(children[j].name) == Lower(children[n].name)
  }

  /** What is kept of the rest: all but text, and but elements of a name that came before. */
  function KeptRest(children: seq<Child>): seq<Child>
    decreases |children|
  {
    if children == [] then []
    else
      var n := |children| - 1;
      var kept := KeptRest(children[..n]);
      match children[n]
      case Chars(_) => kept
      case Misc(_) => kept + [children[n]]
      case Element(name, _, _, _) =>
        if FieldOf(name).Some? || Repeats(children, n) then kept else kept + [children[n]]
  }

  function Rest(nodes: seq<Node>): seq<Child>
    decreases |nodes|
  {
    if nodes == [] then []
    else
      match nodes[|nodes| - 1]
      case Known(_) => Rest(nodes[..|nodes| - 1])
      case Raw(child) => Rest(nodes[..|nodes| - 1]) + [child]
  }

  lemma {:induction false} FirstValueSnoc(children: seq<Child>, child: Child, i: Index)
    ensures FirstValue(children + [child], i) ==
            match FirstValue(children, i)
            case None => if IsFor(child, i) then Some(Trim(child.text, SPACES)) else None
            case Some(v) => if v == "" && IsFor(child, i) && !Blank(child.text) then Some(Trim(child.text, SPACES)) else Some(v)
    decreases |children|
  {
    if children == [] {
      assert children + [child] == [child] && [child][1..] == [];
    } else {
      assert (children + [child])[1..] == children[1..] + [child];
      FirstValueSnoc(children[1..], child, i);
    }
  }

  lemma {:induction false} FieldFold(a: string, b: string, k: nat)
    requires Lower(a) == Lower(b) && k <= COUNT
    ensures FieldFrom(a, k) == FieldFrom(b, k)
    decreases COUNT - k
  {
    if k < COUNT {
      FieldFold(a, b, k + 1);
    }
  }

  predicate HasName(children: seq<Child>, name: string) {
    exists j | 0 <= j < |children| :: children[j].Element? && Lower(children[j].name) == name
  }

  lemma HasNameSnoc(children: seq<Child>, child: Child, name: string)
    ensures HasName(children + [child], name) <==>
            HasName(children, name) || (child.Element? && Lower(child.name) == name)
  {
    var all := children + [child];
    if HasName(children, name) {
      var j :| 0 <= j < |children| && children[j].Element? && Lower(children[j].name) == name;
      assert all[j] == children[j];
    }
    if child.Element? && Lower(child.name) == name {
      assert all[|children|] == child;
    }
  }

  lemma KeptRestSnoc(children: seq<Child>, child: Child)
    ensures KeptRest(children + [child]) == KeptRest(children) +
            if child.Chars? || (child.Element? && (FieldOf(child.name).Some? || HasName(children, Lower(child.name))))
            then [] else [child]
  {
    var all := children + [child];
    assert all[..|children|] == children && all[|children|] == child;
    assert child.Element? ==> (Repeats(all, |children|) <==> HasName(children, Lower(child.name)));
  }

  lemma RestSnoc(nodes: seq<Node>, n: Node)
    ensures Rest(nodes + [n]) == Rest(nodes) + if n.Raw? then [n.child] else []
  {
    assert (nodes + [n])[..|nodes|] == nodes;
  }

  /** Names seen are those of the elements that are no settings. */
  ghost predicate Summary(r: Reading, children: seq<Child>) {
    && Rest(r.p.nodes) == KeptRest(children)
    && (forall i: Index :: FirstValue(children, i) == if i in r.p.values then Some(r.p.values[i]) else None)
    && (forall name: string | FieldOf(name).None? :: Lower(name) in r.seen <==> HasName(children, Lower(name)))
  }

  lemma SummaryStep(r: Reading, children: seq<Child>, child: Child)
    requires Summary(r, children) && ReadChild(r, child).Some?
    ensures Summary(ReadChild(r, child).value, children + [child])
  {
    var t := ReadChild(r, child).value;
    forall i: Index
      ensures FirstValue(children + [child], i) == if i in t.p.values then Some(t.p.values[i]) else None
    {
      FirstValueSnoc(children, child, i);
    }
    KeptRestSnoc(children, child);
    RestSnoc(r.p.nodes, Raw(child));
    if child.Element? && FieldOf(child.name).Some? {
      RestSnoc(r.p.nodes, Known(FieldOf(child.name).value));
    }
    forall name: string | FieldOf(name).None?
      ensures Lower(name) in t.seen <==> HasName(children + [child], Lower(name))
    {
      HasNameSnoc(children, child, Lower(name));
      if child.Element? && Lower(child.name) == Lower(name) {
        FieldFold(child.name, name, 0);
      }
    }
  }

  lemma {:induction false} ReadSummary(children: seq<Child>)
    requires ReadAll(children).Some?
    ensures Summary(ReadAll(children).value, children)
    decreases |children|
  {
    if children != [] {
      var rest := children[..|children| - 1];
      ReadSummary(rest);
      SummaryStep(ReadAll(rest).value, rest, children[|children| - 1]);
      assert rest + [children[|children| - 1]] == children;
    }
  }

  /** Of duplicates one is kept: of a setting the first value that is not blank, of anything else the
      first element; everything else stays, in order. */
  lemma DuplicatesCollapse(children: seq<Child>)
    requires Parse(children).Some?
    ensures
      var p := Parse(children).value;
      && Tidy(p.nodes) && p.values.Keys == Fields(p.nodes)
      && Rest(p.nodes) == KeptRest(children)
      && forall i: Index ::
           FirstValue(children, i) == if i in p.values then Some(p.values[i]) else None
  {
    ReadSummary(children);
    ReadIsTidy(children);
  }

  // ----- Decoding -----

  /** The settings a document lacks are appended to it, in the order of the table. */
  function Missing(values: map<Index, string>, n: nat): seq<Node>
    requires n <= COUNT
  {
    if n == 0 then []
    else if n - 1 in values then Missing(values, n - 1)
    else Missing(values, n - 1) + [Known(n - 1)]
  }

  /** A blank setting that may not be blank takes its default, the API key a new one. */
  function DecodeValue(i: Index, raw: string, key: string): (v: Option<Value>)
    ensures v.Some? ==> HasKind(v.value, FIELDS[i].kind)
  {
    if raw == "" && !FIELDS[i].optional then Some(if i == API_KEY then S(key) else DEFAULT[i])
    else ReadValue(FIELDS[i].kind, raw)
  }

  function RawOf(p: Parsed, i: Index): string {
    if i in p.values then p.values[i] else ""
  }

  datatype Decoded = Decoded(c: Config, dirty: bool, nodes: seq<Node>)

  predicate Lacks(p: Parsed, i: Index) {
    i !in p.values || (p.values[i] == "" && !FIELDS[i].optional)
  }

  predicate Differs(p: Parsed, c: Config, i: Index) {
    i in p.values && p.values[i] != "" && Format(c[i]) != p.values[i]
  }

  function ReadRow(p: Parsed, key: string): Config
    requires forall i: Index :: DecodeValue(i, RawOf(p, i), key).Some?
  {
    seq(COUNT, i requires 0 <= i < COUNT => DecodeValue(i, RawOf(p, i), key).value)
  }

  /** None: some value cannot be read as its setting's kind. */
  function Decode(p: Parsed, key: string): Option<Decoded> {
    if exists i: Index | i < COUNT :: DecodeValue(i, RawOf(p, i), key).None? then None
    else
      var c := Normalize(ReadRow(p, key));
      Some(Decoded(c, p.dirty || exists i: Index | i < COUNT :: Lacks(p, i) || Differs(p, c, i), p.nodes + Missing(p.values, COUNT)))
  }

  /** The children of the rewritten file, and the configuration the caller is told it holds. */
  function RewriteFile(children: seq<Child>, key: string, change: Option<Config -> Config>): Option<(seq<Child>, Config)> {
    match Parse(children)
    case None => None
    case Some(p) =>
      match Decode(p, key)
      case None => None
      case Some(d) =>
        var c := if change.None? then d.c else Normalize(change.value(d.c));
        Some((Render(d.nodes, c), c))
  }

  function RenderOnto(base: seq<Child>, c: Config, key: string): Option<seq<Child>> {
    match Parse(base)
    case None => None
    case Some(p) =>
      match Decode(p, key)
      case None => None
      case Some(d) => Some(Render(d.nodes, Normalize(c)))
  }

  /** Elements for the settings the document lacks. */
  method AppendMissing(p: Parsed) returns (nodes: seq<Node>)
    ensures nodes == p.nodes + Missing(p.values, COUNT)
  {
    nodes := p.nodes;
    for i := 0 to COUNT
      invariant nodes == p.nodes + Missing(p.values, i)
    {
      if i !in p.values {
        nodes := nodes + [Known(i)];
      }
    }
  }

  method ReadSetting(i: Index, raw: string, key: string) returns (v: Option<Value>)
    ensures v == DecodeValue(i, raw, key)
  {
    if raw == "" && !FIELDS[i].optional {
      v := Some(DEFAULT[i]);
      if FIELDS[i].xml == "ApiKey" {
        v := Some(S(key));
      }
    } else {
      v := ReadValue(FIELDS[i].kind, raw);
    }
  }

  predicate Reads(p: Parsed, key: string, i: Index, v: Value) {
    DecodeValue(i, RawOf(p, i), key) == Some(v)
  }

  method ReadSettings(p: Parsed, key: string) returns (c: Config, failed: bool)
    ensures failed ==> exists i: Index :: DecodeValue(i, RawOf(p, i), key).None?
    ensures !failed ==> forall i: Index :: Reads(p, key, i, c[i])
  {
    c, failed := DEFAULT, false;
    for i := 0 to COUNT
      invariant failed ==> exists j: Index :: DecodeValue(j, RawOf(p, j), key).None?
      invariant !failed ==> forall j: Index | j < i :: Reads(p, key, j, c[j])
    {
      var v := ReadSetting(i, RawOf(p, i), key);
      if v.None? {
        assert DecodeValue(i, RawOf(p, i), key).None?;
        failed := true;
      } else {
        c := Put(c, i, v.value);
        assert Reads(p, key, i, c[i]);
      }
      hide Reads, DecodeValue, RawOf;
    }
  }

  method NeedsRewrite(p: Parsed, c: Config) returns (dirty: bool)
    ensures dirty <==> p.dirty || exists i: Index :: Lacks(p, i) || Differs(p, c, i)
  {
    dirty := p.dirty;
    for i := 0 to COUNT
      invariant dirty <==> p.dirty || exists j: Index | j < i :: Lacks(p, j) || Differs(p, c, j)
    {
      if Lacks(p, i) || Differs(p, c, i) {
        dirty := true;
      }
    }
  }

  method DecodeParsed(p: Parsed, key: string) returns (out: Option<Decoded>)
    ensures out == Decode(p, key)
  {
    var c, failed := ReadSettings(p, key);
    if failed {
      return None;
    }
    assert c == ReadRow(p, key) by {
      assert forall i: Index :: Reads(p, key, i, c[i]);
    }
    c := Normalize(c);
    var dirty := NeedsRewrite(p, c);
    var nodes := AppendMissing(p);
    hide Lacks, Differs, Missing, Normalize, NormalValue, WellTyped;
    out := Some(Decoded(c, dirty, nodes));
  }

  // ----- Round trips -----

  lemma {:induction false} MissingCompletes(nodes: seq<Node>, values: map<Index, string>, n: nat)
    requires Tidy(nodes) && values.Keys == Fields(nodes) && n <= COUNT
    ensures
      var all := nodes + Missing(values, n);
      && Tidy(all) && Rest(all) == Rest(nodes)
      && forall i: Index :: i in Fields(all) <==> i in Fields(nodes) || i < n
    decreases n
  {
    hide Tidy, Fields, Rest, Names;
    if n == 0 {
      assert nodes + [] == nodes;
    } else {
      var before := nodes + Missing(values, n - 1);
      MissingCompletes(nodes, values, n - 1);
      if n - 1 !in values {
        assert nodes + Missing(values, n) == before + [Known(n - 1)];
        SnocTidy(before, Known(n - 1));
        FieldsSnoc(before, Known(n - 1));
        RestSnoc(before, Known(n - 1));
      }
    }
  }

  predicate Complete(nodes: seq<Node>) {
    Tidy(nodes) && forall i: Index :: i in Fields(nodes)
  }

  /** The nodes decode leaves: every setting once, and the rest as it was read. */
  lemma DecodeCompletes(children: seq<Child>, key: string)
    requires Parse(children).Some? && Decode(Parse(children).value, key).Some?
    ensures
      var nodes := Decode(Parse(children).value, key).value.nodes;
      Complete(nodes) && Rest(nodes) == KeptRest(children)
  {
    hide Parse, Tidy, Fields, Rest, KeptRest, Missing, Normalize, DecodeValue, Lacks, Differs, FirstValue;
    var p := Parse(children).value;
    DuplicatesCollapse(children);
    MissingCompletes(p.nodes, p.values, COUNT);
  }

  /** What the values of a configuration must be to survive a save: settled, trimmed, and not blank
      where the program would put a default. */
  predicate Durable(i: Index, v: Value)
    requires HasKind(v, FIELDS[i].kind)
  {
    NormalValue(i, v) == v && (v.S? ==> Trimmed(v.s, SPACES) && (v.s != "" || FIELDS[i].optional))
  }

  lemma ReadPrintedSetting(i: Index, v: Value, key: string)
    requires HasKind(v, FIELDS[i].kind)
    ensures DecodeValue(i, Trim(Format(v), SPACES), key) == Some(RereadValue(i, v, key))
  {
    ReadBack(v, FIELDS[i].kind);
    if v.S? {
      TrimTwice(v.s, SPACES);
    } else if v.N? {
      AtoiItoa(v.n);
      TrimFixed(Itoa(v.n), SPACES);
    } else {
      BoolNames();
      TrimFixed(Format(v), SPACES);
    }
  }

  /** What a printed document decodes to. */
  lemma DecodeRender(nodes: seq<Node>, c: Config, key: string)
    requires Complete(nodes)
    ensures Parse(Render(nodes, c)).Some?
    ensures
      var d := Decode(Parse(Render(nodes, c)).value, key);
      && d.Some? && d.value.nodes == nodes && d.value.c == Normalize(Reread(c, key))
      && (d.value.dirty <==> exists i: Index ::
            || (Blank(Format(c[i])) && !FIELDS[i].optional)
            || (!Blank(Format(c[i])) && Format(d.value.c[i]) != Trim(Format(c[i]), SPACES)))
  {
    ParseRender(nodes, c);
    var p := Parse(Render(nodes, c)).value;
    forall i: Index ensures RawOf(p, i) == Trim(Format(c[i]), SPACES) && i in p.values {
      assert i in Fields(nodes);
    }
    forall i: Index ensures DecodeValue(i, RawOf(p, i), key) == Some(Reread(c, key)[i]) {
      ReadPrintedSetting(i, c[i], key);
    }
    assert ReadRow(p, key) == Reread(c, key);
    NothingMissing(p.values, COUNT);
    var d := Decode(p, key).value;
    forall i: Index ensures Lacks(p, i) || Differs(p, d.c, i) <==>
                              || (Blank(Format(c[i])) && !FIELDS[i].optional)
                              || (!Blank(Format(c[i])) && Format(d.c[i]) != Trim(Format(c[i]), SPACES))
    {
    }
  }

  lemma {:induction false} NothingMissing(values: map<Index, string>, n: nat)
    requires n <= COUNT && forall i: Index :: i in values
    ensures Missing(values, n) == []
    decreases n
  {
    if n > 0 {
      NothingMissing(values, n - 1);
    }
  }

  /** A configuration printed into a complete document reads back as itself, with nothing to rewrite, if
      and only if its values are durable. */
  lemma RoundTrip(nodes: seq<Node>, c: Config, key: string)
    requires Complete(nodes)
    ensures Parse(Render(nodes, c)).Some?
    ensures Decode(Parse(Render(nodes, c)).value, key) == Some(Decoded(c, false, nodes))
            <==> forall i: Index :: Durable(i, c[i])
  {
    DecodeRender(nodes, c, key);
    var d := Decode(Parse(Render(nodes, c)).value, key).value;
    if forall i: Index :: Durable(i, c[i]) {
      forall i: Index ensures Normalize(Reread(c, key))[i] == c[i] {
        assert Durable(i, c[i]);
        DurableRereads(i, c[i], key);
      }
      assert Normalize(Reread(c, key)) == c;
      forall i: Index
        ensures !(Blank(Format(c[i])) && !FIELDS[i].optional)
        ensures Blank(Format(c[i])) || Format(d.c[i]) == Trim(Format(c[i]), SPACES)
      {
        assert Durable(i, c[i]);
        DurableRereads(i, c[i], key);
      }
    } else if d.c == c && !d.dirty {
      forall i: Index ensures Durable(i, c[i]) {
        assert Normalize(Reread(c, key))[i] == c[i];
        StableIsDurable(i, c[i], key);
      }
    }
  }

  lemma DurableRereads(i: Index, v: Value, key: string)
    requires HasKind(v, FIELDS[i].kind) && Durable(i, v)
    ensures NormalValue(i, RereadValue(i, v, key)) == v
    ensures Trim(Format(v), SPACES) == Format(v) && (Blank(Format(v)) ==> FIELDS[i].optional)
  {
    match v
    case S(s) => TrimFixed(s, SPACES);
    case N(n) =>
      AtoiItoa(n);
      TrimFixed(Itoa(n), SPACES);
    case B(b) =>
      BoolNames();
      TrimFixed(Format(v), SPACES);
  }

  lemma StableIsDurable(i: Index, v: Value, key: string)
    requires HasKind(v, FIELDS[i].kind)
    requires NormalValue(i, RereadValue(i, v, key)) == v
    requires !(Blank(Format(v)) && !FIELDS[i].optional) && (Blank(Format(v)) || Format(v) == Trim(Format(v), SPACES))
    ensures Durable(i, v)
  {
    if v.S? {
      TrimTrims(v.s, SPACES);
      if Blank(v.s) {
        OptionalStaysEmpty(i);
        TrimFixed("", SPACES);
        hide NormalText;
      } else {
        hide NormalText, Trimmed, Trim;
      }
    }
  }

  lemma OptionalStaysEmpty(i: Index)
    requires FIELDS[i].optional
    ensures NormalText(i, "") == ""
  {
    assert SplitList("") == [];
  }

  /** What a value must be, before it is normalised, to survive a save: a URL base whose end is still tight
      when its slashes are gone, a list that does not begin or end in white space that separates nothing,
      and no blank text where the program would put a default. */
  predicate Lasts(i: Index, v: Value) {
    v.S? ==>
      if i == URL_BASE then !EndsInSpace(NormalizeUrlBase(v.s))
      else if i == PROXIES || i == HOSTS then Trimmed(NormalizeList(v.s), SPACES)
      else FIELDS[i].optional || i == BIND || !Blank(v.s)
  }

  lemma NormalTrimmed(i: Index, s: string)
    requires i != URL_BASE && i != PROXIES && i != HOSTS
    ensures Trimmed(NormalText(i, s), SPACES)
    ensures NormalText(i, s) == "" <==> Blank(s) && i != BIND
  {
    TrimTrims(s, SPACES);
    assert Trimmed("*", SPACES);
    if i == METHOD {
      MethodTwice(s);
    } else if i == REQUIRED {
      RequiredTwice(s);
    } else if i == LOG_LEVEL {
      LogLevelTwice(s);
    } else if i == BRANCH {
      BranchTwice(s);
    }
    hide Trimmed, Trim;
  }

  lemma UrlBaseTrimmed(s: string)
    ensures Trimmed(NormalizeUrlBase(s), SPACES) <==> !EndsInSpace(NormalizeUrlBase(s))
  {
    hide Trim;
  }

  /** A normalised value is durable exactly when it lasts. */
  lemma DurableExactly(i: Index, v: Value)
    requires HasKind(v, FIELDS[i].kind)
    ensures Durable(i, NormalValue(i, v)) <==> Lasts(i, v)
  {
    NormalTwice(i, v);
    if v.S? {
      if i == URL_BASE {
        UrlBaseTrimmed(v.s);
      } else if i != PROXIES && i != HOSTS {
        NormalTrimmed(i, v.s);
      }
    }
    hide NormalText, Trimmed, Blank, EndsInSpace, NormalizeUrlBase, NormalizeList;
  }

  lemma DurableAll(c: Config)
    ensures (forall i: Index :: Durable(i, Normalize(c)[i])) <==> forall i: Index :: Lasts(i, c[i])
  {
    forall i: Index ensures Durable(i, Normalize(c)[i]) <==> Lasts(i, c[i]) {
      assert HasKind(c[i], FIELDS[i].kind);
      DurableExactly(i, c[i]);
    }
  }

  /** Rendering onto a base: the settings are those asked for, and all else is the base's, whatever document
      the configuration came from. The file reads back as that configuration if and only if it lasts. */
  lemma RenderOntoAdoptsSettingsOnly(base: seq<Child>, c: Config, key: string)
    requires RenderOnto(base, c, key).Some?
    ensures
      var out := RenderOnto(base, c, key).value;
      && Parse(out).Some?
      && KeptRest(out) == KeptRest(base)
      && (forall i: Index :: FirstValue(out, i) == Some(Trim(Format(Normalize(c)[i]), SPACES)))
      && ((forall i: Index :: Lasts(i, c[i])) <==>
            exists nodes :: Decode(Parse(out).value, key) == Some(Decoded(Normalize(c), false, nodes)))
  {
    DecodeCompletes(base, key);
    var nodes := Decode(Parse(base).value, key).value.nodes;
    PrintedKeeps(nodes, Normalize(c));
    DecodeRender(nodes, Normalize(c), key);
    RoundTrip(nodes, Normalize(c), key);
    DurableAll(c);
    hide Decode, Parse, KeptRest, Normalize, Durable, Lasts, FirstValue;
  }

  lemma PrintedKeeps(nodes: seq<Node>, c: Config)
    requires Complete(nodes)
    ensures Parse(Render(nodes, c)).Some? && KeptRest(Render(nodes, c)) == Rest(nodes)
    ensures forall i: Index :: FirstValue(Render(nodes, c), i) == Some(Trim(Format(c[i]), SPACES))
  {
    ParseRender(nodes, c);
    DuplicatesCollapse(Render(nodes, c));
    forall i: Index ensures FirstValue(Render(nodes, c), i) == Some(Trim(Format(c[i]), SPACES)) {
      assert i in Fields(nodes);
    }
  }

  /** The settings RewriteFile normalises: those of the file, or what the caller makes of them. */
  function Rewritten(children: seq<Child>, key: string, change: Option<Config -> Config>): Config
    requires RewriteFile(children, key, change).Some?
  {
    var p := Parse(children).value;
    if change.None? then ReadRow(p, key) else change.value(Decode(p, key).value.c)
  }

  /** The configuration RewriteFile returns is what the returned file holds if and only if each of the
      settings it began with lasts; the rest of the file is kept. */
  lemma RewrittenFileHolds(children: seq<Child>, key: string, change: Option<Config -> Config>)
    ensures
      RewriteFile(children, key, change).Some? ==>
        var (out, c) := RewriteFile(children, key, change).value;
        && Parse(out).Some? && KeptRest(out) == KeptRest(children)
        && c == Normalize(Rewritten(children, key, change))
        && ((forall i: Index :: Lasts(i, Rewritten(children, key, change)[i])) <==>
              exists nodes :: Decode(Parse(out).value, key) == Some(Decoded(c, false, nodes)))
  {
    if RewriteFile(children, key, change).Some? {
      DecodeCompletes(children, key);
      var (out, c) := RewriteFile(children, key, change).value;
      var nodes := Decode(Parse(children).value, key).value.nodes;
      PrintedKeeps(nodes, c);
      DecodeRender(nodes, c, key);
      RoundTrip(nodes, c, key);
      DurableAll(Rewritten(children, key, change));
      hide Decode, Render, Parse, KeptRest, Normalize, Durable, Lasts;
    }
  }

  // ----- A file that is not what its caller is told -----

  /** A config.xml with only a URL base, of two slashes and two spaces. */
  const LOOSE_FILE: seq<Child> := [Element("UrlBase", false, "a / /", "<UrlBase>a / /</UrlBase>")]

  lemma LooseFileReads()
    ensures Parse(LOOSE_FILE) == Some(Parsed([Known(URL_BASE)], map[URL_BASE := "a / /"], false))
  {
    var e := LOOSE_FILE[0];
    assert LOOSE_FILE[..0] == [];
    assert FIELDS[URL_BASE].xml == "UrlBase";
    FieldFromXml(URL_BASE, 0);
    assert FieldOf("UrlBase") == Some(URL_BASE);
    TrimFixed("a / /", SPACES);
    hide FieldOf, Trim;
    assert ReadAll(LOOSE_FILE) == ReadChild(START, e);
    assert START.p.nodes + [Known(URL_BASE)] == [Known(URL_BASE)];
    assert ReadKnown(START.p, URL_BASE, e) == Parsed([Known(URL_BASE)], map[URL_BASE := "a / /"], false);
  }

  lemma LooseFileDecodes(key: string)
    ensures
      var p := Parsed([Known(URL_BASE)], map[URL_BASE := "a / /"], false);
      && (forall i: Index :: DecodeValue(i, RawOf(p, i), key).Some?)
      && ReadRow(p, key)[URL_BASE] == S("a / /")
  {
    TrimFixed("a / /", SPACES);
    TrimFixed("", SPACES);
    hide Trim;
  }

  /** On this file, whatever the key: the caller is told "/a / " for the URL base, and that is not what the
      rewritten file reads as. */
  lemma LooseFileDiffers(key: string)
    ensures
      var r := RewriteFile(LOOSE_FILE, key, None);
      && r.Some? && r.value.1[URL_BASE] == S("/a / ")
      && Parse(r.value.0).Some?
      && !exists nodes :: Decode(Parse(r.value.0).value, key) == Some(Decoded(r.value.1, false, nodes))
  {
    LooseFileReads();
    LooseFileDecodes(key);
    LooseBase();
    var p := Parse(LOOSE_FILE).value;
    assert RewriteFile(LOOSE_FILE, key, None).Some?;
    assert Rewritten(LOOSE_FILE, key, None) == ReadRow(p, key);
    RewrittenFileHolds(LOOSE_FILE, key, None);
    var row := ReadRow(p, key);
    assert Normalize(row)[URL_BASE] == NormalValue(URL_BASE, row[URL_BASE]) == S("/a / ");
    assert !Lasts(URL_BASE, row[URL_BASE]);
  }
}
