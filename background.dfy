/** xmlback/background.py: the playlist document, a `background` root holding
    one `starttime` element and then the static and transition entries in
    the order they were added. */
module BackgroundXml {
  import opened Types
  import opened Decimal
  import opened Dom

  /** Default durations of add_image and add_transition, in seconds. */
  const DefaultImageDuration := 895
  const DefaultTransitionDuration := 5

  /** The keys of TIME_PART. */
  datatype TimeField = Year | Month | Day | Hour | Minute | Second

  const AllFields: seq<TimeField> := [Year, Month, Day, Hour, Minute, Second]

  /** The fields of time.gmtime() that TIME_PART reads. */
  datatype StartTime = StartTime(tmYear: int, tmMon: int, tmMday: int, tmHour: int, tmMin: int, tmSec: int)

  function FieldName(f: TimeField): string
  {
    match f
    case Year => "year"
    case Month => "month"
    case Day => "day"
    case Hour => "hour"
    case Minute => "minute"
    case Second => "second"
  }

  function FieldValue(t: StartTime, f: TimeField): int
  {
    match f
    case Year => t.tmYear
    case Month => t.tmMon
    case Day => t.tmMday
    case Hour => t.tmHour
    case Minute => t.tmMin
    case Second => t.tmSec
  }

  /** An iteration order of the TIME_PART dictionary: each key once, in an
      order the dictionary does not define. */
  predicate IsFieldOrder(order: seq<TimeField>)
  {
    multiset(order) == multiset(AllFields)
  }

  /** A playlist entry, as the document records it. */
  datatype Entry =
    | Static(duration: int, file: string)
    | Transition(duration: int, from: string, to: string)

  /** text_elem(name, text) */
  function TextElem(name: string, text: string): Node
  {
    Element(name, [Text(text)])
  }

  function TimeElem(t: StartTime, f: TimeField): Node
  {
    TextElem(FieldName(f), IntToString(FieldValue(t, f)))
  }

  function StartTimeElem(t: StartTime, order: seq<TimeField>): Node
  {
    Element("starttime", seq(|order|, k requires 0 <= k < |order| => TimeElem(t, order[k])))
  }

  /** The element add_image or add_transition builds for an entry. */
  function EntryElem(e: Entry): Node
  {
    match e
    case Static(d, f) => Element("static", [TextElem("duration", IntToString(d)), TextElem("file", f)])
    case Transition(d, a, b) =>
      Element("transition", [TextElem("duration", IntToString(d)), TextElem("from", a), TextElem("to", b)])
  }

  function EntryNodes(es: seq<Entry>): (ns: seq<Node>)
    ensures |ns| == |es|
  {
    seq(|es|, i requires 0 <= i < |es| => EntryElem(es[i]))
  }

  /** The root element: `background`, its `starttime` child, then one
      element per entry. */
  function Document(start: Node, es: seq<Entry>): Node
  {
    Element("background", [start] + EntryNodes(es))
  }

  predicate IsTextElem(n: Node, name: string)
  {
    n.Element? && n.name == name && |n.children| == 1 && n.children[0].Text?
  }

  /** Reading an entry back from its element. */
  function ParseEntry(n: Node): Option<Entry>
  {
    if n.Element? && n.name == "static" && |n.children| == 2
       && IsTextElem(n.children[0], "duration") && IsTextElem(n.children[1], "file")
       && ParseInt(n.children[0].children[0].text).Some?
    then Some(Static(ParseInt(n.children[0].children[0].text).value, n.children[1].children[0].text))
    else if n.Element? && n.name == "transition" && |n.children| == 3
       && IsTextElem(n.children[0], "duration") && IsTextElem(n.children[1], "from")
       && IsTextElem(n.children[2], "to")
       && ParseInt(n.children[0].children[0].text).Some?
    then Some(Transition(ParseInt(n.children[0].children[0].text).value,
                         n.children[1].children[0].text, n.children[2].children[0].text))
    else None
  }

  function ParseEntries(ns: seq<Node>): Option<seq<Entry>>
  {
    if ns == [] then Some([])
    else
      match (ParseEntries(ns[..|ns| - 1]), ParseEntry(ns[|ns| - 1]))
      case (Some(es), Some(e)) => Some(es + [e])
      case _ => None
  }

  /** The element of an entry holds its duration, file, from and to
      exactly: reading it back gives the entry. */
  lemma EntryRoundTrip(e: Entry)
    ensures ParseEntry(EntryElem(e)) == Some(e)
  {
    IntToStringRoundTrip(e.duration);
  }

  lemma {:induction false} EntriesRoundTrip(es: seq<Entry>)
    ensures ParseEntries(EntryNodes(es)) == Some(es)
    decreases |es|
  {
    if es != [] {
      var init := es[..|es| - 1];
      assert EntryNodes(es)[..|es| - 1] == EntryNodes(init);
      EntriesRoundTrip(init);
      EntryRoundTrip(es[|es| - 1]);
      assert init + [es[|es| - 1]] == es;
    }
  }

  /** The document's root is `background`, its first child the start time,
      and the elements after it are the entries, in order, with their
      values. */
  lemma DocumentRoundTrip(start: Node, es: seq<Entry>)
    ensures Document(start, es).name == "background"
    ensures Document(start, es).children[0] == start
    ensures ParseEntries(Document(start, es).children[1..]) == Some(es)
  {
    assert Document(start, es).children[1..] == EntryNodes(es);
    EntriesRoundTrip(es);
  }

  /** start_time(): one text element per TIME_PART key, in dictionary order. */
  method BuildStartTime(t: StartTime, order: seq<TimeField>) returns (e: Node)
    ensures e == StartTimeElem(t, order)
  {
    var children: seq<Node> := [];
    for i := 0 to |order|
      invariant |children| == i
      invariant forall k :: 0 <= k < i ==> children[k] == TimeElem(t, order[k])
    {
      children := children + [TextElem(FieldName(order[i]), IntToString(FieldValue(t, order[i])))];
    }
    assert children == StartTimeElem(t, order).children;
    e := Element("starttime", children);
  }

  lemma RepeatedCount<T>(s: seq<T>, j: nat, k: nat)
    requires j < k < |s| && s[j] == s[k]
    ensures multiset(s)[s[k]] >= 2
  {
    assert s == s[..k] + s[k..];
    assert s[j] in s[..k];
    assert s[k] in s[k..];
  }

  lemma AllFieldsListed(f: TimeField)
    ensures f in AllFields
  {
  }

  /** A dictionary order lists six keys, every key, and no key twice. */
  lemma FieldOrderFacts(order: seq<TimeField>)
    requires IsFieldOrder(order)
    ensures |order| == 6
    ensures forall f: TimeField :: f in order
    ensures forall j, k :: 0 <= j < k < |order| ==> order[j] != order[k]
  {
    assert |order| == |multiset(order)| == |multiset(AllFields)| == 6;
    forall f: TimeField
      ensures f in order
    {
      AllFieldsListed(f);
      assert f in multiset(order);
    }
    forall j, k | 0 <= j < k < |order|
      ensures order[j] != order[k]
    {
      if order[j] == order[k] {
        RepeatedCount(order, j, k);
        assert false;
      }
    }
  }

  lemma FieldNameInjective(f: TimeField, g: TimeField)
    requires f != g
    ensures FieldName(f) != FieldName(g)
  {
  }

  /** The start time holds each of year, month, day, hour, minute and second
      exactly once, with its value from the clock, in some order. */
  lemma StartTimeFieldsOnce(t: StartTime, order: seq<TimeField>)
    requires IsFieldOrder(order)
    ensures StartTimeElem(t, order).name == "starttime"
    ensures |StartTimeElem(t, order).children| == 6
    ensures forall f: TimeField :: TimeElem(t, f) in StartTimeElem(t, order).children
    ensures forall j, k :: 0 <= j < k < 6 ==>
              StartTimeElem(t, order).children[j].name != StartTimeElem(t, order).children[k].name
  {
    FieldOrderFacts(order);
    var cs := StartTimeElem(t, order).children;
    forall f: TimeField
      ensures TimeElem(t, f) in cs
    {
      var k :| 0 <= k < |order| && order[k] == f;
      assert cs[k] == TimeElem(t, f);
    }
    forall j, k | 0 <= j < k < 6
      ensures cs[j].name != cs[k].name
    {
      FieldNameInjective(order[j], order[k]);
    }
  }

  /** The root is written as its opening tag, its children in document
      order one level deeper, and its closing tag. */
  lemma DocumentRender(start: Node, es: seq<Entry>)
    requires start.Element?
    ensures Render(Document(start, es), 0)
         == Line(0, OpenTag("background")) + RenderAll(Document(start, es).children, 1) + Line(0, CloseTag("background"))
  {
  }

  /** Appending an entry appends its element's text just before the closing
      tag of the root; the text of everything before it is unchanged. */
  lemma DocumentRenderAppend(start: Node, es: seq<Entry>, e: Entry)
    requires start.Element?
    ensures Render(Document(start, es + [e]), 0)
         == Line(0, OpenTag("background")) + RenderAll(Document(start, es).children, 1) + Render(EntryElem(e), 1)
            + Line(0, CloseTag("background"))
  {
    var cs := Document(start, es).children;
    assert EntryNodes(es + [e]) == EntryNodes(es) + [EntryElem(e)];
    assert Document(start, es + [e]).children == cs + [EntryElem(e)];
    RenderAllAppend(cs, EntryElem(e), 1);
    RenderBlock("background", cs + [EntryElem(e)], 0);
  }

  function Leaf(depth: nat, name: string, text: string): string
  {
    Line(depth, OpenTag(name) + text + CloseTag(name))
  }

  lemma LeafRender(name: string, text: string, depth: nat)
    ensures Render(TextElem(name, text), depth) == Leaf(depth, name, text)
  {
  }

  /** A static entry is written as its tag, its duration and its file each on
      a line of their own one level deeper, in that order, and its closing
      tag. */
  lemma StaticRender(duration: int, file: string, depth: nat)
    ensures Render(EntryElem(Static(duration, file)), depth)
         == Line(depth, OpenTag("static"))
            + Leaf(depth + 1, "duration", IntToString(duration))
            + Leaf(depth + 1, "file", file)
            + Line(depth, CloseTag("static"))
  {
    var cs := EntryElem(Static(duration, file)).children;
    RenderBlock("static", cs, depth);
    RenderAllTwo(cs, depth + 1);
    LeafRender("duration", IntToString(duration), depth + 1);
    LeafRender("file", file, depth + 1);
  }

  /** A transition entry is written as its tag, its duration, from and to
      each on a line of their own one level deeper, in that order, and its
      closing tag. */
  lemma TransitionRender(duration: int, from: string, to: string, depth: nat)
    ensures Render(EntryElem(Transition(duration, from, to)), depth)
         == Line(depth, OpenTag("transition"))
            + Leaf(depth + 1, "duration", IntToString(duration))
            + Leaf(depth + 1, "from", from)
            + Leaf(depth + 1, "to", to)
            + Line(depth, CloseTag("transition"))
  {
    var cs := EntryElem(Transition(duration, from, to)).children;
    RenderBlock("transition", cs, depth);
    RenderAllThree(cs, depth + 1);
    LeafRender("duration", IntToString(duration), depth + 1);
    LeafRender("from", from, depth + 1);
    LeafRender("to", to, depth + 1);
  }

  /** The text of one entry at the first nesting level: its tag, its leaves
      one level deeper in order, its closing tag. */
  function EntryText(e: Entry): string
  {
    match e
    case Static(d, f) =>
      Line(1, OpenTag("static")) + Leaf(2, "duration", IntToString(d)) + Leaf(2, "file", f)
      + Line(1, CloseTag("static"))
    case Transition(d, a, b) =>
      Line(1, OpenTag("transition")) + Leaf(2, "duration", IntToString(d)) + Leaf(2, "from", a)
      + Leaf(2, "to", b) + Line(1, CloseTag("transition"))
  }

  /** The texts of the entries, one after the other, in call order. */
  function EntriesText(es: seq<Entry>): string
  {
    if es == [] then [] else EntriesText(es[..|es| - 1]) + EntryText(es[|es| - 1])
  }

  lemma EntryTextRender(e: Entry)
    ensures Render(EntryElem(e), 1) == EntryText(e)
  {
    match e
    case Static(d, f) => StaticRender(d, f, 1);
    case Transition(d, a, b) => TransitionRender(d, a, b, 1);
  }

  /** Appending an entry appends its text after the unchanged text of the
      earlier children. */
  lemma ChildrenRenderAppend(start: Node, es: seq<Entry>, e: Entry)
    ensures RenderAll(Document(start, es + [e]).children, 1)
         == RenderAll(Document(start, es).children, 1) + EntryText(e)
  {
    var before := Document(start, es).children;
    assert EntryNodes(es + [e]) == EntryNodes(es) + [EntryElem(e)];
    assert Document(start, es + [e]).children == before + [EntryElem(e)];
    RenderAllAppend(before, EntryElem(e), 1);
    EntryTextRender(e);
  }

  lemma AppendAfter(whole: string, prefix: string, head: string, done: string, next: string)
    requires prefix == head + done && whole == prefix + next
    ensures whole == head + (done + next)
  {
  }

  lemma {:induction false} ChildrenText(start: Node, es: seq<Entry>)
    ensures RenderAll(Document(start, es).children, 1) == Render(start, 1) + EntriesText(es)
    decreases |es|
  {
    if es == [] {
      assert Document(start, es).children == [] + [start];
      RenderAllAppend([], start, 1);
    } else {
      var init, e := es[..|es| - 1], es[|es| - 1];
      assert init + [e] == es;
      ChildrenText(start, init);
      ChildrenRenderAppend(start, init, e);
      AppendAfter(RenderAll(Document(start, es).children, 1), RenderAll(Document(start, init).children, 1),
                  Render(start, 1), EntriesText(init), EntryText(e));
    }
  }

  /** The whole text toxml returns: `<background>`, the start time one level
      deeper, then each entry's static or transition block in call order,
      then `</background>`. */
  lemma DocumentText(start: Node, es: seq<Entry>)
    requires start.Element?
    ensures Render(Document(start, es), 0)
         == Line(0, OpenTag("background")) + Render(start, 1) + EntriesText(es) + Line(0, CloseTag("background"))
  {
    DocumentRender(start, es);
    ChildrenText(start, es);
  }

  /** Background: the minidom document under construction. */
  class Background {
    /** The `starttime` element, built once by the constructor. */
    const start: Node
    /** The children of the root after `starttime`, in the order added. */
    var entries: seq<Entry>

    function Root(): Node
      reads this
    {
      Document(start, entries)
    }

    /** __init__: the root `background` with the start time as its only child. */
    constructor(t: StartTime, order: seq<TimeField>)
      requires IsFieldOrder(order)
      ensures start == StartTimeElem(t, order) && entries == []
      ensures Root() == Element("background", [StartTimeElem(t, order)])
    {
      var s := BuildStartTime(t, order);
      start := s;
      entries := [];
    }

    /** add_image(filename, duration) */
    method AddImage(filename: string, duration: int := DefaultImageDuration)
      modifies this
      ensures entries == old(entries) + [Static(duration, filename)]
      ensures Root().children == old(Root().children)
                                 + [Element("static", [TextElem("duration", IntToString(duration)), TextElem("file", filename)])]
    {
      entries := entries + [Static(duration, filename)];
      assert EntryNodes(entries) == EntryNodes(old(entries)) + [EntryElem(Static(duration, filename))];
    }

    /** add_transition(fromfile, tofile, duration): the assertion fails, and
        nothing is appended, when both files are the same. */
    method AddTransition(fromfile: string, tofile: string, duration: int := DefaultTransitionDuration)
      returns (o: Outcome)
      modifies this
      ensures fromfile == tofile ==> o == Fail(SelfTransition) && entries == old(entries)
      ensures fromfile != tofile ==> o == Pass && entries == old(entries) + [Transition(duration, fromfile, tofile)]
      ensures fromfile != tofile ==>
                Root().children == old(Root().children)
                                   + [Element("transition", [TextElem("duration", IntToString(duration)),
                                                             TextElem("from", fromfile), TextElem("to", tofile)])]
    {
      if fromfile == tofile {
        return Fail(SelfTransition);
      }
      entries := entries + [Transition(duration, fromfile, tofile)];
      assert EntryNodes(entries) == EntryNodes(old(entries)) + [EntryElem(Transition(duration, fromfile, tofile))];
      o := Pass;
    }

    /** toxml() */
    function ToXml(): string
      reads this
    {
      Render(Root(), 0)
    }
  }
}
