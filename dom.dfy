/** The part of xml.dom.minidom the program uses: element and text nodes, and
    toprettyxml with a two-space indent. */
module Dom {

  datatype Node = Element(name: string, children: seq<Node>) | Text(text: string)

  function Concat(parts: seq<string>): string
  {
    if parts == [] then [] else Concat(parts[..|parts| - 1]) + parts[|parts| - 1]
  }

  function Indent(depth: nat): (s: string)
    ensures |s| == 2 * depth && forall i :: 0 <= i < |s| ==> s[i] == ' '
  {
    seq(2 * depth, _ => ' ')
  }

  /** One line of output at nesting level `depth`. */
  function Line(depth: nat, s: string): string
  {
    Indent(depth) + s + "\n"
  }

  function OpenTag(name: string): string
  {
    "<" + name + ">"
  }

  function CloseTag(name: string): string
  {
    "</" + name + ">"
  }

  /** One node at nesting level `depth`: a text on its own line, an element
      with no child as an empty tag, an element whose only child is a text on
      one line, any other element as an opening tag, its children one level
      deeper and a closing tag. */
  function Render(n: Node, depth: nat): string
  {
    match n
    case Text(s) => Line(depth, s)
    case Element(name, cs) =>
      if cs == [] then Line(depth, "<" + name + "/>")
      else if |cs| == 1 && cs[0].Text? then Line(depth, OpenTag(name) + cs[0].text + CloseTag(name))
      else
        Line(depth, OpenTag(name))
        + Concat(seq(|cs|, i requires 0 <= i < |cs| => Render(cs[i], depth + 1)))
        + Line(depth, CloseTag(name))
  }

  /** The children of an element, in document order, one level deeper. */
  function RenderAll(cs: seq<Node>, depth: nat): string
  {
    Concat(seq(|cs|, i requires 0 <= i < |cs| => Render(cs[i], depth)))
  }

  lemma ConcatAppend(parts: seq<string>, last: string)
    ensures Concat(parts + [last]) == Concat(parts) + last
  {
  }

  /** Appending a child appends its rendering after the text of the earlier
      children, which is unchanged. */
  lemma RenderAllAppend(cs: seq<Node>, c: Node, depth: nat)
    ensures RenderAll(cs + [c], depth) == RenderAll(cs, depth) + Render(c, depth)
  {
    var parts := seq(|cs|, i requires 0 <= i < |cs| => Render(cs[i], depth));
    assert seq(|cs + [c]|, i requires 0 <= i < |cs + [c]| => Render((cs + [c])[i], depth)) == parts + [Render(c, depth)];
    ConcatAppend(parts, Render(c, depth));
  }

  lemma RenderAllTwo(cs: seq<Node>, depth: nat)
    requires |cs| == 2
    ensures RenderAll(cs, depth) == Render(cs[0], depth) + Render(cs[1], depth)
  {
    RenderAllAppend([], cs[0], depth);
    RenderAllAppend([cs[0]], cs[1], depth);
    assert [cs[0]] + [cs[1]] == cs;
  }

  lemma RenderAllThree(cs: seq<Node>, depth: nat)
    requires |cs| == 3
    ensures RenderAll(cs, depth) == Render(cs[0], depth) + Render(cs[1], depth) + Render(cs[2], depth)
  {
    RenderAllTwo(cs[..2], depth);
    RenderAllAppend(cs[..2], cs[2], depth);
    assert cs[..2] + [cs[2]] == cs;
  }

  /** An element with at least two children, or with one child element, is written as an opening tag,
      the children in order one level deeper, and a closing tag. */
  lemma RenderBlock(name: string, cs: seq<Node>, depth: nat)
    requires |cs| >= 2 || (|cs| == 1 && cs[0].Element?)
    ensures Render(Element(name, cs), depth)
         == Line(depth, OpenTag(name)) + RenderAll(cs, depth + 1) + Line(depth, CloseTag(name))
  {
  }
}
