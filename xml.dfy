/**
 * The parsed organisation file as the importer sees it: elements with a tag
 * (namespaced tags are written `{uri}local`), attributes, child elements and
 * the text before the first child, plus the `(event, element)` pairs that an
 * event-driven parse yields. The lookups are lxml's `find`, `findall`,
 * `findtext` and `attrib.get` for the simple child paths the importer uses.
 */
module Xml {
  import opened Wrappers
  import OrderedDict

  /** An element's attributes: a mapping, so no name appears twice. */
  type Attrs = a: seq<(string, string)> | OrderedDict.Distinct(a) witness []

  datatype Element = Element(tag: string, attrs: Attrs, children: seq<Element>, text: Option<string>)

  datatype EventKind = Start | End

  /** One `(event, element)` pair yielded by `iterparse(..., events=("start", "end"))`. */
  datatype ParseEvent = ParseEvent(kind: EventKind, element: Element)

  /** The XML namespace of the organisation reference data. */
  const NAMESPACE: string := "{http://refdata.hscic.gov.uk/org/v2-0-0}"

  /** `e.attrib.get(name)`. */
  function Attr(e: Element, name: string): (r: Option<string>)
    ensures r.Some? <==> name in OrderedDict.Keys(e.attrs)
    ensures r.Some? ==> (name, r.value) in e.attrs
  {
    if name in OrderedDict.Keys(e.attrs) then
      var i := OrderedDict.IndexOf(e.attrs, name);
      Some(e.attrs[i].1)
    else None
  }

  /** `e.attrib.get(name, default)`. */
  function AttrOr(e: Element, name: string, default: string): string
  {
    Attr(e, name).GetOr(default)
  }

  /** Position of the first element of `cs` whose tag is exactly `tag`. */
  function FirstTagged(cs: seq<Element>, tag: string): (r: Option<nat>)
    ensures r.Some? ==> r.value < |cs| && cs[r.value].tag == tag
                        && forall j :: 0 <= j < r.value ==> cs[j].tag != tag
    ensures r.None? ==> forall j :: 0 <= j < |cs| ==> cs[j].tag != tag
  {
    if cs == [] then None
    else if cs[0].tag == tag then Some(0)
    else match FirstTagged(cs[1..], tag)
      case None => None
      case Some(i) => Some(i + 1)
  }

  /** `e.find("./tag")`: the first child whose tag is exactly `tag`. */
  function FindChild(e: Element, tag: string): Option<Element>
  {
    match FirstTagged(e.children, tag)
    case None => None
    case Some(i) => Some(e.children[i])
  }

  /** `e.findall("./tag")`: the children whose tag is exactly `tag`, in document order. */
  function FindAll(e: Element, tag: string): seq<Element>
  {
    Tagged(e.children, tag)
  }

  function Tagged(cs: seq<Element>, tag: string): (r: seq<Element>)
    ensures |r| <= |cs|
    ensures forall c :: c in r <==> c in cs && c.tag == tag
  {
    if cs == [] then []
    else if cs[0].tag == tag then [cs[0]] + Tagged(cs[1..], tag)
    else Tagged(cs[1..], tag)
  }

  /** `e.find("./outer/inner")`: the first `inner` child of any `outer` child, in document order. */
  function FindNested(e: Element, outer: string, inner: string): Option<Element>
  {
    FirstInAny(FindAll(e, outer), inner)
  }

  function FirstInAny(gs: seq<Element>, inner: string): (r: Option<Element>)
    ensures r.Some? ==> r.value.tag == inner
    ensures r.None? <==> forall j :: 0 <= j < |gs| ==> FindChild(gs[j], inner).None?
  {
    if gs == [] then None
    else match FindChild(gs[0], inner)
      case Some(c) => Some(c)
      case None =>
        var r := FirstInAny(gs[1..], inner);
        assert forall j :: 1 <= j < |gs| ==> gs[1..][j - 1] == gs[j];
        r
  }

  /**
   * `e.findtext("tag", default=default)`: the text of the first such child
   * (the empty string when it has none), or `default` when there is no such child.
   */
  function FindText(e: Element, tag: string, default: string): string
  {
    match FindChild(e, tag)
    case None => default
    case Some(c) => c.text.GetOr("")
  }

  /** lxml's `find` and `findtext` agree with the first-match property of the child list. */
  lemma FindChildSpec(e: Element, tag: string)
    ensures FindChild(e, tag).Some? ==>
              exists i :: 0 <= i < |e.children| && e.children[i] == FindChild(e, tag).value
                          && e.children[i].tag == tag
                          && forall j :: 0 <= j < i ==> e.children[j].tag != tag
    ensures FindChild(e, tag).None? <==> forall j :: 0 <= j < |e.children| ==> e.children[j].tag != tag
    ensures FindChild(e, tag).Some? ==> FindText(e, tag, "x") == FindChild(e, tag).value.text.GetOr("")
    ensures FindChild(e, tag).None? ==> forall d :: FindText(e, tag, d) == d
  {
    match FirstTagged(e.children, tag)
    case None =>
    case Some(i) =>
      assert e.children[i] == FindChild(e, tag).value;
  }
}
