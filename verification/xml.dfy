/**
 The part of an already-parsed XML tree that the RSS 1.0 parser reads:
 element name and namespace, attributes keyed by local name and namespace,
 child elements in document order and text content.  No XML text is parsed
 here and no namespace prefixes are resolved.
 */
module Xml {
  import opened Wrappers

  /** A namespace is identified by its URI; prefixes play no part in matching. */
  type Uri = string

  /** An element; `ns == None` is an element without a namespace object. */
  datatype Element = Element(
    name: string,
    ns: Option<Uri>,
    attrs: map<(string, Uri), string>,
    children: seq<Element>,
    text: string)

  datatype Document = Document(root: Element)

  /** `e` is named `name` and lives in the namespace `ns`. */
  predicate Matches(e: Element, name: string, ns: Uri) {
    e.name == name && e.ns == Some(ns)
  }

  /** Index of the first element of `children` named `name` in namespace `ns`. */
  function FirstMatch(children: seq<Element>, name: string, ns: Uri): (r: Option<nat>)
    ensures r.Some? ==> r.value < |children| && Matches(children[r.value], name, ns)
    ensures r.Some? ==> forall j :: 0 <= j < r.value ==> !Matches(children[j], name, ns)
    ensures r.None? <==> forall j :: 0 <= j < |children| ==> !Matches(children[j], name, ns)
    decreases |children|
  {
    if |children| == 0 then None
    else if Matches(children[0], name, ns) then Some(0)
    else
      match FirstMatch(children[1..], name, ns)
      case None => None
      case Some(i) => Some(i + 1)
  }

  /** The first child of `e` named `name` in namespace `ns`, if there is one. */
  function GetChild(e: Element, name: string, ns: Uri): (r: Option<Element>)
    ensures r.Some? <==> exists i :: 0 <= i < |e.children| && Matches(e.children[i], name, ns)
    ensures r.Some? ==> Matches(r.value, name, ns)
    ensures r.Some? ==> exists i :: 0 <= i < |e.children| && e.children[i] == r.value &&
                                    forall j :: 0 <= j < i ==> !Matches(e.children[j], name, ns)
  {
    match FirstMatch(e.children, name, ns)
    case None => None
    case Some(i) => Some(e.children[i])
  }

  /** The value of the attribute `name` in namespace `ns`, if `e` carries one. */
  function GetAttributeValue(e: Element, name: string, ns: Uri): Option<string> {
    if (name, ns) in e.attrs then Some(e.attrs[(name, ns)]) else None
  }
}
