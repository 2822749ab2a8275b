/**
  The parsed XML document the URDF parser walks: an element tree with
  attributes and text, plus the lookups the parser uses on it (first child by
  name, next sibling by name, string, scalar and vector attributes, numeric
  text), and the resolution of the URIs the document names.

  Turning attribute text into numbers is done by helpers outside this model;
  a Value therefore carries, beside its raw text, the numbers those helpers
  read from it (None when the text is not a list of numbers).
 */
module UrdfXml {
  import opened UrdfResult

  datatype Value = Value(text: string, numbers: Option<seq<real>>)

  datatype Element = Element(
    name: string,
    attributes: map<string, Value>,
    children: seq<Element>,
    text: Value)

  /** Index of the first element of `elements` at or after `from` whose name is
      `name`, or |elements| when there is none (NextSiblingElement). */
  function FirstIndexOf(elements: seq<Element>, name: string, from: nat): (k: nat)
    requires from <= |elements|
    ensures from <= k <= |elements|
    ensures k < |elements| ==> elements[k].name == name
    ensures forall i :: from <= i < k ==> elements[i].name != name
    decreases |elements| - from
  {
    if from == |elements| then from
    else if elements[from].name == name then from
    else FirstIndexOf(elements, name, from + 1)
  }

  /** The first child of `e` named `name` (FirstChildElement). */
  function FirstChild(e: Element, name: string): (c: Option<Element>)
    ensures c.None? <==> forall i :: 0 <= i < |e.children| ==> e.children[i].name != name
    ensures c.Some? ==> exists k :: 0 <= k < |e.children| && e.children[k] == c.value &&
                          c.value.name == name &&
                          forall i :: 0 <= i < k ==> e.children[i].name != name
  {
    var k := FirstIndexOf(e.children, name, 0);
    if k < |e.children| then Some(e.children[k]) else None
  }

  predicate HasChild(e: Element, name: string) {
    FirstChild(e, name).Some?
  }

  /** ParseStringAttribute: the attribute's text when it is present. */
  function StringAttribute(e: Element, name: string): (s: Option<string>)
    ensures s.Some? <==> name in e.attributes
    ensures s.Some? ==> s.value == e.attributes[name].text
  {
    if name in e.attributes then Some(e.attributes[name].text) else None
  }

  /** Whether attribute `name` of `e` is present and reads as `n` numbers. */
  predicate ReadsAs(e: Element, name: string, n: nat) {
    name in e.attributes && e.attributes[name].numbers.Some? && |e.attributes[name].numbers.value| == n
  }

  /** ParseVectorAttribute for a vector of `n` numbers: Ok(None) when the
      attribute is absent, an error when it does not read as `n` numbers. */
  function VectorAttribute(e: Element, name: string, n: nat): (r: Result<Option<seq<real>>>)
    ensures r == Ok(None) <==> name !in e.attributes
    ensures r.Ok? && r.value.Some? ==>
              name in e.attributes && e.attributes[name].numbers == r.value && |r.value.value| == n
    ensures r.Err? ==> r.error == MalformedAttribute(name)
  {
    if name !in e.attributes then Ok(None)
    else
      var numbers := e.attributes[name].numbers;
      if numbers.Some? && |numbers.value| == n then Ok(numbers) else Err(MalformedAttribute(name))
  }

  /** ParseScalarAttribute: Ok(None) when absent, an error when the attribute
      does not read as exactly one number. */
  function ScalarAttribute(e: Element, name: string): (r: Result<Option<real>>)
    ensures r == Ok(None) <==> name !in e.attributes
    ensures r.Ok? && r.value.Some? ==>
              name in e.attributes && e.attributes[name].numbers == Some([r.value.value])
    ensures r.Err? ==> r.error == MalformedAttribute(name)
  {
    match VectorAttribute(e, name, 1)
    case Err(error) => Err(error)
    case Ok(None) => Ok(None)
    case Ok(Some(v)) => assert v == [v[0]]; Ok(Some(v[0]))
  }

  /** QueryDoubleText: the element's text read as one number, if it is one. */
  function TextAsReal(e: Element): (x: Option<real>)
    ensures x.Some? <==> e.text.numbers.Some? && |e.text.numbers.value| == 1
    ensures x.Some? ==> e.text.numbers == Some([x.value])
  {
    var numbers := e.text.numbers;
    if numbers.Some? && |numbers.value| == 1 then
      assert numbers.value == [numbers.value[0]];
      Some(numbers.value[0])
    else None
  }

  // ---------------------------------------------------------------------------
  // URIs named in the document

  /** Resolved file names for the URIs of a document (ResolveUri, which is
      not part of this model, against the package map and root directory). A
      URI it cannot resolve is absent or maps to the empty string. */
  type UriTable = map<string, string>

  function ResolveUri(uri: string, table: UriTable): (r: Result<string>)
    ensures r.Ok? <==> uri in table && table[uri] != ""
    ensures r.Ok? ==> r.value == table[uri] && r.value != ""
    ensures r.Err? ==> r.error == UnresolvedUri(uri)
  {
    if uri in table && table[uri] != "" then Ok(table[uri]) else Err(UnresolvedUri(uri))
  }
}
