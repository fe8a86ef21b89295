/**
 * An OAI-PMH response document after parsing, and the XPath selections
 * the client evaluates on it. Only what the client reads is kept: the
 * children of the root `OAI-PMH` element in document order, which are
 * `error` elements or verb containers (`ListRecords`, `GetRecord`, ...).
 * `N` is the type of a `metadata` element, handed unread to the
 * metadata registry.
 */
module Document {
  import opened Wrappers

  /** A `header` element: the string values of its `identifier` and
      `datestamp` children, the text nodes of its `setSpec` children in
      document order, and its `status` attribute. */
  datatype HeaderNode = HeaderNode(
    identifier: string,
    datestamp: string,
    setSpecTexts: seq<string>,
    status: Option<string>)

  /** A `record` element: its `header` children and its `metadata` children. */
  datatype RecordNode<N> = RecordNode(headers: seq<HeaderNode>, metadata: seq<N>)

  /** A `set` element: the string values of its `setSpec` and `setName` children. */
  datatype SetNode = SetNode(setSpec: string, setName: string)

  /** A `metadataFormat` element: the string values of its three children. */
  datatype FormatNode = FormatNode(metadataPrefix: string, schema: string, metadataNamespace: string)

  /** A child of a verb container. A `resumptionToken` keeps its text nodes. */
  datatype Node<N> =
    | HeaderChild(header: HeaderNode)
    | RecordChild(record: RecordNode<N>)
    | SetChild(setNode: SetNode)
    | FormatChild(format: FormatNode)
    | TokenChild(texts: seq<string>)
    | OtherChild

  /** A child of the root: an `error` element with its `code` attribute and
      its text, or a verb container with the container's name. */
  datatype Element<N> =
    | ErrorElement(code: Option<string>, text: Option<string>)
    | Container(name: string, children: seq<Node<N>>)

  datatype Tree<N> = Tree(elements: seq<Element<N>>)

  /** `/oai:OAI-PMH/oai:error`: the error elements, in document order. */
  function Errors<N>(es: seq<Element<N>>): (r: seq<Element<N>>)
    ensures forall i :: 0 <= i < |r| ==> r[i].ErrorElement? && r[i] in es
    ensures forall i :: 0 <= i < |es| && es[i].ErrorElement? ==> es[i] in r
    ensures r == [] <==> forall i :: 0 <= i < |es| ==> es[i].Container?
    ensures r != [] ==> exists k :: 0 <= k < |es| && es[k] == r[0] && forall j :: 0 <= j < k ==> es[j].Container?
  {
    if es == [] then []
    else if es[0].ErrorElement? then [es[0]] + Errors(es[1..])
    else Errors(es[1..])
  }

  /** True when a container of this name is selected; `None` stands for the `*` step. */
  predicate Selects(step: Option<string>, name: string) {
    step.None? || step.value == name
  }

  /** `/oai:OAI-PMH/<step>/node()`: the children of every selected container, in document order. */
  function ChildrenOf<N>(es: seq<Element<N>>, step: Option<string>): seq<Node<N>> {
    if es == [] then []
    else if es[0].Container? && Selects(step, es[0].name) then es[0].children + ChildrenOf(es[1..], step)
    else ChildrenOf(es[1..], step)
  }

  function Records<N>(ns: seq<Node<N>>): seq<RecordNode<N>> {
    if ns == [] then [] else (if ns[0].RecordChild? then [ns[0].record] else []) + Records(ns[1..])
  }

  function Headers<N>(ns: seq<Node<N>>): seq<HeaderNode> {
    if ns == [] then [] else (if ns[0].HeaderChild? then [ns[0].header] else []) + Headers(ns[1..])
  }

  function Sets<N>(ns: seq<Node<N>>): seq<SetNode> {
    if ns == [] then [] else (if ns[0].SetChild? then [ns[0].setNode] else []) + Sets(ns[1..])
  }

  function Formats<N>(ns: seq<Node<N>>): seq<FormatNode> {
    if ns == [] then [] else (if ns[0].FormatChild? then [ns[0].format] else []) + Formats(ns[1..])
  }

  /** The text nodes of every `resumptionToken` among `ns`, in document order. */
  function TokenTexts<N>(ns: seq<Node<N>>): seq<string> {
    if ns == [] then [] else (if ns[0].TokenChild? then ns[0].texts else []) + TokenTexts(ns[1..])
  }

  /** XPath `string()` of a node-set of text nodes: the first one, or the empty string. */
  function StringValue(texts: seq<string>): string {
    if texts == [] then "" else texts[0]
  }

  /** `string(/oai:OAI-PMH/<step>/oai:resumptionToken/text())`. */
  function RawToken<N>(t: Tree<N>, step: Option<string>): string {
    StringValue(TokenTexts(ChildrenOf(t.elements, step)))
  }
}
