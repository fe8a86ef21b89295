/**
 * The response mappers of the client: `buildHeader`, `buildRecords`,
 * `buildIdentifiers`, `buildSets`, `ListMetadataFormats_impl` and
 * `GetRecord_impl`. Each turns the nodes an XPath query selects into
 * domain values, one per node in document order, and the list mappers
 * also read the resumption token of the page.
 *
 * `decode` stands for `common.datestamp_to_datetime` (`None` when it
 * raises), `read` for `metadata_registry.readMetadata`.
 */
module ResponseMapper {
  import opened Wrappers
  import opened PyText
  import opened Document
  import opened Pagination

  datatype Header<D> = Header(identifier: string, datestamp: D, setSpec: seq<string>, deleted: bool)

  /** The tuple `(header, metadata, about)`; `about` is never read. */
  datatype Record<D, P> = Record(header: Header<D>, metadata: Option<P>, about: Option<P>)

  /** The tuple `(setSpec, setName, setDescription)`; the description is never read. */
  datatype SetDescriptor = SetDescriptor(setSpec: string, setName: string, setDescription: Option<string>)

  /** The triple `(metadataPrefix, schema, metadataNamespace)`. */
  datatype MetadataFormat = MetadataFormat(metadataPrefix: string, schema: string, metadataNamespace: string)

  /** The exceptions a mapper raises. */
  datatype MapError =
    | NonAsciiText(text: string)       // UnicodeEncodeError from `str()`
    | BadDatestamp(text: string)       // DatestampError from the datestamp decoder
    | HeaderMissing                    // IndexError from `e('oai:header')[0]`
    | TokenNotExpected(token: string)  // AssertionError from `assert token is None`
    | RecordMissing                    // IndexError from `records[0]`

  /** `None` when `raw.strip() == ''`, otherwise the raw token, unstripped. */
  function NormalizeToken(raw: string): (t: Option<string>)
    ensures t.None? <==> forall i :: 0 <= i < |raw| ==> IsStripSpace(raw[i], !IsAscii(raw))
    ensures t.Some? ==> t.value == raw
  {
    BlankIffAllSpace(raw);
    if Strip(raw) == "" then None else Some(raw)
  }

  /** `[str(s) for s in texts]`: fails on the first text that is not ASCII. */
  function ToByteStrings(texts: seq<string>): (r: Result<seq<string>, MapError>)
    ensures r.Ok? <==> forall i :: 0 <= i < |texts| ==> IsAscii(texts[i])
    ensures r.Ok? ==> r.value == texts
    ensures r.Err? ==> exists k :: 0 <= k < |texts| && !IsAscii(texts[k]) && r.error == NonAsciiText(texts[k])
                          && forall j :: 0 <= j < k ==> IsAscii(texts[j])
  {
    if texts == [] then Ok([])
    else match ToByteString(texts[0])
      case None => Err(NonAsciiText(texts[0]))
      case Some(first) =>
        match ToByteStrings(texts[1..])
        case Err(e) => Err(e)
        case Ok(rest) => Ok([first] + rest)
  }

  /** `buildHeader`: identifier, decoded datestamp, setSpecs in document
      order, and `deleted` when the status attribute is `deleted`. */
  function BuildHeader<D>(node: HeaderNode, decode: string -> Option<D>): (r: Result<Header<D>, MapError>)
    ensures r.Ok? <==> IsAscii(node.identifier) && IsAscii(node.datestamp) && decode(node.datestamp).Some?
                       && forall i :: 0 <= i < |node.setSpecTexts| ==> IsAscii(node.setSpecTexts[i])
    ensures r.Ok? ==> r.value.identifier == node.identifier && decode(node.datestamp) == Some(r.value.datestamp)
                      && r.value.setSpec == node.setSpecTexts
    ensures r.Ok? ==> (r.value.deleted <==> node.status == Some("deleted"))
    ensures !IsAscii(node.identifier) ==> r == Err(NonAsciiText(node.identifier))
    ensures IsAscii(node.identifier) && !IsAscii(node.datestamp) ==> r == Err(NonAsciiText(node.datestamp))
    ensures IsAscii(node.identifier) && IsAscii(node.datestamp) && decode(node.datestamp).None? ==>
              r == Err(BadDatestamp(node.datestamp))
    ensures IsAscii(node.identifier) && IsAscii(node.datestamp) && decode(node.datestamp).Some? ==>
              forall k :: 0 <= k < |node.setSpecTexts| && !IsAscii(node.setSpecTexts[k])
                          && (forall j :: 0 <= j < k ==> IsAscii(node.setSpecTexts[j])) ==>
                r == Err(NonAsciiText(node.setSpecTexts[k]))
  {
    match ToByteString(node.identifier)
    case None => Err(NonAsciiText(node.identifier))
    case Some(identifier) =>
      match ToByteString(node.datestamp)
      case None => Err(NonAsciiText(node.datestamp))
      case Some(text) =>
        match decode(text)
        case None => Err(BadDatestamp(text))
        case Some(datestamp) =>
          match ToByteStrings(node.setSpecTexts)
          case Err(e) => Err(e)
          case Ok(setSpec) => Ok(Header(identifier, datestamp, setSpec, node.status == Some("deleted")))
  }

  /** The body of the loop in `buildRecords` for one `record` node: its
      first `header` child, and its first `metadata` child read through
      the registry, if there is one. */
  function BuildRecord<N, D, P>(prefix: string, node: RecordNode<N>, read: (string, N) -> P,
                                decode: string -> Option<D>): (r: Result<Record<D, P>, MapError>)
    ensures node.headers == [] ==> r == Err(HeaderMissing)
    ensures node.headers != [] ==> (r.Ok? <==> BuildHeader(node.headers[0], decode).Ok?)
    ensures node.headers != [] && BuildHeader(node.headers[0], decode).Err? ==>
              r == Err(BuildHeader(node.headers[0], decode).error)
    ensures r.Ok? ==> Ok(r.value.header) == BuildHeader(node.headers[0], decode)
    ensures r.Ok? ==> (r.value.metadata.None? <==> node.metadata == [])
    ensures r.Ok? && node.metadata != [] ==> r.value.metadata == Some(read(prefix, node.metadata[0]))
    ensures r.Ok? ==> r.value.about.None?
  {
    if node.headers == [] then Err(HeaderMissing)
    else match BuildHeader(node.headers[0], decode)
      case Err(e) => Err(e)
      case Ok(header) =>
        var metadata := if node.metadata != [] then Some(read(prefix, node.metadata[0])) else None;
        Ok(Record(header, metadata, None))
  }

  /** The `record` nodes `buildRecords` visits: under any child of the root. */
  function RecordNodes<N>(tree: Tree<N>): seq<RecordNode<N>> {
    Records(ChildrenOf(tree.elements, None))
  }

  /** The loop of `buildRecords`: one record per node, in order, or the
      exception of the first node that fails. */
  method MapRecords<N, D, P>(prefix: string, read: (string, N) -> P, decode: string -> Option<D>,
                             nodes: seq<RecordNode<N>>)
    returns (r: Result<seq<Record<D, P>>, MapError>)
    ensures r.Ok? ==> |r.value| == |nodes|
    ensures r.Ok? ==> forall i :: 0 <= i < |nodes| ==> BuildRecord(prefix, nodes[i], read, decode) == Ok(r.value[i])
    ensures r.Err? ==> exists k :: 0 <= k < |nodes| && BuildRecord(prefix, nodes[k], read, decode) == Err(r.error)
                          && forall j :: 0 <= j < k ==> BuildRecord(prefix, nodes[j], read, decode).Ok?
  {
    var result: seq<Record<D, P>> := [];
    var i := 0;
    while i < |nodes|
      invariant 0 <= i <= |nodes| && |result| == i
      invariant forall j :: 0 <= j < i ==> BuildRecord(prefix, nodes[j], read, decode) == Ok(result[j])
    {
      var record := BuildRecord(prefix, nodes[i], read, decode);
      if record.Err? {
        return Err(record.error);
      }
      result := result + [record.value];
      i := i + 1;
    }
    r := Ok(result);
  }

  /** `buildRecords`: one record per `record` node, in document order, or
      the exception of the first node that fails; the token is read from
      any child of the root. */
  method BuildRecords<N, D, P>(prefix: string, read: (string, N) -> P, decode: string -> Option<D>, tree: Tree<N>)
    returns (r: Result<Batch<Record<D, P>>, MapError>)
    ensures r.Ok? ==> r.value.token == NormalizeToken(RawToken(tree, None))
    ensures r.Ok? ==> |r.value.items| == |RecordNodes(tree)|
    ensures r.Ok? ==> forall i :: 0 <= i < |RecordNodes(tree)| ==>
                        BuildRecord(prefix, RecordNodes(tree)[i], read, decode) == Ok(r.value.items[i])
    ensures r.Err? ==> exists k :: 0 <= k < |RecordNodes(tree)|
                          && BuildRecord(prefix, RecordNodes(tree)[k], read, decode) == Err(r.error)
                          && forall j :: 0 <= j < k ==> BuildRecord(prefix, RecordNodes(tree)[j], read, decode).Ok?
  {
    var token := NormalizeToken(RawToken(tree, None));
    var records := MapRecords(prefix, read, decode, RecordNodes(tree));
    if records.Err? {
      return Err(records.error);
    }
    r := Ok(Batch(records.value, token));
  }

  /** The `header` nodes `buildIdentifiers` visits. */
  function IdentifierNodes<N>(tree: Tree<N>): seq<HeaderNode> {
    Headers(ChildrenOf(tree.elements, Some("ListIdentifiers")))
  }

  /** The loop of `buildIdentifiers`: one header per node, in order, or
      the exception of the first node that fails. */
  method MapHeaders<D>(decode: string -> Option<D>, nodes: seq<HeaderNode>)
    returns (r: Result<seq<Header<D>>, MapError>)
    ensures r.Ok? ==> |r.value| == |nodes|
    ensures r.Ok? ==> forall i :: 0 <= i < |nodes| ==> BuildHeader(nodes[i], decode) == Ok(r.value[i])
    ensures r.Err? ==> exists k :: 0 <= k < |nodes| && BuildHeader(nodes[k], decode) == Err(r.error)
                          && forall j :: 0 <= j < k ==> BuildHeader(nodes[j], decode).Ok?
  {
    var result: seq<Header<D>> := [];
    var i := 0;
    while i < |nodes|
      invariant 0 <= i <= |nodes| && |result| == i
      invariant forall j :: 0 <= j < i ==> BuildHeader(nodes[j], decode) == Ok(result[j])
    {
      var header := BuildHeader(nodes[i], decode);
      if header.Err? {
        return Err(header.error);
      }
      result := result + [header.value];
      i := i + 1;
    }
    r := Ok(result);
  }

  /** `buildIdentifiers`: one header per `header` node under `ListIdentifiers`,
      in document order, or the exception of the first node that fails. */
  method BuildIdentifiers<N, D>(decode: string -> Option<D>, tree: Tree<N>)
    returns (r: Result<Batch<Header<D>>, MapError>)
    ensures r.Ok? ==> r.value.token == NormalizeToken(RawToken(tree, Some("ListIdentifiers")))
    ensures r.Ok? ==> |r.value.items| == |IdentifierNodes(tree)|
    ensures r.Ok? ==> forall i :: 0 <= i < |IdentifierNodes(tree)| ==>
                        BuildHeader(IdentifierNodes(tree)[i], decode) == Ok(r.value.items[i])
    ensures r.Err? ==> exists k :: 0 <= k < |IdentifierNodes(tree)|
                          && BuildHeader(IdentifierNodes(tree)[k], decode) == Err(r.error)
                          && forall j :: 0 <= j < k ==> BuildHeader(IdentifierNodes(tree)[j], decode).Ok?
  {
    var token := NormalizeToken(RawToken(tree, Some("ListIdentifiers")));
    var headers := MapHeaders(decode, IdentifierNodes(tree));
    if headers.Err? {
      return Err(headers.error);
    }
    r := Ok(Batch(headers.value, token));
  }

  /** The `set` nodes `buildSets` visits. */
  function SetNodes<N>(tree: Tree<N>): seq<SetNode> {
    Sets(ChildrenOf(tree.elements, Some("ListSets")))
  }

  /** The loop of `buildSets`: one `(setSpec, setName, None)` per node, in order. */
  method MapSets(nodes: seq<SetNode>) returns (sets: seq<SetDescriptor>)
    ensures |sets| == |nodes|
    ensures forall i :: 0 <= i < |sets| ==> sets[i] == SetDescriptor(nodes[i].setSpec, nodes[i].setName, None)
  {
    sets := [];
    var i := 0;
    while i < |nodes|
      invariant 0 <= i <= |nodes| && |sets| == i
      invariant forall j :: 0 <= j < i ==> sets[j] == SetDescriptor(nodes[j].setSpec, nodes[j].setName, None)
    {
      sets := sets + [SetDescriptor(nodes[i].setSpec, nodes[i].setName, None)];
      i := i + 1;
    }
  }

  /** `buildSets`: one `(setSpec, setName, None)` per `set` node under
      `ListSets`, in document order. */
  method BuildSets<N>(tree: Tree<N>) returns (b: Batch<SetDescriptor>)
    ensures b.token == NormalizeToken(RawToken(tree, Some("ListSets")))
    ensures |b.items| == |SetNodes(tree)|
    ensures forall i :: 0 <= i < |b.items| ==>
              b.items[i] == SetDescriptor(SetNodes(tree)[i].setSpec, SetNodes(tree)[i].setName, None)
  {
    var token := NormalizeToken(RawToken(tree, Some("ListSets")));
    var sets := MapSets(SetNodes(tree));
    b := Batch(sets, token);
  }

  /** The `metadataFormat` nodes `ListMetadataFormats_impl` visits. */
  function FormatNodes<N>(tree: Tree<N>): seq<FormatNode> {
    Formats(ChildrenOf(tree.elements, Some("ListMetadataFormats")))
  }

  /** `ListMetadataFormats_impl`: one triple per `metadataFormat` node, in
      document order; no resumption token is read. */
  method ListMetadataFormats<N>(tree: Tree<N>) returns (formats: seq<MetadataFormat>)
    ensures |formats| == |FormatNodes(tree)|
    ensures forall i :: 0 <= i < |formats| ==>
              var node := FormatNodes(tree)[i];
              formats[i] == MetadataFormat(node.metadataPrefix, node.schema, node.metadataNamespace)
  {
    var nodes := FormatNodes(tree);
    formats := [];
    var i := 0;
    while i < |nodes|
      invariant 0 <= i <= |nodes| && |formats| == i
      invariant forall j :: 0 <= j < i ==>
                  formats[j] == MetadataFormat(nodes[j].metadataPrefix, nodes[j].schema, nodes[j].metadataNamespace)
    {
      formats := formats + [MetadataFormat(nodes[i].metadataPrefix, nodes[i].schema, nodes[i].metadataNamespace)];
      i := i + 1;
    }
  }

  /** True when every `record` node of the tree maps without an exception. */
  predicate AllRecordsBuild<N, D, P>(prefix: string, read: (string, N) -> P, decode: string -> Option<D>, tree: Tree<N>) {
    forall i :: 0 <= i < |RecordNodes(tree)| ==> BuildRecord(prefix, RecordNodes(tree)[i], read, decode).Ok?
  }

  /** `GetRecord_impl`: `buildRecords`, then `assert token is None`, then `records[0]`. */
  method GetRecord<N, D, P>(prefix: string, read: (string, N) -> P, decode: string -> Option<D>, tree: Tree<N>)
    returns (r: Result<Record<D, P>, MapError>)
    ensures AllRecordsBuild(prefix, read, decode, tree) && NormalizeToken(RawToken(tree, None)).Some? ==>
              r == Err(TokenNotExpected(RawToken(tree, None)))
    ensures AllRecordsBuild(prefix, read, decode, tree) && NormalizeToken(RawToken(tree, None)).None? ==>
              if RecordNodes(tree) == [] then r == Err(RecordMissing)
              else r == BuildRecord(prefix, RecordNodes(tree)[0], read, decode)
    ensures !AllRecordsBuild(prefix, read, decode, tree) ==>
              r.Err? && exists k :: 0 <= k < |RecordNodes(tree)|
                          && BuildRecord(prefix, RecordNodes(tree)[k], read, decode) == Err(r.error)
                          && forall j :: 0 <= j < k ==> BuildRecord(prefix, RecordNodes(tree)[j], read, decode).Ok?
  {
    var built := BuildRecords(prefix, read, decode, tree);
    if built.Err? {
      return Err(built.error);
    }
    var Batch(records, token) := built.value;
    if token.Some? {
      return Err(TokenNotExpected(token.value));
    }
    if records == [] {
      return Err(RecordMissing);
    }
    r := Ok(records[0]);
  }
}
