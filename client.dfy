/**
 * What the `nextBatch(token)` closures of `ListRecords_impl`,
 * `ListIdentifiers_impl` and `ListSets_impl` do with a response once it
 * is parsed: `makeRequestErrorHandling` checks it for `error` elements
 * first, and only a response without any is handed to the mapper.
 */
module Client {
  import opened Wrappers
  import opened Document
  import opened ErrorClassifier
  import opened ResponseMapper
  import opened Pagination

  /** The exceptions a page fetch can raise once the response is parsed. */
  datatype HarvestError = Protocol(protocolError: ProtocolError) | Mapping(mapError: MapError)

  /** One ListRecords page. */
  method RecordsPage<N, D, P>(prefix: string, read: (string, N) -> P, decode: string -> Option<D>, tree: Tree<N>)
    returns (page: Result<Batch<Record<D, P>>, HarvestError>)
    ensures Classify(tree).Err? ==> page == Err(Protocol(Classify(tree).error))
    ensures Classify(tree).Ok? ==> (page.Ok? <==> AllRecordsBuild(prefix, read, decode, tree))
    ensures Classify(tree).Ok? && page.Err? ==>
              page.error.Mapping?
              && exists k :: 0 <= k < |RecordNodes(tree)|
                   && BuildRecord(prefix, RecordNodes(tree)[k], read, decode) == Err(page.error.mapError)
                   && forall j :: 0 <= j < k ==> BuildRecord(prefix, RecordNodes(tree)[j], read, decode).Ok?
    ensures page.Ok? ==> page.value.token == NormalizeToken(RawToken(tree, None))
                         && |page.value.items| == |RecordNodes(tree)|
                         && forall i :: 0 <= i < |RecordNodes(tree)| ==>
                              BuildRecord(prefix, RecordNodes(tree)[i], read, decode) == Ok(page.value.items[i])
  {
    var checked := Classify(tree);
    if checked.Err? {
      return Err(Protocol(checked.error));
    }
    var built := BuildRecords(prefix, read, decode, checked.value);
    if built.Err? {
      return Err(Mapping(built.error));
    }
    page := Ok(built.value);
  }

  /** One ListIdentifiers page. */
  method IdentifiersPage<N, D>(decode: string -> Option<D>, tree: Tree<N>)
    returns (page: Result<Batch<Header<D>>, HarvestError>)
    ensures Classify(tree).Err? ==> page == Err(Protocol(Classify(tree).error))
    ensures Classify(tree).Ok? ==>
              (page.Ok? <==> forall i :: 0 <= i < |IdentifierNodes(tree)| ==> BuildHeader(IdentifierNodes(tree)[i], decode).Ok?)
    ensures Classify(tree).Ok? && page.Err? ==>
              page.error.Mapping?
              && exists k :: 0 <= k < |IdentifierNodes(tree)|
                   && BuildHeader(IdentifierNodes(tree)[k], decode) == Err(page.error.mapError)
                   && forall j :: 0 <= j < k ==> BuildHeader(IdentifierNodes(tree)[j], decode).Ok?
    ensures page.Ok? ==> page.value.token == NormalizeToken(RawToken(tree, Some("ListIdentifiers")))
                         && |page.value.items| == |IdentifierNodes(tree)|
                         && forall i :: 0 <= i < |IdentifierNodes(tree)| ==>
                              BuildHeader(IdentifierNodes(tree)[i], decode) == Ok(page.value.items[i])
  {
    var checked := Classify(tree);
    if checked.Err? {
      return Err(Protocol(checked.error));
    }
    var built := BuildIdentifiers(decode, checked.value);
    if built.Err? {
      return Err(Mapping(built.error));
    }
    page := Ok(built.value);
  }

  /** One ListSets page. */
  method SetsPage<N>(tree: Tree<N>) returns (page: Result<Batch<SetDescriptor>, HarvestError>)
    ensures Classify(tree).Err? ==> page == Err(Protocol(Classify(tree).error))
    ensures Classify(tree).Ok? ==> page.Ok?
    ensures page.Ok? ==> page.value.token == NormalizeToken(RawToken(tree, Some("ListSets")))
                         && |page.value.items| == |SetNodes(tree)|
                         && forall i :: 0 <= i < |SetNodes(tree)| ==>
                              page.value.items[i] == SetDescriptor(SetNodes(tree)[i].setSpec, SetNodes(tree)[i].setName, None)
  {
    var checked := Classify(tree);
    if checked.Err? {
      return Err(Protocol(checked.error));
    }
    var built := BuildSets(checked.value);
    page := Ok(built);
  }
}
