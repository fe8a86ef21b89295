/**
 * The error check of `makeRequestErrorHandling`: before anything is
 * mapped, a response that holds `error` elements (section 3.6 of the
 * OAI-PMH 2.0 protocol) raises an exception chosen by the first of them.
 * The source finds the exception class by name with `getattr`; here the
 * classes are the fixed enumeration `ErrorKind`.
 */
module ErrorClassifier {
  import opened Wrappers
  import opened Document

  /** The classes of the `error` module that the eight known codes select. */
  datatype ErrorKind =
    | BadArgument | BadResumptionToken | BadVerb | CannotDisseminateFormat
    | IdDoesNotExist | NoRecordsMatch | NoMetadataFormats | NoSetHierarchy

  /** The code attribute value that selects a kind. */
  function Code(k: ErrorKind): string {
    match k
    case BadArgument => "badArgument"
    case BadResumptionToken => "badResumptionToken"
    case BadVerb => "badVerb"
    case CannotDisseminateFormat => "cannotDisseminateFormat"
    case IdDoesNotExist => "idDoesNotExist"
    case NoRecordsMatch => "noRecordsMatch"
    case NoMetadataFormats => "noMetadataFormats"
    case NoSetHierarchy => "noSetHierarchy"
  }

  /** The known error codes, in the order the client lists them. */
  const KnownCodes: seq<string> := [
    Code(BadArgument), Code(BadResumptionToken), Code(BadVerb), Code(CannotDisseminateFormat),
    Code(IdDoesNotExist), Code(NoRecordsMatch), Code(NoMetadataFormats), Code(NoSetHierarchy)]

  /** The name of the class in the `error` module. */
  function ClassName(k: ErrorKind): string {
    match k
    case BadArgument => "BadArgumentError"
    case BadResumptionToken => "BadResumptionTokenError"
    case BadVerb => "BadVerbError"
    case CannotDisseminateFormat => "CannotDisseminateFormatError"
    case IdDoesNotExist => "IdDoesNotExistError"
    case NoRecordsMatch => "NoRecordsMatchError"
    case NoMetadataFormats => "NoMetadataFormatsError"
    case NoSetHierarchy => "NoSetHierarchyError"
  }

  /** `c.upper()` for one character of a code (the codes are ASCII). */
  function Upper(c: char): char {
    if 'a' <= c <= 'z' then (c as int - 32) as char else c
  }

  /** `code[0].upper() + code[1:] + 'Error'`: the attribute `getattr` looks up. */
  function ErrorName(code: string): string
    requires code != []
  {
    [Upper(code[0])] + code[1..] + "Error"
  }

  /** The name built from each known code is the name of its class, so the
      `getattr` lookup always succeeds and finds that class. */
  lemma NameOfCode(k: ErrorKind)
    ensures Code(k) != [] && ErrorName(Code(k)) == ClassName(k)
  {
    match k
    case BadArgument => NameOfBadArgument();
    case BadResumptionToken => NameOfBadResumptionToken();
    case BadVerb => NameOfBadVerb();
    case CannotDisseminateFormat => NameOfCannotDisseminateFormat();
    case IdDoesNotExist => NameOfIdDoesNotExist();
    case NoRecordsMatch => NameOfNoRecordsMatch();
    case NoMetadataFormats => NameOfNoMetadataFormats();
    case NoSetHierarchy => NameOfNoSetHierarchy();
  }

  // One lemma per code keeps each string comparison in a proof of its own.
  lemma NameOfBadArgument() ensures ErrorName("badArgument") == "BadArgumentError" {
    assert Upper('b') == 'B' && "badArgument"[1..] == "adArgument";
  }
  lemma NameOfBadResumptionToken() ensures ErrorName("badResumptionToken") == "BadResumptionTokenError" {
    assert Upper('b') == 'B' && "badResumptionToken"[1..] == "adResumptionToken";
  }
  lemma NameOfBadVerb() ensures ErrorName("badVerb") == "BadVerbError" {
    assert Upper('b') == 'B' && "badVerb"[1..] == "adVerb";
  }
  lemma NameOfCannotDisseminateFormat() ensures ErrorName("cannotDisseminateFormat") == "CannotDisseminateFormatError" {
    assert Upper('c') == 'C' && "cannotDisseminateFormat"[1..] == "annotDisseminateFormat";
  }
  lemma NameOfIdDoesNotExist() ensures ErrorName("idDoesNotExist") == "IdDoesNotExistError" {
    assert Upper('i') == 'I' && "idDoesNotExist"[1..] == "dDoesNotExist";
  }
  lemma NameOfNoRecordsMatch() ensures ErrorName("noRecordsMatch") == "NoRecordsMatchError" {
    assert Upper('n') == 'N' && "noRecordsMatch"[1..] == "oRecordsMatch";
  }
  lemma NameOfNoMetadataFormats() ensures ErrorName("noMetadataFormats") == "NoMetadataFormatsError" {
    assert Upper('n') == 'N' && "noMetadataFormats"[1..] == "oMetadataFormats";
  }
  lemma NameOfNoSetHierarchy() ensures ErrorName("noSetHierarchy") == "NoSetHierarchyError" {
    assert Upper('n') == 'N' && "noSetHierarchy"[1..] == "oSetHierarchy";
  }

  /** The kind a known code selects. */
  function Lookup(code: string): (k: Option<ErrorKind>)
    ensures k.Some? <==> code in KnownCodes
    ensures k.Some? ==> Code(k.value) == code
  {
    if code == Code(BadArgument) then Some(BadArgument)
    else if code == Code(BadResumptionToken) then Some(BadResumptionToken)
    else if code == Code(BadVerb) then Some(BadVerb)
    else if code == Code(CannotDisseminateFormat) then Some(CannotDisseminateFormat)
    else if code == Code(IdDoesNotExist) then Some(IdDoesNotExist)
    else if code == Code(NoRecordsMatch) then Some(NoRecordsMatch)
    else if code == Code(NoMetadataFormats) then Some(NoMetadataFormats)
    else if code == Code(NoSetHierarchy) then Some(NoSetHierarchy)
    else None
  }

  /** The exception raised for an error response. */
  datatype ProtocolError =
    | Known(kind: ErrorKind, text: Option<string>)
    | Unknown(message: string)

  /** Python's `%s` of an attribute or text that may be `None`. */
  function Show(v: Option<string>): string {
    if v.None? then "None" else v.value
  }

  const UnknownPrefix: string := "Unknown error code from server: "
  const MessageSeparator: string := ", message: "

  /** The message of `UnknownError`. */
  function UnknownMessage(code: Option<string>, text: Option<string>): string {
    UnknownPrefix + Show(code) + MessageSeparator + Show(text)
  }

  /** The exception for one `error` element with its `code` attribute and text. */
  function ErrorFor(code: Option<string>, text: Option<string>): (e: ProtocolError)
    ensures e.Known? <==> code.Some? && code.value in KnownCodes
    ensures e.Known? ==> Code(e.kind) == code.value && ClassName(e.kind) == ErrorName(code.value) && e.text == text
    ensures e.Unknown? ==> e.message == UnknownMessage(code, text)
  {
    if code.Some? && Lookup(code.value).Some? then
      var kind := Lookup(code.value).value;
      NameOfCode(kind);
      Known(kind, text)
    else Unknown(UnknownMessage(code, text))
  }

  /** `makeRequestErrorHandling` after parsing: the tree itself when it has
      no `error` element, else the exception for the first one. */
  function Classify<N>(tree: Tree<N>): (r: Result<Tree<N>, ProtocolError>)
    ensures r.Ok? <==> forall i :: 0 <= i < |tree.elements| ==> tree.elements[i].Container?
    ensures r.Ok? ==> r.value == tree
    ensures r.Err? ==> var first := Errors(tree.elements)[0];
                       r.error == ErrorFor(first.code, first.text)
  {
    var errors := Errors(tree.elements);
    if errors == [] then Ok(tree)
    else Err(ErrorFor(errors[0].code, errors[0].text))
  }

  /** Only the first `error` element counts: two responses whose first error
      elements agree raise the same exception, whatever follows. */
  lemma FirstErrorDecides<N>(t1: Tree<N>, t2: Tree<N>)
    requires Errors(t1.elements) != [] && Errors(t2.elements) != []
    requires Errors(t1.elements)[0] == Errors(t2.elements)[0]
    ensures Classify(t1).Err? && Classify(t1) == Classify(t2)
  {
  }
}
