/**
 * BDEngineParser: the public facade. Three raw parses (file, input stream,
 * JSON string) check their argument, hand the text to the JSON decoder and
 * turn the decoder's failures into BDEngineParsingException; each full
 * parse is its raw parse followed by the world-transform calculation on the
 * same list.
 *
 * The decoder (Gson) and the file system are not modelled: what they
 * produce for a given input is passed in as a function or a value.
 */
module BDEngineParser {
  import opened Wrappers
  import opened Matrix
  import opened Errors
  import opened Model
  import opened TransformUtils
  import opened WorldTransformCalculator

  /**
   * The element lists the decoder can produce: the scene format has no
   * world-transform field, so no decoded element carries one.
   */
  type DecodedRoots = roots: seq<Option<Tree>> | EraseAll(roots) == roots witness []

  /** What the decoder makes of a text: the JSON literal null, a syntax error, or a list of elements. */
  datatype Decoded = JsonNull | SyntaxError(detail: string) | Elements(roots: DecodedRoots)

  /** What reading a path yields: its content, or the exception that stopped the read. */
  datatype FileRead = Content(text: string) | BadPath(detail: string) | IOError(detail: string)

  /**
   * What reading a stream yields: the decoder's outcome, and the I/O
   * exception that closing the reader afterwards threw, if any. The decoder
   * itself reports failed reads as syntax errors.
   */
  datatype StreamRead = StreamRead(decoded: Decoded, closeFailure: Option<string>)

  const NullPathMessage: string := "File path cannot be null or empty."
  const NullStreamMessage: string := "Input stream cannot be null."
  const NullStringMessage: string := "JSON string cannot be null."
  const InvalidPathPrefix: string := "Invalid file path: "
  const ReadFilePrefix: string := "Error reading file: "
  const StreamNullResultMessage: string := "Parsed result is null. The JSON content might represent a null value."
  const StreamSyntaxMessage: string := "Error parsing JSON from input stream: Invalid JSON syntax."
  const StreamReadMessage: string := "Error reading from input stream."
  const StringNullResultMessage: string :=
    "Parsed result is null. The JSON might represent a null value or be empty in an unexpected way."
  const StringSyntaxMessage: string := "Error parsing JSON string: Invalid JSON syntax."

  /** Java's String.trim: drops leading and trailing characters up to and including the space. */
  function Trim(s: string): (t: string)
    ensures |t| <= |s|
    ensures t != [] ==> t[0] > ' ' && t[|t| - 1] > ' '
    ensures BlankAround(s, |s| - |TrimStart(s)|, t)
  {
    var u := TrimStart(s);
    var t := TrimEnd(u);
    BlankBorders(s, u, t);
    t
  }

  /** `t` is the part of `s` starting at offset k, and everything around it is at most the space. */
  predicate BlankAround(s: string, k: nat, t: string)
  {
    k + |t| <= |s| && t == s[k..k + |t|] &&
    (forall i :: 0 <= i < k ==> s[i] <= ' ') &&
    (forall i :: k + |t| <= i < |s| ==> s[i] <= ' ')
  }

  /**
   * Taking a suffix after leading blanks and then a prefix before trailing
   * blanks keeps one contiguous part of the text, with only blanks around it.
   */
  lemma BlankBorders(s: string, u: string, t: string)
    requires |u| <= |s| && u == s[|s| - |u|..] && forall i :: 0 <= i < |s| - |u| ==> s[i] <= ' '
    requires |t| <= |u| && t == u[..|t|] && forall i :: |t| <= i < |u| ==> u[i] <= ' '
    requires u != [] ==> u[0] > ' '
    requires t != [] ==> t[|t| - 1] > ' '
    ensures |t| <= |s|
    ensures t != [] ==> t[0] > ' ' && t[|t| - 1] > ' '
    ensures BlankAround(s, |s| - |u|, t)
  {
    var k := |s| - |u|;
    assert t == s[k..k + |t|];
    assert t != [] ==> t[0] == u[0];
    forall i | k + |t| <= i < |s|
      ensures s[i] <= ' '
    {
      assert s[i] == u[i - k];
    }
  }

  function TrimStart(s: string): (t: string)
    ensures |t| <= |s| && t == s[|s| - |t|..]
    ensures t != [] ==> t[0] > ' '
    ensures forall i :: 0 <= i < |s| - |t| ==> s[i] <= ' '
  {
    if s != [] && s[0] <= ' ' then TrimStart(s[1..]) else s
  }

  function TrimEnd(s: string): (t: string)
    ensures |t| <= |s| && t == s[..|t|]
    ensures t != [] ==> t[|t| - 1] > ' '
    ensures forall i :: |t| <= i < |s| ==> s[i] <= ' '
  {
    if s != [] && s[|s| - 1] <= ' ' then TrimEnd(s[..|s| - 1]) else s
  }

  /** A path is rejected as empty exactly when every character of it is at most the space. */
  lemma {:induction false} TrimEmptyIffBlank(s: string)
    ensures Trim(s) == [] <==> forall i :: 0 <= i < |s| ==> s[i] <= ' '
  {
    TrimStartEmptyIffBlank(s);
    var u := TrimStart(s);
    if u != [] {
      assert TrimEnd(u) != [] by {
        assert u[0] > ' ';
        TrimEndKeepsNonBlank(u);
      }
    }
  }

  lemma {:induction false} TrimStartEmptyIffBlank(s: string)
    decreases |s|
    ensures TrimStart(s) == [] <==> forall i :: 0 <= i < |s| ==> s[i] <= ' '
  {
    if s != [] && s[0] <= ' ' {
      TrimStartEmptyIffBlank(s[1..]);
      assert forall i :: 1 <= i < |s| ==> s[i] == s[1..][i - 1];
    }
  }

  lemma {:induction false} TrimEndKeepsNonBlank(s: string)
    decreases |s|
    requires s != [] && s[0] > ' '
    ensures TrimEnd(s) != []
  {
    if |s| > 1 && s[|s| - 1] <= ' ' {
      TrimEndKeepsNonBlank(s[..|s| - 1]);
    }
  }

  /** parseJsonStringRaw, as a value: the decoder's list unchanged, or the exception thrown. */
  function JsonStringRaw(jsonString: Option<string>, decode: string -> Decoded): (r: Result<seq<Option<Tree>>, Error>)
    ensures r.Failure? && r.error.IllegalArgument? <==> jsonString.None?
    ensures r.Success? <==> jsonString.Some? && decode(jsonString.value).Elements?
    ensures r.Success? ==> r.value == decode(jsonString.value).roots && EraseAll(r.value) == r.value
    ensures jsonString.Some? && decode(jsonString.value).JsonNull? ==>
      r == Failure(ParsingException(StringNullResultMessage, None))
    ensures jsonString.Some? && decode(jsonString.value).SyntaxError? ==>
      r == Failure(ParsingException(StringSyntaxMessage, Some(JsonSyntax(decode(jsonString.value).detail))))
  {
    match jsonString
    case None => Failure(IllegalArgument(NullStringMessage))
    case Some(text) =>
      match decode(text)
      case JsonNull => Failure(ParsingException(StringNullResultMessage, None))
      case SyntaxError(detail) => Failure(ParsingException(StringSyntaxMessage, Some(JsonSyntax(detail))))
      case Elements(roots) => Success(roots)
  }

  /**
   * parseFromInputStreamRaw, as a value; `inputStream` is what reading the
   * stream yields. A failure to close the reader matters only when the body
   * returned normally: on top of a thrown exception it is suppressed.
   */
  function InputStreamRaw(inputStream: Option<StreamRead>): (r: Result<seq<Option<Tree>>, Error>)
    ensures r.Failure? && r.error.IllegalArgument? <==> inputStream.None?
    ensures r.Success? <==> inputStream.Some? && inputStream.value.decoded.Elements? && inputStream.value.closeFailure.None?
    ensures r.Success? ==> r.value == inputStream.value.decoded.roots && EraseAll(r.value) == r.value
    ensures inputStream.Some? && inputStream.value.decoded.JsonNull? ==>
      r == Failure(ParsingException(StreamNullResultMessage, None))
    ensures inputStream.Some? && inputStream.value.decoded.SyntaxError? ==>
      r == Failure(ParsingException(StreamSyntaxMessage, Some(JsonSyntax(inputStream.value.decoded.detail))))
    ensures inputStream.Some? && inputStream.value.decoded.Elements? && inputStream.value.closeFailure.Some? ==>
      r == Failure(ParsingException(StreamReadMessage, Some(ReadFailure(inputStream.value.closeFailure.value))))
  {
    match inputStream
    case None => Failure(IllegalArgument(NullStreamMessage))
    case Some(StreamRead(decoded, closeFailure)) =>
      match decoded
      case JsonNull => Failure(ParsingException(StreamNullResultMessage, None))
      case SyntaxError(detail) => Failure(ParsingException(StreamSyntaxMessage, Some(JsonSyntax(detail))))
      case Elements(roots) =>
        if closeFailure.Some? then Failure(ParsingException(StreamReadMessage, Some(ReadFailure(closeFailure.value))))
        else Success(roots)
  }

  /**
   * parseFromFileRaw, as a value: a null or blank path is rejected before
   * any reading; the content read is parsed as parseJsonStringRaw does.
   */
  function FileRaw(filePath: Option<string>, read: string -> FileRead, decode: string -> Decoded)
    : (r: Result<seq<Option<Tree>>, Error>)
    ensures r.Failure? && r.error.IllegalArgument? <==> filePath.None? || Trim(filePath.value) == []
    ensures r.Success? ==> EraseAll(r.value) == r.value
  {
    if filePath.None? || Trim(filePath.value) == [] then Failure(IllegalArgument(NullPathMessage))
    else
      var path := filePath.value;
      match read(path)
      case BadPath(detail) => Failure(ParsingException(InvalidPathPrefix + path, Some(InvalidPath(detail))))
      case IOError(detail) => Failure(ParsingException(ReadFilePrefix + path, Some(ReadFailure(detail))))
      case Content(text) => JsonStringRaw(Some(text), decode)
  }

  /** A readable, non-blank path parses exactly as its content does. */
  lemma FileRawParsesContent(path: string, read: string -> FileRead, decode: string -> Decoded)
    requires Trim(path) != [] && read(path).Content?
    ensures FileRaw(Some(path), read, decode) == JsonStringRaw(Some(read(path).text), decode)
    ensures FileRaw(Some(path), read, decode).Success? <==> decode(read(path).text).Elements?
  {
  }

  /** A path the file system cannot read fails with the path in the message and the cause kept. */
  lemma FileRawReadFailures(path: string, read: string -> FileRead, decode: string -> Decoded)
    requires Trim(path) != [] && !read(path).Content?
    ensures var r := FileRaw(Some(path), read, decode);
      r.Failure? && r.error.ParsingException? && r.error.cause.Some? &&
      (read(path).BadPath? ==> r.error == ParsingException(InvalidPathPrefix + path, Some(InvalidPath(read(path).detail)))) &&
      (read(path).IOError? ==> r.error == ParsingException(ReadFilePrefix + path, Some(ReadFailure(read(path).detail))))
  {
  }

  /** The full parse on values: the raw outcome, with world transforms computed on success. */
  function FullParse(raw: Result<seq<Option<Tree>>, Error>): (r: Result<seq<Option<Tree>>, Error>)
    ensures raw.Failure? ==> r == raw
    ensures raw.Success? && !AllWellFormed(raw.value) ==> r == Failure(IllegalArgument(TransformListMessage))
  {
    match raw
    case Failure(e) => Failure(e)
    case Success(roots) =>
      VisitAllSucceedsIffWellFormed(roots, Identity());
      if roots == [] then raw
      else
        var (updated, ok) := VisitAll(roots, Identity());
        if ok then Success(updated) else Failure(IllegalArgument(TransformListMessage))
  }

  /**
   * A full parse succeeds exactly when the raw parse does and every element
   * reachable from the roots has a sixteen-number transforms list; it then
   * returns the same elements, world transforms aside, with every world
   * transform consistent.
   */
  lemma FullParseCorrect(raw: Result<seq<Option<Tree>>, Error>)
    ensures FullParse(raw).Success? <==> raw.Success? && AllWellFormed(raw.value)
    ensures FullParse(raw).Success? ==>
      EraseAll(FullParse(raw).value) == EraseAll(raw.value) &&
      AllConsistent(FullParse(raw).value, Identity())
  {
    if raw.Success? {
      var roots := raw.value;
      VisitAllSucceedsIffWellFormed(roots, Identity());
      if roots != [] {
        VisitAllKeepsAllButWorld(roots, Identity());
        if VisitAll(roots, Identity()).1 {
          VisitAllEstablishesConsistency(roots, Identity());
        }
      }
    }
  }

  /**
   * Builds fresh element objects holding a tree's value, as the decoder
   * instantiates them; `None` is a null element.
   */
  method Build(node: Option<Tree>) returns (e: Element?)
    requires Erase(node) == node
    decreases node
    ensures (e == null) <==> node.None?
    ensures e != null ==> e.Valid() && fresh(e.Repr) && e.Model() == node.value
  {
    if node.None? {
      return null;
    }
    var t := node.value;
    if t.children.Children? {
      var cs, r := BuildAll(t.children.entries);
      e := new Element.DecodedWithChildren(t.attributes, t.transforms, cs, r);
    } else {
      e := new Element.Decoded(t.attributes, t.transforms);
    }
  }

  /** Builds a list of fresh, pairwise unrelated element trees; a `None` entry becomes null. */
  method BuildAll(ts: seq<Option<Tree>>) returns (es: seq<Element?>, ghost repr: set<Element>)
    requires EraseAll(ts) == ts
    decreases ts
    ensures ForestValid(es, repr) && fresh(repr) && repr == Footprint(es)
    ensures ForestModel(es, repr) == ts
  {
    es, repr := [], {};
    var i := 0;
    while i < |ts|
      invariant 0 <= i <= |ts| && |es| == i
      invariant ForestValid(es, repr) && fresh(repr) && repr == Footprint(es)
      invariant ForestModel(es, repr) == ts[..i]
    {
      EraseAllFixedAt(ts, i);
      label Before:
      var e := Build(ts[i]);
      FootprintUnchanged@Before(es);
      assert ts[..i + 1] == ts[..i] + [ts[i]];
      FootprintAppend(es, e);
      if e == null {
        ForestAppendNull(es, repr);
        es := es + [null];
      } else {
        ForestAppend(es, repr, e);
        es, repr := es + [e], repr + e.Repr;
      }
      i := i + 1;
    }
    assert ts[..i] == ts;
  }

  /** A null entry at the end of a forest denotes a null tree. */
  lemma ForestAppendNull(es: seq<Element?>, repr: set<Element>)
    requires ForestValid(es, repr)
    ensures ForestValid(es + [null], repr)
    ensures ForestModel(es + [null], repr) == ForestModel(es, repr) + [None]
  {
  }

  /** An element owning nothing of the forest can be appended to it. */
  lemma ForestAppend(es: seq<Element?>, repr: set<Element>, e: Element)
    requires ForestValid(es, repr) && e.Valid() && e.Repr !! repr
    ensures ForestValid(es + [e], repr + e.Repr)
    ensures ForestModel(es + [e], repr + e.Repr) == ForestModel(es, repr) + [Some(e.Model())]
  {
    ForestWiden(es, repr, repr + e.Repr);
  }

  /** In a list without world transforms, no entry carries one. */
  lemma {:induction false} EraseAllFixedAt(ts: seq<Option<Tree>>, i: nat)
    requires EraseAll(ts) == ts && i < |ts|
    ensures Erase(ts[i]) == ts[i]
    decreases i
  {
    assert [Erase(ts[0])] + EraseAll(ts[1..]) == ts;
    if i > 0 {
      assert EraseAll(ts[1..]) == ts[1..];
      EraseAllFixedAt(ts[1..], i - 1);
    }
  }

  /**
   * A parse outcome on objects stands for one on values: the same error, or
   * a list of element trees within repr whose value is the expected list.
   */
  ghost predicate Denotes(r: Result<seq<Element?>, Error>, repr: set<Element>, expected: Result<seq<Option<Tree>>, Error>)
    reads repr
  {
    match r
    case Failure(e) => expected == Failure(e)
    case Success(es) => expected.Success? && ForestValid(es, repr) && ForestModel(es, repr) == expected.value
  }

  /** Hands the decoder's list to the caller as fresh objects. */
  method Materialize(roots: DecodedRoots) returns (r: Result<seq<Element?>, Error>, ghost repr: set<Element>)
    ensures fresh(repr) && Denotes(r, repr, Success(roots))
  {
    var es;
    es, repr := BuildAll(roots);
    r := Success(es);
  }

  /** parseJsonStringRaw. */
  method ParseJsonStringRaw(jsonString: Option<string>, decode: string -> Decoded)
    returns (r: Result<seq<Element?>, Error>, ghost repr: set<Element>)
    ensures fresh(repr) && Denotes(r, repr, JsonStringRaw(jsonString, decode))
  {
    repr := {};
    if jsonString.None? {
      return Failure(IllegalArgument(NullStringMessage)), repr;
    }
    var elements := decode(jsonString.value);
    match elements
    case JsonNull =>
      r := Failure(ParsingException(StringNullResultMessage, None));
    case SyntaxError(detail) =>
      r := Failure(ParsingException(StringSyntaxMessage, Some(JsonSyntax(detail))));
    case Elements(roots) =>
      r, repr := Materialize(roots);
  }

  /** parseFromInputStreamRaw; the stream is given by what reading it yields. */
  method ParseFromInputStreamRaw(inputStream: Option<StreamRead>)
    returns (r: Result<seq<Element?>, Error>, ghost repr: set<Element>)
    ensures fresh(repr) && Denotes(r, repr, InputStreamRaw(inputStream))
  {
    repr := {};
    if inputStream.None? {
      return Failure(IllegalArgument(NullStreamMessage)), repr;
    }
    var StreamRead(elements, closeFailure) := inputStream.value;
    match elements
    case JsonNull =>
      r := Failure(ParsingException(StreamNullResultMessage, None));
    case SyntaxError(detail) =>
      r := Failure(ParsingException(StreamSyntaxMessage, Some(JsonSyntax(detail))));
    case Elements(roots) =>
      if closeFailure.Some? {
        r := Failure(ParsingException(StreamReadMessage, Some(ReadFailure(closeFailure.value))));
      } else {
        r, repr := Materialize(roots);
      }
  }

  /** parseFromFileRaw; `read` gives what reading each path yields. */
  method ParseFromFileRaw(filePath: Option<string>, read: string -> FileRead, decode: string -> Decoded)
    returns (r: Result<seq<Element?>, Error>, ghost repr: set<Element>)
    ensures fresh(repr) && Denotes(r, repr, FileRaw(filePath, read, decode))
  {
    repr := {};
    if filePath.None? || Trim(filePath.value) == [] {
      return Failure(IllegalArgument(NullPathMessage)), repr;
    }
    var path := filePath.value;
    match read(path)
    case BadPath(detail) =>
      r := Failure(ParsingException(InvalidPathPrefix + path, Some(InvalidPath(detail))));
    case IOError(detail) =>
      r := Failure(ParsingException(ReadFilePrefix + path, Some(ReadFailure(detail))));
    case Content(jsonContent) =>
      r, repr := ParseJsonStringRaw(Some(jsonContent), decode);
  }

  /**
   * calculateWorldTransformsForElements: a null or empty list is left
   * alone, any other list goes to the calculator once. `ok` is false when
   * the calculator threw.
   */
  method CalculateWorldTransformsForElements(rootElements: Option<seq<Element?>>, ghost repr: set<Element>)
    returns (ok: bool)
    requires rootElements.Some? ==> ForestValid(rootElements.value, repr)
    modifies (if rootElements.None? then {} else Footprint(rootElements.value))`worldTransform
    ensures rootElements.None? || rootElements.value == [] ==> ok && unchanged(repr)
    ensures rootElements.Some? ==> ForestValid(rootElements.value, repr)
    ensures rootElements.Some? ==>
      (ForestModel(rootElements.value, repr), ok)
      == VisitAll(old(ForestModel(rootElements.value, repr)), Identity())
  {
    ok := true;
    if rootElements.Some? && rootElements.value != [] {
      ok := CalculateWorldTransforms(rootElements, repr);
    }
  }

  /** The second half of every full parse: the raw result, with world transforms computed. */
  method CalculateOnParsed(raw: Result<seq<Element?>, Error>, ghost repr: set<Element>,
                           ghost expected: Result<seq<Option<Tree>>, Error>)
    returns (r: Result<seq<Element?>, Error>)
    requires Denotes(raw, repr, expected)
    modifies repr`worldTransform
    ensures Denotes(r, repr, FullParse(expected))
  {
    if raw.Failure? {
      return raw;
    }
    var rootElements := raw.value;
    ForestWithin(rootElements, repr);
    var ok := CalculateWorldTransformsForElements(Some(rootElements), repr);
    if ok {
      r := Success(rootElements);
    } else {
      r := Failure(IllegalArgument(TransformListMessage));
    }
  }

  /** parseJsonString: the raw parse, then the calculation on the same list. */
  method ParseJsonString(jsonString: Option<string>, decode: string -> Decoded)
    returns (r: Result<seq<Element?>, Error>, ghost repr: set<Element>)
    ensures fresh(repr) && Denotes(r, repr, FullParse(JsonStringRaw(jsonString, decode)))
  {
    var rootElements;
    rootElements, repr := ParseJsonStringRaw(jsonString, decode);
    r := CalculateOnParsed(rootElements, repr, JsonStringRaw(jsonString, decode));
  }

  /** parseFromInputStream: the raw parse, then the calculation on the same list. */
  method ParseFromInputStream(inputStream: Option<StreamRead>)
    returns (r: Result<seq<Element?>, Error>, ghost repr: set<Element>)
    ensures fresh(repr) && Denotes(r, repr, FullParse(InputStreamRaw(inputStream)))
  {
    var rootElements;
    rootElements, repr := ParseFromInputStreamRaw(inputStream);
    r := CalculateOnParsed(rootElements, repr, InputStreamRaw(inputStream));
  }

  /** parseFromFile: the raw parse, then the calculation on the same list. */
  method ParseFromFile(filePath: Option<string>, read: string -> FileRead, decode: string -> Decoded)
    returns (r: Result<seq<Element?>, Error>, ghost repr: set<Element>)
    ensures fresh(repr) && Denotes(r, repr, FullParse(FileRaw(filePath, read, decode)))
  {
    var rootElements;
    rootElements, repr := ParseFromFileRaw(filePath, read, decode);
    r := CalculateOnParsed(rootElements, repr, FileRaw(filePath, read, decode));
  }
}
