/**
 * The `/analyze` endpoint of app.py: which status and JSON body each request
 * gets, and the lifecycle of the temporary file the upload is written to.
 * The upload, the OCR engine and the remote model are oracles; the temporary
 * directory is the set of paths that exist in it.
 */
module App {
  import opened Wrappers
  import opened PyText
  import opened ElementTable
  import opened Chatnot

  /** A JSON object whose values are all strings, as `jsonify` receives them. */
  type Json = map<string, string>

  /** An HTTP status and a JSON body; `jsonify` alone means status 200. */
  datatype Response = Response(status: int, body: Json)

  /** How writing the upload to a temporary file went: `NamedTemporaryFile`
      raised before a file existed, `image_file.save` raised after it was
      created, or both succeeded (app.py:23-25). */
  datatype Persist = Saved | CreateFailed(message: string) | SaveFailed(message: string)

  const NoImageMessage := "No image provided"
  const NoSymbolError := "No element symbol detected in the image"

  function ErrorBody(e: string): Json {
    map["error" := e]
  }

  function FoundBody(element: string, details: string): Json {
    map["element" := element, "details" := details]
  }

  function ProcessingError(e: string): string {
    "Error processing image: " + e
  }

  function ServerError(e: string): string {
    "Server error: " + e
  }

  function NotInDatabase(symbol: string): string {
    "Element symbol '" + symbol + "' not found in our database"
  }

  /** The `element` field: the name, then the record's symbol in parentheses. */
  function ElementLabel(element: Element): string {
    element.name + " (" + element.symbol + ")"
  }

  /** The body the inner `try` of `analyze` returns (app.py:28-56): every
      exception in it, from the OCR stage or from `chat_with_gemini`, becomes an
      error body with status 200. */
  function InnerBody(table: map<string, Element>, ocr: OcrOutcome, key: Option<string>, remote: Remote): (r: Json)
    ensures r.Keys == {"error"} || r.Keys == {"element", "details"}
    ensures ocr.OcrFailed? ==> r == ErrorBody(ProcessingError(OcrErrorMessage(ocr.message)))
  {
    match ExtractText(ocr)
    case Err(e) => ErrorBody(ProcessingError(e))
    case Ok(text) =>
      if text == [] then ErrorBody(NoSymbolError) else SymbolBody(table, NormaliseSymbol(text), key, remote)
  }

  /** The lookup of the normalised symbol and, when it is a key, the request for
      its details (app.py:38-53). */
  function SymbolBody(table: map<string, Element>, symbol: string, key: Option<string>, remote: Remote): (r: Json)
    ensures r.Keys == {"error"} || r.Keys == {"element", "details"}
  {
    match Lookup(table, symbol)
    case None => ErrorBody(NotInDatabase(symbol))
    case Some(element) =>
      match ChatWithGemini(Prompt(element.name), key, remote)
      case Ok(answer) => FoundBody(ElementLabel(element), answer)
      case Err(e) => ErrorBody(ProcessingError(e))
  }

  /** `analyze` as a whole (app.py:14-64): 400 without an image field, 500 when
      writing the upload failed, and otherwise 200 with the inner body. */
  function AnalyzeResponse(table: map<string, Element>, hasImage: bool, persist: Persist, ocr: OcrOutcome, key: Option<string>, remote: Remote): (r: Response)
    ensures r.status == 400 <==> !hasImage
    ensures !hasImage ==> r.body == ErrorBody(NoImageMessage)
    ensures r.status == 500 <==> hasImage && !persist.Saved?
    ensures hasImage && !persist.Saved? ==> r.body == ErrorBody(ServerError(persist.message))
    ensures r.status == 200 <==> hasImage && persist.Saved?
    ensures r.status == 200 ==> r.body == InnerBody(table, ocr, key, remote)
  {
    if !hasImage then Response(400, ErrorBody(NoImageMessage))
    else match persist
      case CreateFailed(e) => Response(500, ErrorBody(ServerError(e)))
      case SaveFailed(e) => Response(500, ErrorBody(ServerError(e)))
      case Saved => Response(200, InnerBody(table, ocr, key, remote))
  }

  /** The temporary files that exist once `analyze` returns: a file is created
      once there is an image and `NamedTemporaryFile` succeeded, and the
      `finally` of the inner `try` removes it when the save succeeded too; a
      failing save escapes before that `finally` (app.py:23-25, 58-61). */
  function FilesAfter(before: set<string>, hasImage: bool, persist: Persist, tempPath: string): (r: set<string>)
    ensures r - {tempPath} == before - {tempPath}
    ensures !hasImage || persist.CreateFailed? ==> r == before
    ensures hasImage && persist.SaveFailed? ==> tempPath in r
    ensures hasImage && persist.Saved? ==> tempPath !in r
    ensures tempPath !in before && hasImage && persist.Saved? ==> r == before
  {
    if !hasImage || persist.CreateFailed? then before
    else
      var created := before + {tempPath};
      if persist.SaveFailed? then created else created - {tempPath}
  }

  /** The temporary directory as the set of paths that exist in it. */
  class TempDir {
    var files: set<string>

    constructor(existing: set<string>)
      ensures files == existing
    {
      files := existing;
    }

    /** One request to `/analyze`. `tempPath` is the name `NamedTemporaryFile`
        picks, which is never one that exists already. */
    method Analyze(table: map<string, Element>, hasImage: bool, persist: Persist, ocr: OcrOutcome,
                   key: Option<string>, remote: Remote, tempPath: string) returns (resp: Response)
      requires tempPath !in files
      modifies this
      ensures resp == AnalyzeResponse(table, hasImage, persist, ocr, key, remote)
      ensures files == FilesAfter(old(files), hasImage, persist, tempPath)
      ensures resp.status != 500 ==> files == old(files)
    {
      if !hasImage {
        resp := Response(400, ErrorBody(NoImageMessage));
        return;
      }
      if persist.CreateFailed? {
        resp := Response(500, ErrorBody(ServerError(persist.message)));
        return;
      }
      files := files + {tempPath};
      if persist.SaveFailed? {
        resp := Response(500, ErrorBody(ServerError(persist.message)));
        return;
      }
      var body := InnerBody(table, ocr, key, remote);
      if tempPath in files {
        files := files - {tempPath};
      }
      resp := Response(200, body);
    }
  }

  /** The three outcomes for a symbol that is a key (app.py:38-51, 55-56): the
      element with its name and symbol and the stripped answer; or an error body
      for the missing key or the remote failure. */
  lemma FoundSymbolBody(table: map<string, Element>, symbol: string, key: Option<string>, remote: Remote)
    requires WellFormed(table) && symbol in table
    ensures var name := table[symbol].name;
      var reply := remote(Prompt(name));
      SymbolBody(table, symbol, key, remote) ==
        if !HasKey(key) then ErrorBody(ProcessingError(MissingKeyMessage))
        else if reply.RemoteFailed? then ErrorBody(ProcessingError(RemoteErrorMessage(reply.message)))
        else FoundBody(name + " (" + symbol + ")", Strip(reply.text))
  {
    var prompt := Prompt(table[symbol].name);
    if HasKey(key) && remote(prompt).Reply? {
      StripsToUnique(remote(prompt).text, ChatWithGemini(prompt, key, remote).value, Strip(remote(prompt).text));
    }
  }

  /** A symbol that is not a key gives the not-in-database body, and neither the
      key nor the remote model has any say in it (app.py:52-53). */
  lemma NotInDatabaseNeverAsks(table: map<string, Element>, symbol: string, key1: Option<string>, remote1: Remote, key2: Option<string>, remote2: Remote)
    requires symbol !in table
    ensures SymbolBody(table, symbol, key1, remote1) == SymbolBody(table, symbol, key2, remote2) == ErrorBody(NotInDatabase(symbol))
  {
  }

  /** Fragments that are all whitespace give the no-symbol body before any
      lookup (app.py:31-32). */
  lemma BlankFragmentsBody(table: map<string, Element>, fragments: seq<string>, key: Option<string>, remote: Remote)
    requires fragments != [] && forall p :: 0 <= p < |fragments| ==> AllSpace(fragments[p])
    ensures InnerBody(table, Detected(fragments), key, remote) == ErrorBody(NoSymbolError)
  {
    ExtractedEmptyIff(Detected(fragments));
  }

  /** A normalised text longer than two characters is never a key of a
      well-formed table. */
  lemma LongSymbolNotInDatabase(table: map<string, Element>, symbol: string, key: Option<string>, remote: Remote)
    requires WellFormed(table) && |symbol| > 2
    ensures SymbolBody(table, symbol, key, remote) == ErrorBody(NotInDatabase(symbol))
  {
  }

  /** Zero OCR fragments reach the lookup as the upper-cased sentinel and are
      reported as not in the database (app.py:29-35, 52-53). */
  lemma SentinelNotInDatabase(table: map<string, Element>, key: Option<string>, remote: Remote)
    requires WellFormed(table)
    ensures InnerBody(table, Detected([]), key, remote) == ErrorBody(NotInDatabase(NormaliseSymbol(NoTextSentinel)))
  {
    NormalisedSentinel();
    LongSymbolNotInDatabase(table, NormaliseSymbol(NoTextSentinel), key, remote);
  }

  /** For one normalised symbol, the `details` field is what the pipeline returns. */
  lemma SymbolAgreesWithCli(table: map<string, Element>, symbol: string, key: Option<string>, remote: Remote)
    ensures "details" in SymbolBody(table, symbol, key, remote) ==>
      LookupAndAsk(table, symbol, key, remote) == SymbolBody(table, symbol, key, remote)["details"]
  {
  }

  /** The endpoint and `get_element_details` agree: the `details` field, when
      present, is exactly the text the command-line pipeline returns, and the
      endpoint reports an OCR failure where the pipeline lets it escape. */
  lemma AgreesWithCli(table: map<string, Element>, ocr: OcrOutcome, key: Option<string>, remote: Remote)
    ensures "details" in InnerBody(table, ocr, key, remote) ==>
      GetElementDetails(table, ocr, key, remote) == Ok(InnerBody(table, ocr, key, remote)["details"])
    ensures GetElementDetails(table, ocr, key, remote).Err? ==>
      InnerBody(table, ocr, key, remote) == ErrorBody(ProcessingError(GetElementDetails(table, ocr, key, remote).error))
  {
    match ExtractText(ocr)
    case Err(e) =>
    case Ok(text) =>
      if text != [] {
        SymbolAgreesWithCli(table, NormaliseSymbol(text), key, remote);
      }
  }
}
