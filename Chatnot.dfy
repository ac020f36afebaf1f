/**
 * The decision core of Chatnot.py: joining the OCR fragments, the API-key guard
 * and answer trimming of the model call, and `get_element_details`, which
 * normalises the extracted text, looks it up in the element table, builds the
 * prompt and turns each outcome into its result. The OCR engine and the remote
 * model are oracles given as parameters.
 */
module Chatnot {
  import opened Wrappers
  import opened PyText
  import opened ElementTable

  /** What the OCR stage of `extract_text_from_image` produced: the fragments
      `reader.readtext(gray_image, detail=0)` returned, or the text of the exception
      raised on the way (missing file, undecodable image, engine error). */
  datatype OcrOutcome = Detected(fragments: seq<string>) | OcrFailed(message: string)

  /** What `model.generate_content(prompt)` and reading `response.text` produced. */
  datatype RemoteOutcome = Reply(text: string) | RemoteFailed(message: string)

  /** The hosted model as an oracle from prompt to outcome. */
  type Remote = string -> RemoteOutcome

  const NoTextSentinel := "No text detected in the image."
  const NoSymbolMessage := "No element symbol detected in the image."
  const PromptPrefix := "Please provide detailed information about the element: "
  const MissingKeyMessage :=
    "GOOGLE_API_KEY environment variable not found. Set it using a .env file or system settings."

  function OcrErrorMessage(e: string): string {
    "Error during OCR processing: " + e
  }

  function RemoteErrorMessage(e: string): string {
    "Error communicating with Gemini API: " + e
  }

  function NotFoundMessage(symbol: string): string {
    "Element symbol '" + symbol + "' not found in the dictionary."
  }

  function ResponderErrorMessage(e: string): string {
    "Error while getting data from Gemini: " + e
  }

  /** The fixed prompt template of Chatnot.py:181. */
  function Prompt(name: string): string {
    PromptPrefix + name
  }

  /** `extract_text_from_image` after the OCR call (Chatnot.py:141-146): no fragment
      gives the sentinel, otherwise the fragments joined by single spaces and
      stripped; any failure is re-raised wrapped. */
  function ExtractText(ocr: OcrOutcome): (r: Result<string, string>)
    ensures r.Err? <==> ocr.OcrFailed?
    ensures ocr.OcrFailed? ==> r.error == OcrErrorMessage(ocr.message)
    ensures ocr == Detected([]) ==> r == Ok(NoTextSentinel)
    ensures ocr.Detected? && ocr.fragments != [] ==> r.Ok? && StripsTo(Join(" ", ocr.fragments), r.value)
    ensures r.Ok? ==> IsStripped(r.value)
  {
    match ocr
    case OcrFailed(e) => Err(OcrErrorMessage(e))
    case Detected(fragments) =>
      if fragments == [] then
        assert NoTextSentinel[0] == 'N' && NoTextSentinel[|NoTextSentinel| - 1] == '.';
        Ok(NoTextSentinel)
      else
        var text := Strip(Join(" ", fragments));
        StripStripped(Join(" ", fragments));
        Ok(text)
  }

  /** The extracted text is empty exactly when the engine found at least one
      fragment and every fragment is whitespace only; zero fragments give the
      sentinel instead. */
  lemma ExtractedEmptyIff(ocr: OcrOutcome)
    ensures ExtractText(ocr) == Ok("") <==>
      ocr.Detected? && ocr.fragments != [] && forall p :: 0 <= p < |ocr.fragments| ==> AllSpace(ocr.fragments[p])
  {
    if ocr.Detected? && ocr.fragments != [] {
      StripEmptyIff(Join(" ", ocr.fragments));
      JoinAllSpace(" ", ocr.fragments);
    }
  }

  /** Python's truth test on `os.getenv("GOOGLE_API_KEY")`: absent and empty both fail. */
  predicate HasKey(key: Option<string>) {
    key.Some? && key.value != ""
  }

  /** `chat_with_gemini` (Chatnot.py:148-162): the key guard, one remote call, and
      the answer stripped of surrounding whitespace. */
  function ChatWithGemini(prompt: string, key: Option<string>, remote: Remote): (r: Result<string, string>)
    ensures !HasKey(key) ==> r == Err(MissingKeyMessage)
    ensures HasKey(key) && remote(prompt).RemoteFailed? ==> r == Err(RemoteErrorMessage(remote(prompt).message))
    ensures HasKey(key) && remote(prompt).Reply? ==> r.Ok? && StripsTo(remote(prompt).text, r.value)
  {
    if !HasKey(key) then
      Err(MissingKeyMessage)
    else
      match remote(prompt)
      case Reply(text) => Ok(Strip(text))
      case RemoteFailed(e) => Err(RemoteErrorMessage(e))
  }

  /** Without a key the guard raises before any remote call: no remote oracle
      changes the outcome. */
  lemma NoKeyNoRemoteCall(prompt: string, key: Option<string>, remote1: Remote, remote2: Remote)
    requires !HasKey(key)
    ensures ChatWithGemini(prompt, key, remote1) == ChatWithGemini(prompt, key, remote2) == Err(MissingKeyMessage)
  {
  }

  /** `element_symbol.strip().upper()` (Chatnot.py:175). */
  function NormaliseSymbol(text: string): (r: string)
    ensures |r| <= |text|
    ensures IsStripped(r)
    ensures forall k :: 0 <= k < |r| ==> !('a' <= r[k] <= 'z')
  {
    StripShorter(text);
    StripStripped(text);
    UpperKeepsStripped(Strip(text));
    Upper(Strip(text))
  }

  /** Normalising twice is normalising once. */
  lemma NormaliseIdempotent(text: string)
    ensures NormaliseSymbol(NormaliseSymbol(text)) == NormaliseSymbol(text)
  {
    var s := Strip(text);
    StripUpperCommute(s);
    StripIdempotent(text);
    UpperIdempotent(s);
  }

  /** Texts that differ only in letter case normalise to the same symbol. */
  lemma NormaliseIgnoresCase(a: string, b: string)
    requires EqualIgnoringCase(a, b)
    ensures NormaliseSymbol(a) == NormaliseSymbol(b)
  {
    assert Upper(a) == Upper(b);
    StripUpperCommute(a);
    StripUpperCommute(b);
  }

  /** What `get_element_details` does with the extracted text (Chatnot.py:169-189). */
  function DetailsFor(table: map<string, Element>, text: string, key: Option<string>, remote: Remote): (r: string)
    ensures text == [] ==> r == NoSymbolMessage
    ensures text != [] && NormaliseSymbol(text) !in table ==> r == NotFoundMessage(NormaliseSymbol(text))
  {
    if text == [] then NoSymbolMessage else LookupAndAsk(table, NormaliseSymbol(text), key, remote)
  }

  /** The lookup of the normalised symbol and, when it is a key, the request for
      its details (Chatnot.py:178-189). */
  function LookupAndAsk(table: map<string, Element>, symbol: string, key: Option<string>, remote: Remote): (r: string)
    ensures symbol !in table ==> r == NotFoundMessage(symbol)
    ensures symbol in table && !HasKey(key) ==> r == ResponderErrorMessage(MissingKeyMessage)
    ensures symbol in table && HasKey(key) && remote(Prompt(table[symbol].name)).RemoteFailed? ==>
      r == ResponderErrorMessage(RemoteErrorMessage(remote(Prompt(table[symbol].name)).message))
    ensures symbol in table && HasKey(key) && remote(Prompt(table[symbol].name)).Reply? ==>
      StripsTo(remote(Prompt(table[symbol].name)).text, r)
  {
    match Lookup(table, symbol)
    case None => NotFoundMessage(symbol)
    case Some(element) =>
      match ChatWithGemini(Prompt(element.name), key, remote)
      case Ok(answer) => answer
      case Err(e) => ResponderErrorMessage(e)
  }

  /** `get_element_details` (Chatnot.py:164-189). `Ok` is the returned string;
      `Err` is the OCR exception, the only one that escapes. */
  function GetElementDetails(table: map<string, Element>, ocr: OcrOutcome, key: Option<string>, remote: Remote): (r: Result<string, string>)
    ensures r.Err? <==> ocr.OcrFailed?
    ensures r.Err? ==> r.error == OcrErrorMessage(ocr.message)
  {
    match ExtractText(ocr)
    case Err(e) => Err(e)
    case Ok(text) => Ok(DetailsFor(table, text, key, remote))
  }

  /** Empty extracted text stops before lookup: the result is the fixed message,
      whatever the key and the remote model. */
  lemma EmptyTextNoLookup(table: map<string, Element>, key: Option<string>, remote: Remote)
    ensures DetailsFor(table, "", key, remote) == NoSymbolMessage
  {
  }

  /** Fragments that are all whitespace give the no-symbol message before any
      lookup, whatever the key and the remote model (Chatnot.py:144, 169-170). */
  lemma BlankFragmentsNoSymbol(table: map<string, Element>, fragments: seq<string>, key: Option<string>, remote: Remote)
    requires fragments != [] && forall p :: 0 <= p < |fragments| ==> AllSpace(fragments[p])
    ensures GetElementDetails(table, Detected(fragments), key, remote) == Ok(NoSymbolMessage)
  {
    ExtractedEmptyIff(Detected(fragments));
  }

  /** A symbol that is not a key gives the not-found message, and neither the key
      nor the remote model has any say in it (Chatnot.py:188-189). */
  lemma NotFoundNeverAsks(table: map<string, Element>, symbol: string, key1: Option<string>, remote1: Remote, key2: Option<string>, remote2: Remote)
    requires symbol !in table
    ensures LookupAndAsk(table, symbol, key1, remote1) == LookupAndAsk(table, symbol, key2, remote2) == NotFoundMessage(symbol)
  {
  }

  /** A found symbol sends exactly `Prompt(name)`: the remote model is consulted on
      that prompt and on nothing else (Chatnot.py:180-184). */
  lemma FoundAsksOnlyItsPrompt(table: map<string, Element>, symbol: string, key: Option<string>, remote1: Remote, remote2: Remote)
    requires symbol in table
    requires remote1(Prompt(table[symbol].name)) == remote2(Prompt(table[symbol].name))
    ensures LookupAndAsk(table, symbol, key, remote1) == LookupAndAsk(table, symbol, key, remote2)
  {
  }

  /** The three outcomes of asking about a found symbol: the remote answer,
      stripped and otherwise verbatim; the missing-key error; or the wrapped
      remote error, each caught and returned as text (Chatnot.py:182-187). */
  lemma FoundOutcomes(table: map<string, Element>, symbol: string, key: Option<string>, remote: Remote)
    requires symbol in table
    ensures var reply := remote(Prompt(table[symbol].name));
      LookupAndAsk(table, symbol, key, remote) ==
        if !HasKey(key) then ResponderErrorMessage(MissingKeyMessage)
        else if reply.RemoteFailed? then ResponderErrorMessage(RemoteErrorMessage(reply.message))
        else Strip(reply.text)
  {
    var prompt := Prompt(table[symbol].name);
    if HasKey(key) && remote(prompt).Reply? {
      StripsToUnique(remote(prompt).text, ChatWithGemini(prompt, key, remote).value, Strip(remote(prompt).text));
    }
  }

  /** The result does not depend on letter case: texts that differ only in case
      lead to the same result (Chatnot.py:175-178). */
  lemma DetailsIgnoreCase(table: map<string, Element>, a: string, b: string, key: Option<string>, remote: Remote)
    requires EqualIgnoringCase(a, b)
    ensures DetailsFor(table, a, key, remote) == DetailsFor(table, b, key, remote)
  {
    NormaliseIgnoresCase(a, b);
  }

  /** A normalised text longer than two characters is never a key of a
      well-formed table, so it is reported as not found. */
  lemma LongSymbolNotFound(table: map<string, Element>, symbol: string, key: Option<string>, remote: Remote)
    requires WellFormed(table) && |symbol| > 2
    ensures LookupAndAsk(table, symbol, key, remote) == NotFoundMessage(symbol)
  {
  }

  /** The sentinel has no whitespace at its ends, so normalising it only
      upper-cases it; the result has its 30 characters. */
  lemma NormalisedSentinel()
    ensures NormaliseSymbol(NoTextSentinel) == Upper(NoTextSentinel)
    ensures |NormaliseSymbol(NoTextSentinel)| == 30
  {
    assert NoTextSentinel[0] == 'N' && NoTextSentinel[|NoTextSentinel| - 1] == '.';
    StripOfStripped(NoTextSentinel);
  }

  /** The upper-cased sentinel, spelled out. */
  lemma SentinelSpelledOut()
    ensures Upper(NoTextSentinel) == "NO TEXT DETECTED IN THE IMAGE."
  {
    UpperOf(NoTextSentinel, "NO TEXT DETECTED IN THE IMAGE.");
  }

  /** The not-found message is never the no-symbol message: they differ in their
      first character. */
  lemma NotFoundIsNotNoSymbol(symbol: string)
    ensures NotFoundMessage(symbol) != NoSymbolMessage
  {
    assert NotFoundMessage(symbol)[0] == 'E';
    assert NoSymbolMessage[0] == 'N';
  }

  /** Zero OCR fragments do not end as "No element symbol detected" (which
      `NotFoundIsNotNoSymbol` tells apart): the sentinel is normalised, looked
      up, and reported as an unknown symbol, whatever the key and the remote
      model (Chatnot.py:141-142, 169, 175-189). `SentinelSpelledOut` gives the
      upper-cased sentinel letter by letter. */
  lemma SentinelEndsNotFound(table: map<string, Element>, key: Option<string>, remote: Remote)
    requires WellFormed(table)
    ensures GetElementDetails(table, Detected([]), key, remote) == Ok(NotFoundMessage(NormaliseSymbol(NoTextSentinel)))
  {
    var symbol := NormaliseSymbol(NoTextSentinel);
    NormalisedSentinel();
    LongSymbolNotFound(table, symbol, key, remote);
  }
}
