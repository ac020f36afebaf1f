# Chatnot: the element-identification core, in Dafny

Chatnot photographs a card showing a chemical symbol and reads the symbol with
an OCR engine. It looks the symbol up in a fixed table of elements and asks a
hosted language model (Gemini) to describe that element. It runs as a
command-line script (Chatnot.py) and as a small Flask web endpoint (app.py).

This project models the deterministic decision core that sits between those
services. The camera, the OCR engine and the remote model are replaced by
oracles.

**Modules**

- `Wrappers`: `Option` and `Result`. An `Err` carries the text of a raised exception.
- `PyText`: the ASCII slice of Python's string operations:
  - `str.isspace` and `str.strip()`, specified by what `strip` promises (`StripsTo`) and proved unique;
  - `str.upper()`;
  - `" ".join`.
- `ElementTable`: the `elements_dict` literal as its sequence of key/record pairs, and `DictOf`. `DictOf` builds a map from pairs as a Python dict literal does: the last pair for a key wins. This module also proves the table's invariants and defines the exact-key `Lookup`.
- `Chatnot`: `extract_text_from_image` after the OCR call, `chat_with_gemini`'s key guard and answer trimming, and `get_element_details`. The OCR result is an `OcrOutcome`: fragments, or a failure. The model is a `Remote`, an oracle from prompt to `Reply` or `RemoteFailed`. The API key is an `Option<string>`.
- `App`: the `/analyze` endpoint.
  - `AnalyzeResponse` maps each outcome to an HTTP status and a JSON body.
  - A `TempDir` class keeps the set of files in the temporary directory. Its `Analyze` method writes and removes the upload's temporary file step by step, as the handler does.

"The remote model is never asked" is stated as independence: the result is the
same for every key and every remote oracle.

The table is a parameter of the pipeline functions. The lemmas about the
pipeline hold for every table that satisfies `WellFormed`: each key is its
record's symbol, one or two upper-case letters. `TableWellFormed` proves that
`elements_dict` is such a table.

**Cleanup of the temporary file**

The inner `finally` of `analyze` (app.py:58-61, "Clean up the temporary file")
deletes the upload's temporary file on every exit from the inner `try`. But the
save at app.py:25 runs before that `try` begins (app.py:23-28). So when
`image_file.save` fails, the file that `NamedTemporaryFile(delete=False)` created is
left behind, and the response is the outer 500. The model follows the code: see
`App.FilesAfter` and `App.TempDir.Analyze`.

## Model

| member | source | states |
|---|---|---|
| PyText.IsSpace | Chatnot.py:144 | `str.isspace()` on one ASCII character: tab, line feed, vertical tab, form feed, carriage return, the separators 0x1C-0x1F and space |
| PyText.TrimStart | Chatnot.py:144 | the leading-whitespace cut of `strip`: a suffix of the input, only whitespace removed, and it starts with a non-space |
| PyText.TrimEnd | Chatnot.py:144 | the trailing-whitespace cut of `strip`: a prefix, only whitespace removed, and it ends in a non-space |
| PyText.Strip | Chatnot.py:144 | `s.strip()` is a slice of `s` with only whitespace cut off each end and no whitespace left at either end |
| PyText.StripsToUnique | Chatnot.py:144 | at most one string meets the `strip` specification, so it determines the result |
| PyText.StripBounds | Chatnot.py:144 | the cut points of a strip are the first and one past the last non-whitespace positions |
| PyText.StripsToIntro | Chatnot.py:144 | position-wise facts about the cut points establish the `strip` specification |
| PyText.StripOfStripped | Chatnot.py:175 | a string with no whitespace at its ends is its own `strip()` |
| PyText.StripIdempotent | Chatnot.py:175 | `strip()` applied twice equals `strip()` once |
| PyText.StripStripped | Chatnot.py:144 | the result of `strip()` has no whitespace at either end |
| PyText.StripEmptyIff | Chatnot.py:144 | `strip()` gives the empty string exactly when the input is all whitespace |
| PyText.StripShorter | Chatnot.py:144 | `strip()` never makes a string longer |
| PyText.Upper | Chatnot.py:175 | `upper()` keeps the length, maps each character through ASCII upper-casing, and leaves no lower-case letter |
| PyText.UpperOf | Chatnot.py:175 | any string equal character by character to the upper-cased input is `Upper` of it |
| PyText.UpperIdempotent | Chatnot.py:175 | upper-casing twice equals upper-casing once |
| PyText.UpperKeepsStrip | Chatnot.py:175 | upper-casing both sides preserves the `strip` relation |
| PyText.UpperKeepsStripped | Chatnot.py:175 | upper-casing a string without outer whitespace leaves it without outer whitespace |
| PyText.StripUpperCommute | Chatnot.py:175 | stripping and upper-casing commute |
| PyText.Join | Chatnot.py:144 | `" ".join(parts)`: empty for no parts; its length is the parts' total length plus one separator between neighbours; it starts with the first part |
| PyText.JoinAllSpace | Chatnot.py:144 | with a whitespace separator, the join is all whitespace exactly when every part is |
| ElementTable.Entries | Chatnot.py:15-94 | the 80 key/record pairs of the `elements_dict` literal, in source order |
| ElementTable.Table | Chatnot.py:14-95 | `elements_dict`: the map Python builds from those pairs |
| ElementTable.DictOf | Chatnot.py:14-95 | a dict literal's map: every key of the pairs is in it, and each entry comes from some pair with that key |
| ElementTable.DictOfLast | Chatnot.py:14-95 | a key with no later pair for it maps to its pair's record |
| ElementTable.Row0WellFormed | Chatnot.py:15-24 | entries H..NE: ten pairs with distinct keys, each key its record's symbol, atomic numbers 1..10 |
| ElementTable.Row1WellFormed | Chatnot.py:25-34 | entries NA..CA: the same, numbers 11..20 |
| ElementTable.Row2WellFormed | Chatnot.py:35-44 | entries SC..ZN: the same, numbers 21..30 |
| ElementTable.Row3WellFormed | Chatnot.py:45-54 | entries GA..ZR: the same, numbers 31..40 |
| ElementTable.Row4WellFormed | Chatnot.py:55-64 | entries NB..SN: the same, numbers 41..50 |
| ElementTable.Row5WellFormed | Chatnot.py:65-74 | entries SB..ND: the same, numbers 51..60 |
| ElementTable.Row6WellFormed | Chatnot.py:75-84 | entries PM..YB: the same, numbers 61..70 |
| ElementTable.Row7WellFormed | Chatnot.py:85-94 | entries LU..OG: the same, numbers 71..79 and then 118 |
| ElementTable.RowsApart0 | Chatnot.py:15-44 | rows 0, 1 and 2 (H..ZN) share no key with one another |
| ElementTable.RowsApart1 | Chatnot.py:15-54 | row 3 shares no key with rows 0-2 |
| ElementTable.RowsApart2 | Chatnot.py:15-64 | row 4 shares no key with rows 0-2 |
| ElementTable.RowsApart3 | Chatnot.py:15-74 | row 4 shares no key with row 3, and row 5 none with rows 0 and 1 |
| ElementTable.RowsApart4 | Chatnot.py:35-74 | row 5 shares no key with rows 2-4 |
| ElementTable.RowsApart5 | Chatnot.py:15-84 | row 6 shares no key with rows 0-2 |
| ElementTable.RowsApart6 | Chatnot.py:45-84 | row 6 shares no key with rows 3-5 |
| ElementTable.RowsApart7 | Chatnot.py:15-94 | row 7 shares no key with rows 0-2 |
| ElementTable.RowsApart8 | Chatnot.py:45-94 | row 7 shares no key with rows 3-5 |
| ElementTable.RowsApart9 | Chatnot.py:75-94 | row 7 shares no key with row 6 |
| ElementTable.EntriesWellFormed | Chatnot.py:15-94 | the literal has 80 pairs; each key is its record's symbol and of symbol shape, and the atomic numbers run 1..79 then 118 |
| ElementTable.EntryKeysDistinct | Chatnot.py:15-94 | no key is repeated in the literal, so no pair is overridden |
| ElementTable.TableKeysAreSymbols | Chatnot.py:15-94 | every key of `elements_dict` equals its record's `symbol` and is one or two upper-case ASCII letters |
| ElementTable.TableAtomicNumbers | Chatnot.py:15-94 | every atomic number in the table lies in 1..79 or is 118, and no two symbols share one |
| ElementTable.TableCoversNumbers | Chatnot.py:15-94 | each of 1..79 and 118 is the atomic number of some symbol in the table |
| ElementTable.TableWellFormed | Chatnot.py:14-95 | `elements_dict` satisfies the invariant every lookup relies on |
| ElementTable.Lookup | Chatnot.py:178-180 | the lookup finds a record exactly when the symbol is a key, and returns that key's record. In a well-formed table: the record's symbol is the looked-up symbol, and a text not of symbol shape is never found |
| ElementTable.LookupIron | Chatnot.py:40 | "FE" maps to Iron, atomic number 26 |
| Chatnot.ExtractText | Chatnot.py:141-146 | fails exactly when the OCR stage failed, with the wrapped message; zero fragments give exactly the sentinel; otherwise the result is the `strip` of the fragments joined by spaces; every success has no outer whitespace |
| Chatnot.ExtractedEmptyIff | Chatnot.py:141-144 | the extracted text is empty exactly when there is at least one fragment and every fragment is whitespace |
| Chatnot.HasKey | Chatnot.py:152 | the truth test `not api_key`: an absent key and the empty string both count as missing |
| Chatnot.Prompt | Chatnot.py:181 | the prompt: "Please provide detailed information about the element: " followed by the element's name |
| Chatnot.ChatWithGemini | Chatnot.py:148-162 | an absent or empty key fails with the fixed message; a remote failure is wrapped; a reply is returned stripped |
| Chatnot.NoKeyNoRemoteCall | Chatnot.py:150-153 | without a key the outcome is the missing-key error for every remote oracle: the model is not called |
| Chatnot.NormaliseSymbol | Chatnot.py:175 | the normalised symbol is no longer than the text, has no outer whitespace and contains no lower-case letter |
| Chatnot.NormaliseIdempotent | Chatnot.py:175 | normalising twice equals normalising once |
| Chatnot.NormaliseIgnoresCase | Chatnot.py:175 | texts that differ only in letter case normalise to the same symbol |
| Chatnot.GetElementDetails | Chatnot.py:164-189 | only an OCR failure escapes, with the wrapped OCR message; every other path returns a string |
| Chatnot.DetailsFor | Chatnot.py:169-189 | what `get_element_details` returns for the extracted text: the no-symbol message for empty text, and the not-found message naming the normalised symbol when that symbol is not a key |
| Chatnot.LookupAndAsk | Chatnot.py:178-189 | a symbol that is not a key gives the not-found message. For a key, the prompt for its record's name is sent: a missing key gives the wrapped missing-key error, a remote failure the wrapped remote error, and a reply is returned with only its outer whitespace removed |
| Chatnot.BlankFragmentsNoSymbol | Chatnot.py:169-170 | fragments that are all whitespace give `Ok("No element symbol detected in the image.")`, whatever the table, key and remote model |
| Chatnot.EmptyTextNoLookup | Chatnot.py:169-170 | empty extracted text gives "No element symbol detected in the image." for every table, key and remote model |
| Chatnot.NotFoundNeverAsks | Chatnot.py:188-189 | a symbol not in the table gives the not-found message naming the normalised symbol. The answer is the same for every key and every remote model |
| Chatnot.FoundAsksOnlyItsPrompt | Chatnot.py:180-184 | for a found symbol, the result depends on the remote model only through its reply to `"Please provide detailed information about the element: " + name` |
| Chatnot.FoundOutcomes | Chatnot.py:180-187 | a found symbol yields one of three results: the stripped reply; or "Error while getting data from Gemini: " plus the missing-key message; or that prefix plus the wrapped remote error |
| Chatnot.DetailsIgnoreCase | Chatnot.py:175-178 | texts differing only in letter case get the same result |
| Chatnot.LongSymbolNotFound | Chatnot.py:188-189 | in a well-formed table, a symbol longer than two characters is reported as not found |
| Chatnot.NormalisedSentinel | Chatnot.py:175 | normalising the sentinel only upper-cases it, leaving 30 characters |
| Chatnot.SentinelSpelledOut | Chatnot.py:142 | the upper-cased sentinel is exactly "NO TEXT DETECTED IN THE IMAGE." |
| Chatnot.NotFoundIsNotNoSymbol | Chatnot.py:170 | a not-found message never equals "No element symbol detected in the image." |
| Chatnot.SentinelEndsNotFound | Chatnot.py:164-189 | zero OCR fragments end as "Element symbol '<normalised sentinel>' not found in the dictionary." for every key and remote model; with `SentinelSpelledOut` that is "Element symbol 'NO TEXT DETECTED IN THE IMAGE.' not found in the dictionary." |
| App.ElementLabel | app.py:49 | the `element` field: the record's name, then its symbol in parentheses |
| App.InnerBody | app.py:28-56 | the inner body is either an error object or an element/details object; an OCR failure gives "Error processing image: " plus the wrapped OCR message |
| App.SymbolBody | app.py:38-53 | the body for a normalised symbol is either an error object or an element/details object |
| App.AnalyzeResponse | app.py:14-64 | status 400 with "No image provided" exactly when there is no image field. Status 500 with "Server error: " plus the message exactly when creating or saving the temporary file failed. Otherwise status 200 with the inner body |
| App.FilesAfter | app.py:23-61 | only the temporary path can change. No file is created without an image or when `NamedTemporaryFile` fails. A failed save leaves the file behind. A successful save ends with the file removed, so a fresh path leaves the directory as it was |
| App.TempDir.Analyze | app.py:14-64 | the method's response is `AnalyzeResponse` and its directory is `FilesAfter`. Every response other than 500 leaves the directory unchanged |
| App.FoundSymbolBody | app.py:38-51 | a found symbol gives one of three bodies: `{"element": name + " (" + symbol + ")", "details": stripped reply}`; or "Error processing image: " plus the missing-key message; or that prefix plus the wrapped remote error |
| App.NotInDatabaseNeverAsks | app.py:52-53 | a symbol not in the table gives "Element symbol '<S>' not found in our database", the same for every key and remote model |
| App.BlankFragmentsBody | app.py:31-32 | whitespace-only fragments give the no-symbol error body |
| App.LongSymbolNotInDatabase | app.py:52-53 | in a well-formed table, a symbol longer than two characters gets the not-in-database body |
| App.SentinelNotInDatabase | app.py:29-53 | zero OCR fragments end as the not-in-database body for the upper-cased sentinel |
| App.SymbolAgreesWithCli | app.py:38-51 | for a normalised symbol, the endpoint's `details` field is what `get_element_details` returns |
| App.AgreesWithCli | app.py:28-56 | whenever the endpoint has a `details` field, the command line returns exactly it; an OCR failure that escapes the command line becomes "Error processing image: " plus its message |

## Left out

- `capture_image_from_webcam` (Chatnot.py:97-122): camera and window I/O in a loop that waits for a key press.
- Image loading and greyscale conversion with OpenCV, and recognition with EasyOCR (Chatnot.py:11, 126-139). They become the `OcrOutcome` oracle. Its failure message stands for `str(e)` of whatever these raised, including the missing-file and undecodable-image errors.
- The Gemini call itself (Chatnot.py:157-159), which is a remote network service. It becomes the `Remote` oracle, a function of the prompt alone; model name and configuration are fixed.
- The environment lookup `os.getenv` and the `.env` loading: the key is a parameter.
- Flask routing, `render_template`, `jsonify` and `request.files`: the image field is a boolean and JSON bodies are string maps.
- Which exception `NamedTemporaryFile` or `image_file.save` raises: it becomes the `Persist` outcome.
- `App.AnalyzeResponse`, `App.TempDir.Analyze`: an `os.unlink` failure in the `finally` (app.py:60-61) is not modelled. It would give status 500 "Server error: ..." even though the save succeeded, so the model's "500 exactly when creating or saving failed" leaves that case out. The `exists` check and the removal are one step, with no concurrent change to the directory.
- The debug `print` (Chatnot.py:172) and both `__main__` blocks (Chatnot.py:192-203, app.py:66-74).
- `PyText.Strip`, `PyText.Upper`: only ASCII. Unicode whitespace and case mappings (for example `"ß".upper() == "SS"`) are not modelled.
