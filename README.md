# EcoScan: a Dafny model of the analysis service and the scan screens

EcoScan classifies a photographed object as reusable, recyclable or
non-recyclable. Two parts of it carry logic. The first is the `analyze-image`
edge function. It forwards an image to a language model and pulls a JSON
object out of the model's text reply. When there is no usable object, it
builds a fallback record. It then repairs three fields of the record in place
and maps each failure to an error response. The second is the React client. It
has a mock analyser that picks one of two canned results, a screen state that
keeps a scan history, a file name for the downloaded report, and the colour,
icon and preview mappings of the result and history screens.

The project has these modules:

- `JsSemantics` (`js_semantics.dfy`) covers the JavaScript semantics the code relies on:
  - JSON values, and truthiness as tested by `!x`;
  - the ToNumber reading behind `<` and `>`, including the string-to-number grammar;
  - the white-space class of `\s` and `trim`;
  - lower-casing.
- `Types` (`types.dfy`): the `ScanResult` record.
- `AnalysisService` (`analyze_image.dfy`): the edge function.
  - `AnalysisResult` is a class whose `Validate` method repairs the record in place.
  - `Serve` is the request handler. It reports whether the provider was called.
  - The provider call and `JSON.parse` are parameters.
- `EcoScanApp` (`eco_scan_app.dfy`): the mock analyser and the download file name.
  - `AppState` is a class holding the screen's state, with the capture, selection and tab handlers.
- `ScanHistory` (`scan_history.dfy`): the history screen, as a function from the history to what is shown.
- `ScanResults` (`scan_results.dfy`): the classification colour and icon, and the case-insensitive impact colour.
- `Wrappers` (`wrappers.dfy`): `Option`.

The model follows what the code does, including these points where it is
easy to assume otherwise:

- The service does not try to parse the whole reply first. It always applies
  the greedy `\{[\s\S]*\}` match, which spans from the first `{` to the last
  `}`. This is not the first balanced `{...}`.
- The client does not call the service. Its analyser is a mock over a
  two-entry catalog (bottle and jar, no aluminium can).
- A capture does not switch to the results tab.
- A confidence of 0 is replaced by 75, because the check starts with `!confidence`.
- A text confidence such as "high" survives validation, because the range
  test reads it through ToNumber and NaN fails both comparisons. A 200 body
  can therefore carry a confidence that is not a number in [0, 100]
  (`TextConfidenceKeptIff`, `NonNumericConfidenceSurvives`).

## Model

| member | source | states |
|---|---|---|
| AnalysisService.JsonMatch | supabase/functions/analyze-image/index.ts:99-100 | A match starts with `{` and ends with `}`. There is no match exactly when no `{` is followed by a `}` somewhere after it. |
| AnalysisService.JsonMatchIsFirstOpenToLastClose | supabase/functions/analyze-image/index.ts:99 | The greedy match runs from the first `{` of the text to the last `}` of the text, provided that `}` comes after the `{`. |
| AnalysisService.Excerpt | supabase/functions/analyze-image/index.ts:135 | The excerpt is at most the first 150 characters of the content followed by "...". It is 3 to 153 characters long, and exactly 153 when the content has 150 characters or more. |
| AnalysisService.FallbackContents | supabase/functions/analyze-image/index.ts:109-137 | The record `Fallback` builds has exactly the eight properties. Its name is "Detected Item", its class "non-recyclable" and its confidence 75. Its materials are ["Unknown Material"] and its impact is Medium/Medium/Low. It has the 4 fixed disposal tips and the 4 fixed reuse suggestions. It has the 3 fixed facts followed by the excerpt of the content. |
| AnalysisService.Extracted | supabase/functions/analyze-image/index.ts:93-138 | With no content (`content.match` throws) the record is the fallback for "". With no match, or a candidate that `parse` rejects, it is the fallback quoting the content. A parsed candidate is the record itself. |
| AnalysisService.ValidObjectName | supabase/functions/analyze-image/index.ts:141 | A truthy name is kept. A missing or falsy one becomes "Detected Item". The result is always truthy. |
| AnalysisService.ValidClassification | supabase/functions/analyze-image/index.ts:142-144 | One of the three spellings is kept. Anything else, including a missing value, becomes "non-recyclable". |
| AnalysisService.ValidConfidence | supabase/functions/analyze-image/index.ts:145-147 | A value that is truthy and neither below 0 nor above 100 under ToNumber is kept. Anything else becomes 75, which passes the test. |
| AnalysisService.Validated | supabase/functions/analyze-image/index.ts:140-147 | Each checked property becomes its own repair (`ValidObjectName`, `ValidClassification`, `ValidConfidence`) of its old value. So a passing property is kept even when another is repaired, and a failing one gets "Detected Item", "non-recyclable" or 75. Afterwards the three checks hold. Only the three checked properties may be added, and every other property is unchanged. A record that already passes is returned as it is. |
| AnalysisService.ValidatedIdempotent | supabase/functions/analyze-image/index.ts:141-147 | Validating twice gives the same record as validating once. |
| AnalysisService.NumericConfidenceKeptIff | supabase/functions/analyze-image/index.ts:145-147 | A numeric confidence is kept exactly when it is finite and in (0, 100]. So 0, NaN, the infinities, negatives and values above 100 become 75. |
| AnalysisService.ValidatedNumericConfidenceInRange | supabase/functions/analyze-image/index.ts:145-147 | A confidence that is a number after validation lies in (0, 100]. |
| AnalysisService.TextConfidenceKeptIff | supabase/functions/analyze-image/index.ts:145-147 | A text confidence is kept exactly when it is non-empty and reads as NaN or as a number in [0, 100]. |
| AnalysisService.NonNumericConfidenceSurvives | supabase/functions/analyze-image/index.ts:145-147 | The texts "high" and "0" survive validation. The number 0 is replaced by 75. |
| AnalysisService.AnalysisResult.constructor | supabase/functions/analyze-image/index.ts:93-101 | The object starts out holding the record it is given. |
| AnalysisService.AnalysisResult.Validate | supabase/functions/analyze-image/index.ts:141-147 | The three in-place repairs leave the object holding `Validated` of its old record. |
| AnalysisService.AnalysisBody | supabase/functions/analyze-image/index.ts:93-147 | The body of a successful response is the extracted record after validation. It always passes validation. It has the keys of the extracted record plus the three checked ones. Every other property of the extracted record is kept. |
| AnalysisService.FallbackIsValidated | supabase/functions/analyze-image/index.ts:109-112 | The fallback record passes validation unchanged. |
| AnalysisService.ProseReplyFallsBack | supabase/functions/analyze-image/index.ts:99-104 | Reply text with no `{` followed by a `}` yields the fallback record. That record names a "Detected Item" with confidence 75 and quotes the excerpt of the text. |
| AnalysisService.ParsedReplyValidated | supabase/functions/analyze-image/index.ts:100-101 | A parsed candidate keeps every property except the three checked ones. "compostable" becomes "non-recyclable", and a confidence of 120 becomes 75. |
| AnalysisService.GateRequest | supabase/functions/analyze-image/index.ts:14-26 | OPTIONS gets the empty preflight answer. An unreadable body gets a 500 with the parse error. A missing or falsy `image` gets the 400 "No image provided". Only a truthy `image` is dispatched, and it is dispatched unchanged. |
| AnalysisService.ProviderErrorMessage | supabase/functions/analyze-image/index.ts:88 | The provider's error message, or "OpenAI API error" when it is absent or empty. Never empty. |
| AnalysisService.ReplyResponse | supabase/functions/analyze-image/index.ts:84-162 | The status is 200 exactly when the reply is ok and its content path exists. The 200 body is `AnalysisBody` of the reply's content, so it passes validation. Every 500 carries "Failed to analyze image". A non-ok reply carries the provider message as `details`. A failed call and a broken content path carry their own error message. |
| AnalysisService.Respond | supabase/functions/analyze-image/index.ts:12-164 | A request the gate answers gets that answer: the preflight for OPTIONS, 400 or 500. A dispatched request gets `ReplyResponse` of the provider's reply to its image. Any status is 200, 400 or 500, and a 200 body passes validation. |
| AnalysisService.Complete | supabase/functions/analyze-image/index.ts:93-153 | Building the response with the in-place `AnalysisResult` gives exactly `ReplyResponse`. |
| AnalysisService.Serve | supabase/functions/analyze-image/index.ts:12-164 | The handler answers `Respond`. The provider is called exactly when the gate dispatches: never for OPTIONS, and never when `image` is missing or falsy (that case answers 400). When it is called, it receives the request's image. |
| Types.ParseClassification | src/components/types.ts:6 | Exactly the three spellings read as a classification, and each reads back to its own spelling. |
| Types.ClassificationNameRoundTrip | src/components/types.ts:6 | Every classification's spelling reads back as that classification. |
| JsSemantics.WordReadsAsNaN | supabase/functions/analyze-image/index.ts:145 | The text "high" reads as NaN under ToNumber. |
| JsSemantics.ZeroTextReadsAsZero | supabase/functions/analyze-image/index.ts:145 | The text "0" reads as the number 0. |
| JsSemantics.ToLowerCaseIdempotent | src/components/ScanResults.tsx:37 | Lower-casing an already lower-cased text changes nothing. |
| EcoScanApp.CatalogIndex | src/components/EcoScanApp.tsx:91 | The index is 0 or 1, and it is 0 exactly when the draw is below 0.5. |
| EcoScanApp.MockResults | src/components/EcoScanApp.tsx:30-89 | The catalog has exactly two entries. |
| EcoScanApp.AnalyzeImage | src/components/EcoScanApp.tsx:25-92 | The result is a catalog entry carrying the given image, id and timestamp. |
| EcoScanApp.AnalyzeImageIsCatalogEntry | src/components/EcoScanApp.tsx:30-91 | Whatever is drawn, the result is the Plastic Water Bottle (recyclable, 94) or the Glass Jar (reusable, 98). It has a non-empty name and a confidence in [0, 100]. |
| EcoScanApp.Slug | src/components/EcoScanApp.tsx:258 | The slug has no white space and is no longer than the text. A text without white space is its own slug. |
| EcoScanApp.SlugDrawsFromText | src/components/EcoScanApp.tsx:258 | Every character of the slug is a '-' or a character of the text. |
| EcoScanApp.SlugCollapsesRun | src/components/EcoScanApp.tsx:258 | A whole run of white space between two non-space neighbours becomes one '-'. The text on each side is slugged independently. |
| EcoScanApp.LowerSlugHasNoCapitals | src/components/EcoScanApp.tsx:258 | The slug of a lower-cased text contains no capital letter. |
| EcoScanApp.DownloadFileName | src/components/EcoScanApp.tsx:258 | The name is "ecoscan-", then the slug of the lower-cased object name, then ".json". The middle part has no white space and no capital letters. |
| EcoScanApp.AppState.constructor | src/components/EcoScanApp.tsx:17-21 | The screen starts with no image, no result and no history, not scanning, on the scan tab. |
| EcoScanApp.AppState.BeginCapture | src/components/EcoScanApp.tsx:95-96 | The image is recorded and scanning is set. Nothing else changes. |
| EcoScanApp.AppState.FinishCapture | src/components/EcoScanApp.tsx:98-114 | On success the result is shown and put first in the history. On failure the result and the history are unchanged. Either way scanning is cleared and every history entry stays well formed. |
| EcoScanApp.AppState.HandleImageCapture | src/components/EcoScanApp.tsx:94-115 | The whole handler keeps the image and ends not scanning. A successful analysis shows its result and prepends it: the history grows by one, the new result is first, and the old history follows unchanged and in order. A failed one changes neither. |
| EcoScanApp.AppState.SelectResult | src/components/EcoScanApp.tsx:284-287 | The selected history entry is shown on the results tab. The history is unchanged. |
| EcoScanApp.AppState.SetActiveTab | src/components/EcoScanApp.tsx:161 | Only the active tab changes. |
| ScanHistory.MaterialPreview | src/components/ScanHistory.tsx:84-93 | Up to 3 materials, the preview is all of them and there is no badge. Beyond 3, the preview is exactly the first 3 and the "+N more" badge shows N = the count minus 3. Preview and badge together count every material. |
| ScanHistory.EntriesFollowHistory | src/components/ScanHistory.tsx:59 | `Entries`, the `history.map`, makes one card per result, and card k is the card of result k. |
| ScanHistory.RenderShowsHistory | src/components/ScanHistory.tsx:33-98 | What `Render` shows: an empty history gives only the empty state. Otherwise the header counts the results. Card k shows result k with its material preview and its "+N more" count from `MaterialPreview`. Its badge has the colour of its classification, which is never gray. It hands that exact result to `onSelectResult`. |
| ScanResults.ClassificationColor | src/components/ScanResults.tsx:18-25 | Gray exactly for text that is not one of the three classifications. |
| ScanResults.ClassificationColorOf | src/components/ScanResults.tsx:18-25 | Reusable is green, recyclable is blue and non-recyclable is red, so no two classifications share a colour. |
| ScanResults.ClassificationIcon | src/components/ScanResults.tsx:27-34 | There is no icon exactly for text outside the three classifications. Otherwise the icon is the leaf, the recycle sign or the bin. |
| ScanResults.ImpactColor | src/components/ScanResults.tsx:36-45 | Green exactly for "low" and "very high", red for "high" and "never", yellow for "medium", and gray for everything else. All labels are compared after lower-casing. |
| ScanResults.ImpactColorCaseInsensitive | src/components/ScanResults.tsx:37 | The colour of a label equals the colour of its lower-cased form. |
| ScanResults.ImpactColorIgnoresCase | src/components/ScanResults.tsx:37 | Labels that agree up to case get the same colour. |
| ScanResults.VeryLowIsGray | src/components/ScanResults.tsx:43 | "Very Low" is allowed by the service's prompt but has no case of its own, so it is shown gray. |

## Left out

- The HTTP call to the model provider is the parameter `provider`, from the image to the reply it would give.
  - The reply keeps only its ok flag, `data.error?.message` and the `choices[0].message.content` path.
  - The prompt, the request options and the `OPENAI_API_KEY` read are not modelled.
- The Deno `serve` wrapper, the CORS headers and console logging are not modelled. `Response` keeps only the status and the body.
- `JSON.parse` is the parameter `parse`, a partial map from text to a JSON object. No JSON grammar is modelled. Because every candidate starts with `{`, a successful parse is always an object.
- `Math.random()`, `Date.now()` and `new Date().toISOString()` are inputs: the `Draw` in [0, 1), the id and the timestamp.
- The 2-second `setTimeout` and the async scheduling are not modelled.
  - `handleImageCapture` is split at its `await` into `BeginCapture` and `FinishCapture`.
  - Whether the awaited analysis resolves or throws is an input.
  - Interleaving of two overlapping captures is not modelled.
- EcoScanApp.MockResults: both entries get one id and one timestamp. The source reads the clock once per entry for each of them (`Date.now()` for the id, `new Date()` for the timestamp), so the two entries' values may differ by a millisecond. Only the chosen entry is ever returned.
- EcoScanApp.AppState.SelectResult: requires the result to be in the history. The callback itself accepts any result, but its only caller, the history list, passes one of its own entries.
- The `getClassificationColor` and `getClassificationIcon` copies in EcoScanApp.tsx (lines 129-145) and ScanHistory.tsx (lines 15-22) are identical to those in ScanResults.tsx. They are modelled once, as `ScanResults.ClassificationColor` and `ScanResults.ClassificationIcon`.
- JsSemantics.ToLowerCase: only the ASCII capitals are lowered.
  - For `ImpactColor` this is exact: the switch's labels are ASCII, and the only non-ASCII character that lowers to an ASCII letter is the Kelvin sign, which lowers to "k". No label contains a "k".
  - For `DownloadFileName` it is exact only for the object names the client can hold. Those are the two ASCII catalog names. For other text, letters outside ASCII are not lowered by the model.
- AnalysisService.Excerpt: counts characters, where `substring` counts UTF-16 code units. The two differ only for text outside the Basic Multilingual Plane.
- JsSemantics.StringToNumber: decimal literals are read as exact reals and are not rounded to doubles. So literals beyond the double range do not overflow to Infinity, and tiny ones do not underflow to 0.
- AnalysisService.TextConfidenceKeptIff, AnalysisService.ValidConfidence and AnalysisService.Validated: two kinds of text confidence are replaced by 75 in the model but kept by JavaScript. Both come from the missing rounding.
  - A negative literal whose magnitude underflows to -0, such as "-1e-400". JavaScript reads it as -0, which is not below 0.
  - A literal above 100 that rounds to exactly 100, such as "100.000000000000001".
  - Overflow changes no outcome: a literal that overflows is above 100, or below 0, in both readings.
- JsSemantics.ToNumber: objects read as NaN. That is JavaScript's answer when the object has no own `toString`: a non-callable own `valueOf` is skipped, and `Object.prototype.toString` gives "[object Object]". A JSON object with an own `toString` property makes the comparison throw a TypeError, which the handler answers with a 500. The same holds for an object with an own `toString` anywhere inside an array, at any depth, because `join` converts each element to a string and that conversion throws too. The model reads all of these as NaN: it keeps such a confidence and answers 200.
- Only a string or a missing value is modelled at the `content` path, and only a string at the provider's error message. Other JSON values there are not modelled.
- Property order in the response JSON is not modelled: objects are maps.
- JSX rendering, toasts, `navigator.share` and the Blob/URL download mechanics are not modelled. Only the file name string is modelled.
- `formatDate` is not modelled; it is locale-dependent formatting.
- ImageCapture.tsx and VoiceInput.tsx are not part of this model. They are camera and speech browser APIs with no logic of their own.
