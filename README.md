# LegalEase, modelled in Dafny

LegalEase is a React client over a small FastAPI server. Its users upload a legal
document, and the application then summarises it, explains its clauses and
answers questions about it through a generative-AI client. This project models
the deterministic core of both sides.

**Client.**
- The locale layer: `t` with its three-step lookup and `{name}` substitution,
  the initial load, `changeLanguage`, the language class and the
  supported-language list (module `Locale`, table in `Translations`).
- The response normaliser of the API layer (`Api`).
- The upload widget (`FileUploadWidget`), the language selector
  (`LanguageSelectorWidget`) and the theme provider (`Theme`).
- The three pages: the analysis page (`SummaryPage`), the chat page
  (`ChatPage`) and the clauses page (`ClausesPage`).

**Server.**
- Clause splitting and excerpt retrieval (`Utils`).
- Language detection, prompt selection, the upload checks, the document
  store with its 404 guards, the clause loop and the CORS origin list (`Server`).
- The AI client's mock dispatch and its `mock`/`_initialized` flags (`Vertex`).

`Session` connects the two sides. It covers a server reply as the client
receives it, the upload and summarize round trips, and what both sides make of
one file name or one prompt.

Imperative code is modelled imperatively:
- React components and the server's store and AI client are classes whose
  methods change the fields the source changes.
- `localStorage` is one shared `Browser.LocalStorage` object.
- Each `async` handler is split at its `await`: `...Start` runs up to the
  network call and returns the request it sends; `...Complete` receives the
  call's outcome.
- `LanguageProvider` receives the `translations` object it reads as a
  constructor argument (`Translations.Table` in the app).
- Loops are `for`/`while` loops with invariants, each proved against a
  specification function: `Utils.SplitIntoClauses`,
  `Utils.BestStart` (the scan of `Utils.SimpleRetrieveContext`), `Server.DocStore.ExplainChunks` and
  `Locale.TranslateInOrder`.

Everything outside the program is an explicit input:
- the network appears as `Api.Response` values;
- the AI SDK is a `Vertex.Sdk`: the outcome of `vertexai_init` and, for each prompt, a `Vertex.SdkOutcome`;
- the regular-expression split in `split_into_clauses` is a function from text to parts;
- the file parsers' result is a `Server.Extraction`;
- the new document id is a parameter known to be fresh;
- the browser's object URLs and `matchMedia` answers are parameters.

## Model

| member | source | states |
|---|---|---|
| Locale.Lookup | frontend/src/contexts/LanguageContext.jsx:488 | the current catalog's non-empty entry wins, else the non-empty `en` entry, else the key itself |
| Locale.LookupOrigin | frontend/src/contexts/LanguageContext.jsx:488 | the template `t` starts from is the key or a non-empty text of the current or the `en` catalog |
| Locale.Expand | frontend/src/contexts/LanguageContext.jsx:492 | a replacement value without `$` is inserted verbatim |
| Locale.ReplaceFirst | frontend/src/contexts/LanguageContext.jsx:492 | with no occurrence the text is unchanged; otherwise only the first occurrence is replaced |
| Locale.Substitute | frontend/src/contexts/LanguageContext.jsx:491-493 | with no parameters the template comes back unchanged |
| Locale.TranslateInOrder | frontend/src/contexts/LanguageContext.jsx:487-496 | the `forEach` loop over the parameters yields exactly `Translate`: the lookup, then one first-occurrence replacement per parameter, in key order |
| Locale.SubstituteAbsent | frontend/src/contexts/LanguageContext.jsx:491-493 | parameters whose placeholders do not occur leave the text unchanged |
| Locale.SubstituteOne | frontend/src/contexts/LanguageContext.jsx:492 | one parameter fills the first occurrence of its placeholder and nothing else |
| Locale.FirstOccurrenceOnly | frontend/src/contexts/LanguageContext.jsx:492 | of `{n}/{n}` with `n = 1`, only the first placeholder is filled |
| Locale.KeepsUnfilledPlaceholder | frontend/src/contexts/LanguageContext.jsx:491-493 | a placeholder missing from the parameters stays in the output |
| Locale.UnknownLanguageIsBaseline | frontend/src/contexts/LanguageContext.jsx:488 | under a language with no catalog, every key resolves exactly as under `en` |
| Locale.MissingKeyIsBaseline | frontend/src/contexts/LanguageContext.jsx:488 | a key the current catalog lacks resolves as under `en` |
| Locale.SpanishNameUnderMarathi | frontend/src/contexts/LanguageContext.jsx:394-459 | under `mr`, `language.spanish` resolves to the English text `Español` |
| Translations.MarathiLacksSpanishName | frontend/src/contexts/LanguageContext.jsx:394-459 | the `mr` catalog has no `language.spanish` entry |
| Translations.EnglishNamesSpanish | frontend/src/contexts/LanguageContext.jsx:78 | the `en` catalog maps `language.spanish` to `Español` |
| Locale.LanguageClass | frontend/src/contexts/LanguageContext.jsx:499-505 | `hindi-text` for `hi`, `marathi-text` for `mr`, `''` for every other code |
| Locale.LanguageProvider.constructor | frontend/src/contexts/LanguageContext.jsx:469-470 | the state starts as `en`, left-to-right, over the catalogs it is given |
| Locale.LanguageProvider.LoadSaved | frontend/src/contexts/LanguageContext.jsx:472-479 | the language becomes the stored non-empty value or `en`; `isRTL` is derived by the same rule as in `changeLanguage` |
| Locale.LanguageProvider.ChangeLanguage | frontend/src/contexts/LanguageContext.jsx:481-485 | any code is taken unvalidated; `isRTL` holds iff it is `ar` or `he`; the code is stored under `legalease_language` and no other key changes |
| Locale.IsRtl | frontend/src/contexts/LanguageContext.jsx:478-483 | a code is right-to-left iff it is `ar` or `he`, so none of the offered languages is |
| Locale.LanguageProvider.T | frontend/src/contexts/LanguageContext.jsx:487-496 | `t` resolves through the provider's own catalogs and language: with no parameters it is the lookup; a language without a catalog, or a key its catalog lacks, translates exactly as under `en` |
| Api.DefaultDetail | frontend/src/lib/api.js:10 | each endpoint's default error message is non-empty |
| Api.ErrorDetail | frontend/src/lib/api.js:11 | the body's non-empty `detail`, else the endpoint default, also when the body is not JSON |
| Api.Normalize | frontend/src/lib/api.js:9-16 | the call succeeds iff the status is ok and the body parses, and then returns the body unchanged; a non-ok status gives an error carrying that status |
| Api.ErrorStatusIsHttpStatus | frontend/src/lib/api.js:13 | an error has a status exactly when the server answered non-ok; then its message is the detail and is never empty |
| Api.UnparseableErrorBody | frontend/src/lib/api.js:11 | an unparseable error body yields the default message with the HTTP status, not a parse failure |
| FileUploadWidget.LowerKeepsDots | frontend/src/components/FileUpload.jsx:26 | lowercasing neither adds nor removes a `.` |
| FileUploadWidget.Extension | frontend/src/components/FileUpload.jsx:26 | the extension holds no `.` and is the end of the lowered name after its last `.`; a name without `.` gives the whole lowered name |
| FileUploadWidget.ListedEndings | frontend/src/components/FileUpload.jsx:26 | a listed extension that ends the lowered name after its last `.` is the name's extension |
| FileUploadWidget.IsSupported | frontend/src/components/FileUpload.jsx:25-28 | a file passes iff its lowered name is one of the nine listed extensions or ends in `.` followed by one |
| FileUploadWidget.FormatsLiteral | frontend/src/components/FileUpload.jsx:29 | `supportedExtensions.join(', ')` is the text `pdf, doc, docx, jpg, jpeg, png, bmp, tiff, gif` |
| FileUploadWidget.UnsupportedToast | frontend/src/components/FileUpload.jsx:29 | an error toast with key `upload.unsupported` and one `formats` parameter that names every listed extension and is exactly `pdf, doc, docx, jpg, jpeg, png, bmp, tiff, gif` |
| FileUploadWidget.BareExtensionPasses | frontend/src/components/FileUpload.jsx:25-28 | the dot-less name `pdf` passes the allow-list |
| FileUploadWidget.FileUpload.constructor | frontend/src/components/FileUpload.jsx:10-13 | no preview, no live URL, not loading, no name |
| FileUploadWidget.FileUpload.RestoreName | frontend/src/components/FileUpload.jsx:15-18 | a stored non-empty file name is shown; otherwise nothing changes |
| FileUploadWidget.FileUpload.SelectStart | frontend/src/components/FileUpload.jsx:20-47 | no file does nothing; an extension outside the list gives the unsupported toast with no upload, no loading and no change; a supported file revokes the old preview URL before storing the new one, so at most one URL is live; then loading starts and the file is sent |
| FileUploadWidget.FileUpload.SelectComplete | frontend/src/components/FileUpload.jsx:48-62 | on success both keys are stored, the name is shown and `onUploaded(doc_id)` is called; on a non-ok or unparseable response only the error toast appears; loading ends false either way |
| FileUploadWidget.FileUpload.Remove | frontend/src/components/FileUpload.jsx:66-79 | removes both keys, clears the name, calls `onUploaded(null)`, and revokes and clears the preview |
| LanguageSelectorWidget.Find | frontend/src/components/LanguageSelector.jsx:11 | the first option with the code, or none when no option has it |
| LanguageSelectorWidget.CurrentLanguage | frontend/src/components/LanguageSelector.jsx:11 | the option whose code is the language when one exists, otherwise the first option; always an offered option |
| LanguageSelectorWidget.UnofferedShowsEnglish | frontend/src/components/LanguageSelector.jsx:11 | under `es` the selector shows English |
| LanguageSelectorWidget.LanguageSelector.Toggle | frontend/src/components/LanguageSelector.jsx:32 | the button flips `isOpen` |
| LanguageSelectorWidget.LanguageSelector.MouseDown | frontend/src/components/LanguageSelector.jsx:14-18 | a mousedown outside closes the dropdown; one inside leaves it |
| LanguageSelectorWidget.LanguageSelector.Choose | frontend/src/components/LanguageSelector.jsx:24-27 | the language becomes the chosen option's code (always `en`, `hi` or `mr`), is stored, is what the selector then shows, and the dropdown closes |
| Theme.InitialTheme | frontend/src/theme/ThemeProvider.jsx:5-15 | always `light` or `dark`; a stored `light`/`dark` wins; otherwise the OS preference; no window or an exception gives `light` |
| Theme.Toggled | frontend/src/theme/ThemeProvider.jsx:40 | `dark` becomes `light`, anything else `dark` |
| Theme.ToggleTwice | frontend/src/theme/ThemeProvider.jsx:40 | toggling twice is the identity on `light` and `dark` |
| Theme.ToggleTwiceOther | frontend/src/theme/ThemeProvider.jsx:40 | any other value toggles twice to `light` |
| Theme.ThemeProvider.constructor | frontend/src/theme/ThemeProvider.jsx:18-25 | the initial theme from storage and preference, then the effect: stored and shown |
| Theme.ThemeProvider.ApplyEffect | frontend/src/theme/ThemeProvider.jsx:20-25 | the stored theme equals `theme`, and the root has `dark` iff dark and `light` iff light |
| Theme.ThemeProvider.SetTheme | frontend/src/theme/ThemeProvider.jsx:18-25 | the new theme is stored and shown |
| Theme.ThemeProvider.ToggleTheme | frontend/src/theme/ThemeProvider.jsx:40 | the theme toggles and is stored and shown |
| Theme.ThemeProvider.MediaChange | frontend/src/theme/ThemeProvider.jsx:29-32 | changes the theme only when nothing is stored; once the effect has run it is a no-op |
| SummaryPage.Summary.constructor | frontend/src/pages/Summary.jsx:12-24 | the `useState` defaults |
| SummaryPage.Summary.RestoreDocId | frontend/src/pages/Summary.jsx:30-33 | a stored non-empty id becomes the document |
| SummaryPage.Summary.OnUploaded | frontend/src/pages/Summary.jsx:144 | a new id replaces the document; summary, clauses and transcript are kept |
| SummaryPage.Summary.SetQuestion | frontend/src/pages/Summary.jsx:292 | the input's value becomes the question and nothing else changes |
| SummaryPage.Summary.SummarizeStart | frontend/src/pages/Summary.jsx:35-39 | with no document: the `common.uploadFirst` toast and no change; otherwise loading and a request carrying the id and the current language |
| SummaryPage.Summary.SummarizeComplete | frontend/src/pages/Summary.jsx:39-58 | success sets the summary and overwrites the detected language only when one is given; 404 removes the stored id and forgets the document; 500 and other errors keep it; loading ends false |
| SummaryPage.Summary.ExplainStart | frontend/src/pages/Summary.jsx:61-65 | with no document: the toast and no change; otherwise loading and the request |
| SummaryPage.Summary.ExplainComplete | frontend/src/pages/Summary.jsx:65-71 | success gives the server's list in its order, or `[]`; failure keeps the old list; loading ends false |
| SummaryPage.Summary.AskStart | frontend/src/pages/Summary.jsx:74-82 | with no document: the toast and no change; a blank question changes nothing; otherwise exactly one user turn (the trimmed question) is appended and the input is cleared before the call |
| SummaryPage.Summary.AskComplete | frontend/src/pages/Summary.jsx:82-88 | success appends one assistant turn at the end; failure appends none; earlier turns are untouched |
| SummaryPage.Summary.AskWhilePending | frontend/src/pages/Summary.jsx:293-295 | Enter while a call is pending appends a second user turn and sends a second request |
| SummaryPage.Headline | frontend/src/pages/Summary.jsx:215 | the summary's first line: a prefix with no line break, ending where the first break is |
| SummaryPage.Bullets | frontend/src/pages/Summary.jsx:217 | at most three bullets, none holding a line break |
| SummaryPage.HeadlineThenBullets | frontend/src/pages/Summary.jsx:215-217 | the headline followed by the bullets, rejoined with line breaks, is a prefix of the summary, and the whole summary when it has at most three lines after the first |
| SummaryPage.Capitalize | frontend/src/pages/Summary.jsx:193 | the first character upper-cased, the rest unchanged |
| SummaryPage.AnalysisLabel | frontend/src/pages/Summary.jsx:190-196 | a known non-English language is named; otherwise the generic description |
| ChatPage.Chat.constructor | frontend/src/pages/Chat.jsx:8-11 | the `useState` defaults |
| ChatPage.Chat.RestoreDocId | frontend/src/pages/Chat.jsx:13-16 | a stored non-empty id becomes the document |
| ChatPage.Chat.SetQuestion | frontend/src/pages/Chat.jsx:83 | the input's value becomes the question and nothing else changes |
| ChatPage.Chat.AskStart | frontend/src/pages/Chat.jsx:18-26 | with no document: a toast and no change; a blank question is ignored; otherwise the trimmed question is appended, the input cleared, and the request carries the default `en` |
| ChatPage.Chat.AskComplete | frontend/src/pages/Chat.jsx:26-32 | success appends exactly one assistant turn; failure appends none; loading ends false |
| ClausesPage.BadgeColorOf | frontend/src/pages/Clauses.jsx:9-12 | red iff 🔴 occurs; amber iff 🟡 without 🔴; emerald iff only 🟢; slate iff none |
| ClausesPage.BadgeLabel | frontend/src/pages/Clauses.jsx:13 | the text before the first `—`, or the whole text |
| ClausesPage.Clauses.constructor | frontend/src/pages/Clauses.jsx:17-19 | the `useState` defaults |
| ClausesPage.Clauses.RestoreDocId | frontend/src/pages/Clauses.jsx:21-24 | a stored non-empty id becomes the document |
| ClausesPage.Clauses.ExplainStart | frontend/src/pages/Clauses.jsx:26-30 | with no document only a toast; otherwise loading and a request with the default `en` |
| ClausesPage.Clauses.ExplainComplete | frontend/src/pages/Clauses.jsx:30-36 | success gives the server's list or `[]`; failure keeps the items; loading ends false |
| Utils.Kept | backend/utils.py:14-16 | there are no more kept parts than parts |
| Utils.KeptAppend | backend/utils.py:14-16 | keeping distributes over concatenation: the parts are kept one by one, in order |
| Utils.KeptSingle | backend/utils.py:14-16 | one part is kept as its stripped form exactly when that is non-empty, and dropped otherwise |
| Utils.KeptComplete | backend/utils.py:14-16 | the stripped form of every part that does not strip to empty is kept |
| Utils.KeptSound | backend/utils.py:14-16 | every kept part is the non-empty stripped form of some part |
| Utils.KeptMembers | backend/utils.py:14-16 | a text is kept iff it is the non-empty stripped form of some part |
| Utils.KeptStripped | backend/utils.py:14-16 | every kept part is stripped: non-empty, with no whitespace at either end |
| Utils.GreedyProperties | backend/utils.py:13-25 | the runs partition the kept parts in order; no run is empty; a run of two or more parts has summed length ≤ `max_len`; each run plus the next run's first part exceeds `max_len`; every clause is the space-join of its run and non-empty |
| Utils.NoEmptyClause | backend/utils.py:26 | the final filter removes nothing |
| Utils.OversizeAlone | backend/utils.py:17-23 | a part longer than `max_len` forms a clause of its own |
| Utils.SplitIntoClauses | backend/utils.py:7-26 | the loop with `current`, `current_len` and `clauses` computes exactly the greedy clauses of the kept parts |
| Utils.Words | backend/utils.py:31 | every word is a non-empty run of word characters |
| Utils.WordsAreRuns | backend/utils.py:31 | every word occurs in the text as a maximal run: at some position, bounded on each side by the text's end or a non-word character |
| Utils.WordsCover | backend/utils.py:31 | every word character of the text lies inside one of those runs |
| Utils.Keywords | backend/utils.py:31 | every keyword is longer than 3 characters |
| Utils.LongWordsAppend | backend/utils.py:31 | the length filter distributes over concatenation, so keywords keep the words' order |
| Utils.LongWordsMembers | backend/utils.py:31 | a text is kept by the filter iff it is the lowered form of some word longer than 3 characters |
| Utils.KeywordsMembers | backend/utils.py:31 | a keyword is exactly the lowered form of a word of the question longer than 3 characters |
| Utils.BestStart | backend/utils.py:35-43 | the scan keeps the first window start whose score is the highest of all starts |
| Utils.FirstBestUnique | backend/utils.py:38-43 | there is only one first start reaching the best score |
| Utils.SimpleRetrieveContext | backend/utils.py:29-44 | a contiguous slice of the text of length ≤ `window`; with no keywords `text[:window]`; otherwise the window at the first multiple of 50 (below `max(1, len - 50)`) with the highest score |
| Server.CountScript | backend/main.py:80-84 | the count is zero iff no character of the script occurs |
| Server.DetectLanguage | backend/main.py:77-101 | `unknown` iff no counted character; otherwise russian, arabic, chinese, japanese in that order, each winning when its count exceeds 0.3 × the Latin count; else english |
| Server.LatinOnlyIsEnglish | backend/main.py:92-101 | a text with Latin letters and no other counted script is english |
| Server.GetLanguagePrompts | backend/main.py:104-123 | always has `summarize`, `clauses` and `qa`; `hi` and `mr` get their own three prompts; any other code gets the three English ones |
| Server.SummarizePrompt | backend/main.py:252 | the instruction, a blank line, then the document, and nothing else |
| Server.ClausePrompt | backend/main.py:271 | the instruction, a blank line, `Clause:` on its own line, then the clause, and nothing else |
| Server.QaPrompt | backend/main.py:289 | the instruction, a blank line, `Excerpt:` and the excerpt, a blank line, `Question: ` and the question, then `Answer:` on the last line |
| Server.UploadExtension | backend/main.py:217 | the lowered text after the last `.`; `''` for a name without `.` |
| Server.BareNameRefused | backend/main.py:217-223 | a name without `.` is refused |
| Server.DocStore.constructor | backend/main.py:64 | the store starts empty |
| Server.DocStore.Fetch | backend/main.py:246-248 | a text exactly when the id is present and its text is non-empty |
| Server.DocStore.Upload | backend/main.py:213-241 | 400 for an extension outside the list, before extraction; a parser failure passes through as 500; empty text is 400 and never stored; on success only the new id is added, mapped to the text, and the reply gives id, length, extension and detected language |
| Server.DocStore.Summarize | backend/main.py:244-256 | 404 with the client untouched unless the id holds a text; otherwise the summary is exactly what `generate_text` returns for the summarise prompt of that text in that language, the client's flags are what that call leaves, and no detected language is sent; in mock mode it is the canned reply to that prompt |
| Server.DocStore.Clauses | backend/main.py:259-275 | 404 with the client untouched unless the id holds a text; otherwise the reply is exactly the clause loop over the text's chunks in that language, and the client's flags are what the loop leaves |
| Server.DocStore.ExplainChunks | backend/main.py:268-273 | the `for` loop yields `ExplainAll`: one `generate_text` call per chunk, in order, each on the flags the previous call left |
| Server.ExplainAll | backend/main.py:268-275 | one entry per chunk |
| Server.ExplainAllClauses | backend/main.py:273 | entry `k` carries chunk `k` as its clause |
| Server.ExplainAllMock | backend/main.py:270-273 | in mock mode every analysis is the canned reply to its chunk's prompt and the flags do not change |
| Server.ExplainAllFlags | backend/main.py:270-272 | across the loop `mock` is never reset, `_initialized` is never reset, and the two never both become set |
| Server.DocStore.Qa | backend/main.py:278-291 | 404 with the client untouched unless the id holds a text; otherwise the context is `simple_retrieve_context` with window 800: the first 800 characters when the question has no keyword, else the 800-character window at the first best start; the answer is exactly what `generate_text` returns for the question prompt built on that context, and the client's flags are what that call leaves |
| Server.IssuedIdIsFound | backend/main.py:234-235 | every stored id passes the 404 guard |
| Server.StrippedEntries | backend/main.py:51 | no origin is empty |
| Server.StrippedEntriesExactly | backend/main.py:51 | an origin is listed iff it is the stripped form of some comma-separated entry and not blank |
| Server.ParseOrigins | backend/main.py:38-58 | a value stripping to `*` allows every origin; otherwise the stripped non-blank comma-separated entries |
| Vertex.MockResponseCases | backend/vertex_helper.py:71-83 | the summary text iff the prompt holds `Summarize this legal document`; the caution line iff it does not and holds `Explain this clause`; the QA line iff it holds neither and holds `Given this excerpt`; `Prototype response.` iff it holds none of the three |
| Vertex.ErrorReply | backend/vertex_helper.py:66 | starts with `[Mock due to error: ` and the message in brackets, and ends with a line break followed by the canned reply to the prompt |
| Vertex.Generate | backend/vertex_helper.py:23-66 | mock mode: the canned reply, flags unchanged; an API key or an initialised client: the SDK's reply, flags unchanged; no project: `mock` is set and the SDK still answers; a failing init: the error reply, flags unchanged; a successful init: `_initialized` is set and the SDK answers; `mock` and `_initialized` are never reset and never both become set |
| Vertex.NoTriggerJoined | backend/vertex_helper.py:72-83 | joining two trigger-free texts with a line break adds no trigger |
| Vertex.AcrossNewline | backend/vertex_helper.py:72-83 | a pattern without a line break cannot occur across one |
| Vertex.VertexClient.constructor | backend/vertex_helper.py:14-21 | `mock` iff `MOCK_AI` (default `true`) lowers to `true`; not initialised |
| Vertex.VertexClient.EnsureInit | backend/vertex_helper.py:23-32 | a no-op when initialised or in mock mode; with no project it sets `mock` and stays uninitialised; when `vertexai_init` raises, the error propagates and both flags stay false; otherwise `_initialized` is set and `mock` stays false |
| Vertex.VertexClient.GenerateText | backend/vertex_helper.py:34-69 | the reply and the new flags are exactly `Generate` of the old flags, the configuration, the prompt and the SDK |
| Session.TransmitNormalize | frontend/src/lib/api.js:9-16 | a server payload arrives unchanged; a server exception arrives as an error with its status and detail |
| Session.DotlessNameSplitsClientAndServer | backend/main.py:217-223 | a dot-less name spelling an allowed extension passes the widget's check while the server refuses it |
| Session.BarePdfSplitsClientAndServer | frontend/src/components/FileUpload.jsx:26-28 | `pdf` is such a name |
| Session.UploadRoundTrip | backend/main.py:228-241 | the widget records and reports an id exactly when the server stored a non-empty text, and that id passes the server's 404 guard |
| Session.SummarizeRoundTrip | frontend/src/pages/Summary.jsx:35-58 | against the server, the page's detected language and label never change; an unknown document is forgotten; a known one is kept and summarised |
| Session.NoStartBefore | backend/vertex_helper.py:72-83 | a text holding none of a pattern's first characters adds no occurrence in front of another text |
| Session.EnSummarizeHasNoTrigger | backend/main.py:108 | the English `summarize` instruction holds none of the three trigger phrases |
| Session.EnClausesHasNoTrigger | backend/main.py:109 | likewise the English `clauses` instruction |
| Session.EnQaHasNoTrigger | backend/main.py:110 | likewise the English `qa` instruction |
| Session.HiSummarizeHasNoTrigger | backend/main.py:113 | likewise the Hindi `summarize` instruction |
| Session.HiClausesHasNoTrigger | backend/main.py:114 | likewise the Hindi `clauses` instruction |
| Session.HiQaHasNoTrigger | backend/main.py:115 | likewise the Hindi `qa` instruction |
| Session.MrSummarizeHasNoTrigger | backend/main.py:118 | likewise the Marathi `summarize` instruction |
| Session.MrClausesHasNoTrigger | backend/main.py:119 | likewise the Marathi `clauses` instruction |
| Session.MrQaHasNoTrigger | backend/main.py:120 | likewise the Marathi `qa` instruction |
| Session.PromptsHoldNoTrigger | backend/main.py:104-123 | for every language code, none of the three instructions it selects holds a trigger phrase |
| Session.SummarizePromptFallback | backend/main.py:252 | a trigger-free instruction and a trigger-free document make a prompt the mock answers with `Prototype response.` |
| Session.ClausePromptFallback | backend/main.py:271 | likewise for a clause prompt |
| Session.MockSummarizeFallback | backend/main.py:251-254 | in mock mode, `summarize` answers `Prototype response.` in every language unless the document holds a trigger phrase |
| Session.MockClauseFallback | backend/main.py:266-272 | likewise for every clause, unless the chunk holds a trigger phrase |
| Session.MockQaFallback | backend/main.py:285-290 | likewise for the question prompt, unless the excerpt or the question holds a trigger phrase |

## Left out

- JSX rendering, animation, the clipboard, `downloadPDF` (jsPDF layout), routing, `ThemeToggle.jsx` and the Tailwind configuration: they hold no logic of the core. Toasts are recorded as the message they would show.
- `fetch`, `FormData`, `URL.createObjectURL`/`revokeObjectURL`, `matchMedia` and `classList`: each is an outcome parameter or a field (`liveUrls`, `rootDark`, `rootLight`). Resetting the file input's value is not modelled.
- The text within a document that the file parsers, OCR and their failure messages produce: it enters as `Server.Extraction`. The TESSERACT flag and the `upload_status`/`ai_status` diagnostics are not modelled.
- The Vertex/Gemini SDK calls, the rate-limit fallback model and the `run_in_executor` plumbing: the SDK's answer for a prompt is a `Vertex.SdkOutcome`, so the fallback model appears only through that outcome.
- The FastAPI and CORS middleware themselves: only the origin list they receive is modelled. The uuid4 generator is replaced by a fresh id parameter.
- The regular expression `\n\s*\n|\n\d+\.|\n- ` in `split_into_clauses`: the split is an input function from text to parts.
- `\w` in `simple_retrieve_context` is taken as ASCII letters, digits and `_`. Python's `\w` also matches Devanagari letters, so in this model a Hindi or Marathi question has no keywords and `qa` takes the document's first 800 characters.
- Lowercasing and upper-casing are ASCII-only and length-preserving in every module, so `lower()`/`toLowerCase()` and the `toUpperCase()` of `SummaryPage.Capitalize` are not modelled for other scripts.
- Python's `str.isspace` and JavaScript's `trim` use the whitespace tables written out in `Text`.
- Server.DetectLanguage: the float test `c > latin * 0.3` is the integer test `10 * c > 3 * latin`, equal for all non-negative integer counts under exact arithmetic. Binary rounding of 0.3 is not modelled.
- Utils.SimpleRetrieveContext: `window` is a natural number; a negative Python window is not modelled.
- Locale.SpanishNameUnderMarathi: takes the `mr` and `en` catalogs as inputs pinned to the source's literals, because a proof about the whole six-catalog table is beyond the solver's budget. `Translations.MarathiLacksSpanishName` and `Translations.EnglishNamesSpanish` prove the two facts about the literals themselves.
- The translated `t(...)` text of toasts is not resolved: toasts carry their key and parameters.
- Staleness discard, per-operation in-flight rejection, language validation and transcript reset are not modelled, because the source has none of them. `AskWhilePending` shows the missing guard.
