/** The server's request handling (backend/main.py): the language guess, the
    prompt table, the upload checks and the in-memory document store with the
    404 guard of the three endpoints, the per-clause loop, and the CORS origin
    list. File parsing and OCR, the AI SDK and the web framework are outside the
    model: extraction and SDK outcomes enter as parameters. */
module Server {
  import opened Wrappers
  import opened Text
  import Utils
  import Vertex
  import Wire

  // ---------------------------------------------------------------- scripts

  /** The scripts `detect_language` counts, by their regex character classes. */
  datatype Script = Latin | Cyrillic | Arabic | Chinese | Japanese

  /** `c` is in the character class of `script`. */
  predicate InScript(script: Script, c: char) {
    match script
    case Latin => ('a' <= c <= 'z') || ('A' <= c <= 'Z')
    case Cyrillic => ('\U{0430}' <= c <= '\U{044F}') || ('\U{0410}' <= c <= '\U{042F}')
    case Arabic => '\U{0600}' <= c <= '\U{06FF}'
    case Chinese => '\U{4E00}' <= c <= '\U{9FFF}'
    case Japanese => ('\U{3040}' <= c <= '\U{309F}') || ('\U{30A0}' <= c <= '\U{30FF}')
  }

  /** `c` is in the class of `total_chars`: the union of the five. */
  predicate Counted(c: char) {
    InScript(Latin, c) || InScript(Cyrillic, c) || InScript(Arabic, c)
    || InScript(Chinese, c) || InScript(Japanese, c)
  }

  /** `len(re.findall(class, text))` for one script. */
  function CountScript(text: string, script: Script): (n: nat)
    ensures n <= |text|
    ensures n == 0 <==> forall i :: 0 <= i < |text| ==> !InScript(script, text[i])
    decreases |text|
  {
    if text == [] then 0
    else
      var rest := CountScript(text[1..], script);
      assert forall i :: 1 <= i < |text| ==> text[i] == text[1..][i - 1];
      (if InScript(script, text[0]) then 1 else 0) + rest
  }

  /** `total_chars`. */
  function CountTotal(text: string): (n: nat)
    ensures n == 0 <==> forall i :: 0 <= i < |text| ==> !Counted(text[i])
    decreases |text|
  {
    if text == [] then 0
    else
      var rest := CountTotal(text[1..]);
      assert forall i :: 1 <= i < |text| ==> text[i] == text[1..][i - 1];
      (if Counted(text[0]) then 1 else 0) + rest
  }

  /** `count > latin_chars * 0.3`, in integers. */
  predicate Beats(count: nat, latin: nat) {
    10 * count > 3 * latin
  }

  /** The count of `script` beats three tenths of the Latin count. */
  predicate Dominates(text: string, script: Script) {
    Beats(CountScript(text, script), CountScript(text, Latin))
  }

  /** `detect_language`: `unknown` without any counted character; otherwise
      the first of Russian, Arabic, Chinese and Japanese whose count beats
      three tenths of the Latin count, else English. */
  function DetectLanguage(text: string): (r: string)
    ensures r in {"unknown", "russian", "arabic", "chinese", "japanese", "english"}
    ensures r == "unknown" <==> forall i :: 0 <= i < |text| ==> !Counted(text[i])
    ensures r == "russian" <==> (CountTotal(text) > 0 && Dominates(text, Cyrillic))
    ensures r == "arabic" <==> (CountTotal(text) > 0 && !Dominates(text, Cyrillic) && Dominates(text, Arabic))
    ensures r == "chinese" <==> (CountTotal(text) > 0 && !Dominates(text, Cyrillic) && !Dominates(text, Arabic)
                                 && Dominates(text, Chinese))
    ensures r == "japanese" <==> (CountTotal(text) > 0 && !Dominates(text, Cyrillic) && !Dominates(text, Arabic)
                                  && !Dominates(text, Chinese) && Dominates(text, Japanese))
    ensures r == "english" <==> (CountTotal(text) > 0 && !Dominates(text, Cyrillic) && !Dominates(text, Arabic)
                                 && !Dominates(text, Chinese) && !Dominates(text, Japanese))
  {
    if CountTotal(text) == 0 then "unknown"
    else if Dominates(text, Cyrillic) then "russian"
    else if Dominates(text, Arabic) then "arabic"
    else if Dominates(text, Chinese) then "chinese"
    else if Dominates(text, Japanese) then "japanese"
    else "english"
  }

  /** A text whose counted characters are all Latin, with at least one, is English. */
  lemma LatinOnlyIsEnglish(text: string)
    requires exists i :: 0 <= i < |text| && InScript(Latin, text[i])
    requires forall i :: 0 <= i < |text| && Counted(text[i]) ==> InScript(Latin, text[i])
    ensures DetectLanguage(text) == "english"
  {
    var i :| 0 <= i < |text| && InScript(Latin, text[i]);
    assert Counted(text[i]);
    assert CountScript(text, Cyrillic) == 0 && CountScript(text, Arabic) == 0;
    assert CountScript(text, Chinese) == 0 && CountScript(text, Japanese) == 0;
  }

  // ---------------------------------------------------------------- prompts

  /** The instruction texts of `get_language_prompts`, written word by word:
      each text is the concatenation of its pieces. */
  const EnSummarize: string :=
    "Analyze " + "this " + "legal " + "document " + "and " + "provide " + "a " + "clear, " +
    "easy-to-understand " + "summary " + "in " + "English."
  const EnClauses: string :=
    "Analyze " + "this " + "legal " + "clause " + "and " + "provide " + "an " + "explanation " + "in " +
    "English. " + "Mark " + "🟢 " + "Safe " + "/ " + "🟡 " + "Caution " + "/ " + "🔴 " + "Risky " +
    "and " + "explain " + "why."
  const EnQa: string :=
    "Given this legal " + "document " + "excerpt, " + "answer " + "the " + "question " +
    "clearly " + "in " + "English. " + "If " + "unsure, " + "say " + "'Consult " + "a " + "lawyer.'"
  const HiSummarize: string :=
    "इस " + "कानूनी " + "दस्तावेज़ " + "का " + "विश्लेषण " + "करें " + "और " + "हिंदी " + "में " +
    "एक " + "स्पष्ट, " + "समझने " + "में " + "आसान " + "सारांश " + "प्रदान " + "करें।"
  const HiClauses: string :=
    "इस " + "कानूनी " + "धारा " + "का " + "विश्लेषण " + "करें " + "और " + "हिंदी " + "में " +
    "व्याख्या " + "प्रदान " + "करें। " + "🟢 " + "सुरक्षित " + "/ " + "🟡 " + "सावधानी " + "/ " + "🔴 " +
    "जोखिम " + "भरा " + "चिह्नित " + "करें " + "और " + "क्यों " + "समझाएं।"
  const HiQa: string :=
    "इस " + "कानूनी " + "दस्तावेज़ " + "अंश " + "को " + "देखते " + "हुए, " + "प्रश्न " + "का " +
    "स्पष्ट " + "उत्तर " + "हिंदी " + "में " + "दें। " + "यदि " + "अनिश्चित " + "हैं, " + "तो " +
    "'वकील " + "से " + "सलाह " + "लें' " + "कहें।"
  const MrSummarize: string :=
    "या " + "कायदेशीर " + "दस्तावेजाचे " + "विश्लेषण " + "करा " + "आणि " + "मराठीत " + "स्पष्ट, " +
    "समजण्यास " + "सोपे " + "सारांश " + "द्या."
  const MrClauses: string :=
    "या " + "कायदेशीर " + "कलमाचे " + "विश्लेषण " + "करा " + "आणि " + "मराठीत " + "स्पष्टीकरण " +
    "द्या. " + "🟢 " + "सुरक्षित " + "/ " + "🟡 " + "सावधानता " + "/ " + "🔴 " + "धोकादायक " +
    "चिन्हांकित " + "करा " + "आणि " + "का " + "हे " + "स्पष्ट " + "करा."
  const MrQa: string :=
    "या " + "कायदेशीर " + "दस्तावेज " + "अंशाच्या " + "आधारे, " + "प्रश्नाचे " + "स्पष्ट " + "उत्तर " +
    "मराठीत " + "द्या. " + "अनिश्चित " + "असल्यास " + "'वकीलांचा " + "सल्ला " + "घ्या' " + "असे " +
    "सांगा."

  /** One language's prompts, keyed by the endpoint that uses them. */
  type Prompts = map<string, string>

  function PromptsOf(summarize: string, clauses: string, qa: string): (r: Prompts)
    ensures "summarize" in r && "clauses" in r && "qa" in r
    ensures r["summarize"] == summarize && r["clauses"] == clauses && r["qa"] == qa
  {
    map["summarize" := summarize, "clauses" := clauses, "qa" := qa]
  }

  /** The table, keyed by language code. */
  function PromptTable(): map<string, Prompts> {
    map["en" := PromptsOf(EnSummarize, EnClauses, EnQa),
        "hi" := PromptsOf(HiSummarize, HiClauses, HiQa),
        "mr" := PromptsOf(MrSummarize, MrClauses, MrQa)]
  }

  /** `prompts.get(language, prompts["en"])`: the English prompts for every
      other code; every result has the three keys. */
  function GetLanguagePrompts(language: string): (r: Prompts)
    ensures "summarize" in r && "clauses" in r && "qa" in r
    ensures language == "hi" ==> r == PromptsOf(HiSummarize, HiClauses, HiQa)
    ensures language == "mr" ==> r == PromptsOf(MrSummarize, MrClauses, MrQa)
    ensures language != "hi" && language != "mr" ==> r == PromptsOf(EnSummarize, EnClauses, EnQa)
  {
    var table := PromptTable();
    if language in table then table[language] else table["en"]
  }

  /** The prompt `summarize` sends. */
  function SummarizePrompt(prompts: Prompts, text: string): (r: string)
    requires "summarize" in prompts
    ensures |r| == |prompts["summarize"]| + 2 + |text|
    ensures prompts["summarize"] <= r && r[|r| - |text|..] == text
    ensures r[|prompts["summarize"]|..|r| - |text|] == "\n\n"
  {
    prompts["summarize"] + "\n\n" + text
  }

  /** The prompt `clauses` sends for one chunk. */
  function ClausePrompt(prompts: Prompts, clause: string): (r: string)
    requires "clauses" in prompts
    ensures |r| == |prompts["clauses"]| + 10 + |clause|
    ensures prompts["clauses"] <= r && r[|r| - |clause|..] == clause
    ensures r[|prompts["clauses"]|..|r| - |clause|] == "\n\nClause:\n"
  {
    prompts["clauses"] + "\n\nClause:\n" + clause
  }

  /** The prompt `qa` sends. */
  function QaPrompt(prompts: Prompts, context: string, question: string): (r: string)
    requires "qa" in prompts
    ensures var n := |prompts["qa"]|;
            && prompts["qa"] <= r && |r| == n + 11 + |context| + 12 + |question| + 8
            && r[n + 11..n + 11 + |context|] == context
            && r[|r| - 8 - |question|..|r| - 8] == question
            && r[|r| - 8..] == "\nAnswer:"
  {
    prompts["qa"] + "\n\nExcerpt:\n" + context + "\n\nQuestion: " + question + "\nAnswer:"
  }

  // ---------------------------------------------------------------- upload

  /** The allow-list of `upload`. */
  const SupportedExtensions: seq<string> :=
    ["pdf", "doc", "docx", "jpg", "jpeg", "png", "bmp", "tiff", "gif"]

  /** `upload`'s extension: the lowered text after the last `.`, and `''` for
      a name without any `.`. */
  function UploadExtension(filename: string): (r: string)
    ensures '.' !in filename ==> r == ""
    ensures '.' in filename ==> '.' !in r && EndPiece(Lower(filename), r, '.')
  {
    if '.' in filename then
      var lowered := Lower(filename);
      assert '.' in lowered by {
        var i :| 0 <= i < |filename| && filename[i] == '.';
        assert lowered[i] == '.';
      }
      SplitLast(lowered, '.');
      Last(Split(lowered, '.'))
    else ""
  }

  /** A name without a dot is refused, whatever it spells. */
  lemma BareNameRefused(filename: string)
    requires '.' !in filename
    ensures UploadExtension(filename) !in SupportedExtensions
  {
  }

  /** What the server replies: the JSON payload, or an `HTTPException`. */
  datatype Reply<T> = Done(value: T) | Raised(status: int, detail: string)

  /** What `extract_text_from_file` comes to for a file that passed the
      allow-list: the text, or the parser's failure, which it raises as a 500. */
  datatype Extraction = Extracted(text: string) | ExtractionFailed(detail: string)

  const UnsupportedDetail: string :=
    "Unsupported file format. Supported formats: pdf, doc, docx, jpg, jpeg, png, bmp, tiff, gif"
  const NoTextDetail: string := "No extractable text found in the document"
  const NotFoundDetail: string := "Document not found"

  /** `DOC_STORE`: document id to extracted text. */
  class DocStore {
    var docs: map<string, string>

    /** No stored text is empty. */
    ghost predicate Valid()
      reads this
    {
      forall id :: id in docs ==> docs[id] != ""
    }

    constructor ()
      ensures docs == map[] && Valid()
    {
      docs := map[];
    }

    /** `DOC_STORE.get(doc_id)` as `if not text` sees it: `None` for a missing
        id and for an empty text. */
    function Fetch(docId: string): (r: Option<string>)
      reads this
      ensures r.Some? <==> docId in docs && docs[docId] != ""
      ensures r.Some? ==> r.value == docs[docId]
    {
      if docId in docs && docs[docId] != "" then Some(docs[docId]) else None
    }

    /** `upload`. The extension is checked before the file is read;
        `extracted` is the outcome of `extract_text_from_file`; `freshId` is
        the new `uuid4`, not yet in the store. Only a non-empty text is stored,
        under the new id alone. */
    method Upload(filename: string, extracted: Extraction, freshId: string) returns (reply: Reply<Wire.UploadReply>)
      requires freshId !in docs
      modifies this
      ensures UploadExtension(filename) !in SupportedExtensions
              ==> reply == Raised(400, UnsupportedDetail) && docs == old(docs)
      ensures UploadExtension(filename) in SupportedExtensions && extracted.ExtractionFailed?
              ==> reply == Raised(500, extracted.detail) && docs == old(docs)
      ensures UploadExtension(filename) in SupportedExtensions && extracted == Extracted("")
              ==> reply == Raised(400, NoTextDetail) && docs == old(docs)
      ensures UploadExtension(filename) in SupportedExtensions && extracted.Extracted? && extracted.text != ""
              ==> docs == old(docs)[freshId := extracted.text]
                  && reply == Done(Wire.UploadReply(freshId, |extracted.text|, UploadExtension(filename),
                                                    DetectLanguage(extracted.text)))
      ensures old(Valid()) ==> Valid()
      ensures reply.Done? ==> Fetch(reply.value.docId) == Some(extracted.text)
    {
      var ext := UploadExtension(filename);
      if ext !in SupportedExtensions {
        return Raised(400, UnsupportedDetail);
      }
      match extracted {
        case ExtractionFailed(detail) =>
          return Raised(500, detail);
        case Extracted(text) =>
          if text == "" {
            return Raised(400, NoTextDetail);
          }
          docs := docs[freshId := text];
          reply := Done(Wire.UploadReply(freshId, |text|, ext, DetectLanguage(text)));
      }
    }

    /** `summarize`: 404 unless the id holds a text; otherwise the reply of
        `generate_text` to the summary prompt, and never `detected_language`. */
    method Summarize(docId: string, language: string, client: Vertex.VertexClient, sdk: Vertex.Sdk)
      returns (reply: Reply<Wire.SummaryReply>)
      modifies client`mock, client`initialized
      ensures Fetch(docId).None? ==> reply == Raised(404, NotFoundDetail) && client.State() == old(client.State())
      ensures Fetch(docId).Some?
              ==> var g := Vertex.Generate(old(client.State()), client.project, client.apiKey,
                                           SummarizePrompt(GetLanguagePrompts(language), Fetch(docId).value), sdk);
                  reply == Done(Wire.SummaryReply(g.reply, None)) && client.State() == g.after
      ensures Fetch(docId).Some? && old(client.mock)
              ==> reply.value.summary
                  == Vertex.MockResponse(SummarizePrompt(GetLanguagePrompts(language), Fetch(docId).value))
    {
      var text := Fetch(docId);
      if text.None? {
        return Raised(404, NotFoundDetail);
      }
      var prompt := SummarizePrompt(GetLanguagePrompts(language), text.value);
      var result := client.GenerateText(prompt, sdk);
      reply := Done(Wire.SummaryReply(result, None));
    }

    /** `clauses`: 404 unless the id holds a text; otherwise one entry per
        chunk of `split_into_clauses`, in chunk order, each with the reply of
        `generate_text` to its prompt, the calls made one after another on the
        same client. `regexSplit` is `re.split` with the clause pattern. */
    method Clauses(docId: string, language: string, client: Vertex.VertexClient, sdk: Vertex.Sdk,
                   regexSplit: string -> seq<string>)
      returns (reply: Reply<Wire.ClausesReply>)
      modifies client`mock, client`initialized
      ensures Fetch(docId).None? ==> reply == Raised(404, NotFoundDetail) && client.State() == old(client.State())
      ensures Fetch(docId).Some?
              ==> var e := ExplainAll(old(client.State()), client.project, client.apiKey, GetLanguagePrompts(language),
                                      ClauseChunks(regexSplit(Fetch(docId).value)), sdk);
                  reply == Done(Wire.ClausesReply(Some(e.items))) && client.State() == e.after
    {
      var text := Fetch(docId);
      if text.None? {
        return Raised(404, NotFoundDetail);
      }
      var chunks := Utils.SplitIntoClauses(regexSplit(text.value), 1200);
      var explanations := ExplainChunks(GetLanguagePrompts(language), chunks, client, sdk);
      reply := Done(Wire.ClausesReply(Some(explanations)));
    }

    /** The loop of `clauses`: one `generate_text` call per chunk, in order. */
    method ExplainChunks(prompts: Prompts, chunks: seq<string>, client: Vertex.VertexClient, sdk: Vertex.Sdk)
      returns (explanations: seq<Wire.ClauseItem>)
      requires "clauses" in prompts
      modifies client`mock, client`initialized
      ensures Explanation(explanations, client.State())
              == ExplainAll(old(client.State()), client.project, client.apiKey, prompts, chunks, sdk)
    {
      ghost var start := client.State();
      explanations := [];
      for i := 0 to |chunks|
        invariant Explanation(explanations, client.State())
                  == ExplainAll(start, client.project, client.apiKey, prompts, chunks[..i], sdk)
      {
        var prompt := ClausePrompt(prompts, chunks[i]);
        var result := client.GenerateText(prompt, sdk);
        assert chunks[..i + 1][..i] == chunks[..i];
        explanations := explanations + [Wire.ClauseItem(chunks[i], result)];
      }
      assert chunks[..|chunks|] == chunks;
    }

    /** `qa`: 404 unless the id holds a text; otherwise the excerpt
        `simple_retrieve_context` picks with its default window of 800, and the
        reply of `generate_text` to the prompt built from it. */
    method Qa(docId: string, question: string, language: string, client: Vertex.VertexClient, sdk: Vertex.Sdk)
      returns (reply: Reply<Wire.AnswerReply>)
      modifies client`mock, client`initialized
      ensures Fetch(docId).None? ==> reply == Raised(404, NotFoundDetail) && client.State() == old(client.State())
      ensures Fetch(docId).Some?
              ==> reply.Done? && (exists k :: SliceAt(Fetch(docId).value, reply.value.context, k))
                  && |reply.value.context| <= 800
      ensures Fetch(docId).Some? && Utils.Keywords(question) == []
              ==> reply.value.context == Slice(Fetch(docId).value, 0, 800)
      ensures Fetch(docId).Some? && Utils.Keywords(question) != []
              ==> exists s: nat :: Utils.FirstBest(Lower(Fetch(docId).value), Utils.Keywords(question), 800, s)
                                   && reply.value.context == Slice(Fetch(docId).value, s, s + 800)
      ensures Fetch(docId).Some?
              ==> var g := Vertex.Generate(old(client.State()), client.project, client.apiKey,
                                           QaPrompt(GetLanguagePrompts(language), reply.value.context, question), sdk);
                  reply.value.answer == g.reply && client.State() == g.after
    {
      var text := Fetch(docId);
      if text.None? {
        return Raised(404, NotFoundDetail);
      }
      var prompts := GetLanguagePrompts(language);
      var context := Utils.SimpleRetrieveContext(text.value, question, 800);
      var prompt := QaPrompt(prompts, context, question);
      var result := client.GenerateText(prompt, sdk);
      reply := Done(Wire.AnswerReply(result, context));
    }
  }

  /** The chunks `clauses` explains: `split_into_clauses` of the pieces,
      at most 1200 characters each. */
  function ClauseChunks(pieces: seq<string>): seq<string> {
    Utils.Clauses(Utils.Greedy(Utils.Kept(pieces), 1200))
  }

  /** What the `clauses` loop comes to: its items and the client's flags after it. */
  datatype Explanation = Explanation(items: seq<Wire.ClauseItem>, after: Vertex.Flags)

  /** The `clauses` loop over `chunks`, started from the flags `f`: each chunk
      in turn is sent with its prompt, and each call sees the flags the
      previous one left. Every chunk gets one item, in order; under mock mode
      every analysis is the canned reply to the chunk's prompt. */
  function ExplainAll(f: Vertex.Flags, project: Option<string>, apiKey: Option<string>, prompts: Prompts,
                      chunks: seq<string>, sdk: Vertex.Sdk): (r: Explanation)
    requires "clauses" in prompts
    ensures |r.items| == |chunks|
    decreases |chunks|
  {
    if chunks == [] then Explanation([], f)
    else
      var n := |chunks| - 1;
      var front := ExplainAll(f, project, apiKey, prompts, chunks[..n], sdk);
      var g := Vertex.Generate(front.after, project, apiKey, ClausePrompt(prompts, chunks[n]), sdk);
      Explanation(front.items + [Wire.ClauseItem(chunks[n], g.reply)], g.after)
  }

  /** One more chunk is one more call, from the flags the loop so far left. */
  lemma ExplainAllSnoc(f: Vertex.Flags, project: Option<string>, apiKey: Option<string>, prompts: Prompts,
                       chunks: seq<string>, sdk: Vertex.Sdk)
    requires "clauses" in prompts && chunks != []
    ensures var n := |chunks| - 1;
            var front := ExplainAll(f, project, apiKey, prompts, chunks[..n], sdk);
            var g := Vertex.Generate(front.after, project, apiKey, ClausePrompt(prompts, chunks[n]), sdk);
            ExplainAll(f, project, apiKey, prompts, chunks, sdk)
            == Explanation(front.items + [Wire.ClauseItem(chunks[n], g.reply)], g.after)
  {
  }

  /** Every chunk gets one item, in order: the `k`-th item is about the `k`-th chunk. */
  lemma {:induction false} ExplainAllClauses(f: Vertex.Flags, project: Option<string>, apiKey: Option<string>,
                                             prompts: Prompts, chunks: seq<string>, sdk: Vertex.Sdk)
    requires "clauses" in prompts
    ensures var e := ExplainAll(f, project, apiKey, prompts, chunks, sdk);
            forall k :: 0 <= k < |chunks| ==> e.items[k].clause == chunks[k]
    decreases |chunks|
  {
    if chunks != [] {
      var n := |chunks| - 1;
      ExplainAllClauses(f, project, apiKey, prompts, chunks[..n], sdk);
      ExplainAllSnoc(f, project, apiKey, prompts, chunks, sdk);
      var front := ExplainAll(f, project, apiKey, prompts, chunks[..n], sdk);
      var e := ExplainAll(f, project, apiKey, prompts, chunks, sdk);
      forall k | 0 <= k < n ensures e.items[k].clause == chunks[k] {
        assert e.items[k] == front.items[k] && chunks[..n][k] == chunks[k];
      }
    }
  }

  /** Under mock mode the loop leaves the flags alone and every analysis is
      the canned reply to its chunk's prompt. */
  lemma {:induction false} ExplainAllMock(f: Vertex.Flags, project: Option<string>, apiKey: Option<string>,
                                          prompts: Prompts, chunks: seq<string>, sdk: Vertex.Sdk)
    requires "clauses" in prompts && f.mock
    ensures var e := ExplainAll(f, project, apiKey, prompts, chunks, sdk);
            e.after == f
            && forall k :: 0 <= k < |chunks| ==> e.items[k].analysis == Vertex.MockResponse(ClausePrompt(prompts, chunks[k]))
    decreases |chunks|
  {
    if chunks != [] {
      var n := |chunks| - 1;
      ExplainAllMock(f, project, apiKey, prompts, chunks[..n], sdk);
      ExplainAllSnoc(f, project, apiKey, prompts, chunks, sdk);
      var front := ExplainAll(f, project, apiKey, prompts, chunks[..n], sdk);
      var e := ExplainAll(f, project, apiKey, prompts, chunks, sdk);
      var g := Vertex.Generate(front.after, project, apiKey, ClausePrompt(prompts, chunks[n]), sdk);
      assert e.items[n].analysis == g.reply;
      forall k | 0 <= k < |chunks|
        ensures e.items[k].analysis == Vertex.MockResponse(ClausePrompt(prompts, chunks[k]))
      {
        if k < n {
          assert e.items[k] == front.items[k] && chunks[..n][k] == chunks[k];
        }
      }
    }
  }

  /** Over the whole loop an initialised client stays initialised, and a
      client that is not both in mock mode and initialised never becomes so. */
  lemma {:induction false} ExplainAllFlags(f: Vertex.Flags, project: Option<string>, apiKey: Option<string>,
                                           prompts: Prompts, chunks: seq<string>, sdk: Vertex.Sdk)
    requires "clauses" in prompts
    ensures var e := ExplainAll(f, project, apiKey, prompts, chunks, sdk);
            (f.mock ==> e.after.mock)
            && (f.initialized ==> e.after.initialized)
            && (!(f.mock && f.initialized) ==> !(e.after.mock && e.after.initialized))
    decreases |chunks|
  {
    if chunks != [] {
      ExplainAllFlags(f, project, apiKey, prompts, chunks[..|chunks| - 1], sdk);
      ExplainAllSnoc(f, project, apiKey, prompts, chunks, sdk);
    }
  }

  /** Every id `upload` hands out passes the guard of the three endpoints. */
  lemma IssuedIdIsFound(store: DocStore, id: string)
    requires store.Valid() && id in store.docs
    ensures store.Fetch(id) == Some(store.docs[id])
  {
  }

  // ---------------------------------------------------------------- CORS

  /** The origins given to the CORS middleware. */
  datatype Origins = AnyOrigin | Listed(origins: seq<string>)

  /** `ALLOWED_ORIGINS` when it is not set. */
  const DefaultOrigins: string := "http://localhost:5173,http://127.0.0.1:5173"

  /** `[o.strip() for o in pieces if o.strip()]`. */
  function StrippedEntries(pieces: seq<string>): (r: seq<string>)
    ensures |r| <= |pieces|
    ensures forall i :: 0 <= i < |r| ==> r[i] != ""
    decreases |pieces|
  {
    if pieces == [] then []
    else
      var o := Trim(pieces[0], Py);
      (if o == "" then [] else [o]) + StrippedEntries(pieces[1..])
  }

  /** Every piece, stripped. */
  function StrippedAll(pieces: seq<string>): (r: seq<string>)
    ensures |r| == |pieces|
    ensures forall i :: 0 <= i < |pieces| ==> r[i] == Trim(pieces[i], Py)
    decreases |pieces|
  {
    if pieces == [] then [] else [Trim(pieces[0], Py)] + StrippedAll(pieces[1..])
  }

  /** The list keeps exactly the stripped pieces that are not blank. */
  lemma {:induction false} StrippedEntriesExactly(pieces: seq<string>, o: string)
    ensures o in StrippedEntries(pieces) <==> o in StrippedAll(pieces) && o != ""
    decreases |pieces|
  {
    if pieces != [] {
      StrippedEntriesExactly(pieces[1..], o);
      var t := Trim(pieces[0], Py);
      assert StrippedAll(pieces) == [t] + StrippedAll(pieces[1..]);
      assert StrippedEntries(pieces) == (if t == "" then [] else [t]) + StrippedEntries(pieces[1..]);
    }
  }

  /** The CORS setting: a value that strips to `*` allows every origin;
      otherwise the stripped, non-blank comma-separated entries. */
  function ParseOrigins(env: string): (r: Origins)
    ensures Trim(env, Py) == "*" <==> r.AnyOrigin?
    ensures r.Listed? ==> r.origins == StrippedEntries(Split(env, ','))
  {
    if Trim(env, Py) == "*" then AnyOrigin else Listed(StrippedEntries(Split(env, ',')))
  }
}
