/** How the client pages and the server meet: a server reply as the client
    receives it, the upload and summarize round trips, and what the two sides
    say about the same file name or the same prompt. */
module Session {
  import opened Wrappers
  import opened Text
  import opened Ui
  import Api
  import Wire
  import Browser
  import Server
  import Vertex
  import FileUploadWidget
  import SummaryPage

  /** A server reply as `fetch` delivers it: status 200 with the payload, or
      the exception's status with the JSON body `{"detail": ...}`; `absent` is
      what the page reads for the payload fields such a body lacks. */
  function Transmit<T>(reply: Server.Reply<T>, absent: T): Api.Response<T> {
    match reply
    case Done(value) => Api.Response(200, Api.Json(value, None))
    case Raised(status, detail) => Api.Response(status, Api.Json(absent, Some(detail)))
  }

  /** The client sees the server's payload when there is one, and otherwise
      an error with the server's status and its `detail` (the endpoint default
      when that is empty). */
  lemma TransmitNormalize<T>(e: Api.Endpoint, reply: Server.Reply<T>, absent: T)
    requires reply.Raised? ==> !Api.IsOk(reply.status)
    ensures reply.Done? ==> Api.Normalize(e, Transmit(reply, absent)) == Api.Ok(reply.value)
    ensures reply.Raised?
            ==> Api.Normalize(e, Transmit(reply, absent))
                == Api.Err(Some(reply.status), if reply.detail != "" then reply.detail else Api.DefaultDetail(e))
  {
  }

  /** A dot-less name that spells an allowed extension passes the widget's
      check, but the server computes the extension `''` for it and refuses it. */
  lemma DotlessNameSplitsClientAndServer(name: string)
    requires '.' !in name && Lower(name) in FileUploadWidget.SupportedExtensions
    ensures FileUploadWidget.IsSupported(name)
    ensures Server.UploadExtension(name) == "" && Server.UploadExtension(name) !in Server.SupportedExtensions
  {
  }

  /** The file `pdf` is one such name. */
  lemma BarePdfSplitsClientAndServer()
    ensures FileUploadWidget.IsSupported("pdf") && Server.UploadExtension("pdf") !in Server.SupportedExtensions
  {
    assert Lower("pdf") == "pdf";
    DotlessNameSplitsClientAndServer("pdf");
  }

  /** A picked file sent to the server and the widget's handling of the reply:
      the widget records (and reports) a document id exactly when the server
      stored a text for it, and that id then passes the server's 404 guard. */
  method UploadRoundTrip(widget: FileUploadWidget.FileUpload, docs: Server.DocStore, name: string,
                         extracted: Server.Extraction, freshId: string)
    returns (toast: Toast, uploaded: Notice<Option<string>>)
    requires freshId !in docs.docs && docs.Valid()
    modifies widget`isLoading, widget`selectedName, widget.store, docs
    ensures docs.Valid() && !widget.isLoading
    ensures uploaded.Called?
            <==> Server.UploadExtension(name) in Server.SupportedExtensions
                 && extracted.Extracted? && extracted.text != ""
    ensures uploaded.Called?
            ==> uploaded.arg == Some(freshId) && widget.store.GetItem(Browser.DocIdKey) == Some(freshId)
                && docs.Fetch(freshId) == Some(extracted.text)
    ensures uploaded.NotCalled?
            ==> widget.store.items == old(widget.store.items) && docs.docs == old(docs.docs)
                && toast == Error(KeyOnly("upload.error"))
  {
    var reply := docs.Upload(name, extracted, freshId);
    var res := Transmit(reply, Wire.UploadReply("", 0, "", ""));
    toast, uploaded := widget.SelectComplete(name, res);
  }

  /** `handleSummarize` against the server. The server never sends
      `detected_language`, so the page's label never changes; a document the
      server does not hold is forgotten, one it holds is kept and summarised. */
  method SummarizeRoundTrip(page: SummaryPage.Summary, docs: Server.DocStore, client: Vertex.VertexClient,
                            sdk: Vertex.Sdk)
    returns (toast: Option<Toast>)
    modifies page`loading, page`result, page`detectedLanguage, page`docId, page.store,
             client`mock, client`initialized
    ensures page.detectedLanguage == old(page.detectedLanguage)
    ensures !Truthy(old(page.docId))
            ==> toast == Some(Error(KeyOnly("common.uploadFirst"))) && page.docId == old(page.docId)
                && page.loading == old(page.loading) && page.result == old(page.result)
    ensures Truthy(old(page.docId)) ==> !page.loading
    ensures Truthy(old(page.docId)) && docs.Fetch(old(page.docId).value).None?
            ==> page.docId.None? && page.store.items == old(page.store.items) - {Browser.DocIdKey}
    ensures Truthy(old(page.docId)) && docs.Fetch(old(page.docId).value).Some?
            ==> page.docId == old(page.docId) && page.result.Some? && toast.None?
    ensures SummaryPage.AnalysisLabel(old(page.detectedLanguage)) == SummaryPage.AnalysisLabel(page.detectedLanguage)
  {
    var req, t := page.SummarizeStart();
    if req.None? {
      return t;
    }
    var reply := docs.Summarize(req.value.docId, req.value.language, client, sdk);
    var res := Api.Normalize(Api.Summarize, Transmit(reply, Wire.SummaryReply("", None)));
    toast := page.SummarizeComplete(res);
  }

  // ---------------------------------------------------------------- mock mode

  /** No trigger phrase fits in a text shorter than the shortest of them. */
  lemma ShortNoTrigger(s: string)
    requires |s| < |Vertex.ExcerptTrigger|
    ensures Vertex.NoTrigger(s)
  {
    assert |Vertex.ExcerptTrigger| <= |Vertex.ExplainTrigger| <= |Vertex.SummarizeTrigger|;
  }

  /** A text that holds none of the first characters of `pat` cannot begin an
      occurrence of it, so it adds none in front of another text. */
  lemma NoStartBefore(a: string, b: string, pat: string)
    requires |pat| > 0 && pat[0] !in a && !Contains(b, pat)
    ensures !Contains(a + b, pat)
  {
    forall j: nat
      ensures !OccursAt(a + b, pat, j)
    {
      if j < |a| {
        MismatchAt(a + b, pat, j, 0);
      } else if OccursAt(a + b, pat, j) {
        assert (a + b)[j..j + |pat|] == b[j - |a|..j - |a| + |pat|];
        assert OccursAt(b, pat, j - |a|);
      }
    }
  }

  /** The question line adds no trigger to the question. */
  lemma QuestionLine(q: string)
    requires Vertex.NoTrigger(q)
    ensures Vertex.NoTrigger("Question: " + q)
  {
    var lead := "Question: ";
    assert Vertex.SummarizeTrigger[0] == 'S' && Vertex.ExplainTrigger[0] == 'E' && Vertex.ExcerptTrigger[0] == 'G';
    assert 'S' !in lead && 'E' !in lead && 'G' !in lead;
    NoStartBefore(lead, q, Vertex.SummarizeTrigger);
    NoStartBefore(lead, q, Vertex.ExplainTrigger);
    NoStartBefore(lead, q, Vertex.ExcerptTrigger);
  }

  /** `"\n" + b` holds a trigger only if `b` does. */
  lemma AfterNewline(b: string)
    requires Vertex.NoTrigger(b)
    ensures Vertex.NoTrigger("\n" + b)
  {
    ShortNoTrigger("");
    Vertex.NoTriggerJoined("", b);
    assert "" + "\n" + b == "\n" + b;
  }

  /** A text none of whose characters begins `pat` holds no occurrence of it. */
  lemma AbsentHead(s: string, pat: string)
    requires |pat| > 0 && pat[0] !in s
    ensures !Contains(s, pat)
  {
    forall j: nat ensures !OccursAt(s, pat, j) {
      MismatchAt(s, pat, j, 0);
    }
  }

  /** The first characters of the trigger phrases. */
  lemma TriggerHeads()
    ensures Vertex.SummarizeTrigger[0] == 'S' && Vertex.ExplainTrigger[0] == 'E' && Vertex.ExcerptTrigger[0] == 'G'
  {
  }

  /** One of `a` and `b` begins the other. */
  predicate Compatible(a: string, b: string) {
    a <= b || b <= a
  }

  /** `x` holds no occurrence of `pat`, and no end of `x` begins one. */
  predicate Clear(x: string, pat: string) {
    forall j :: 0 <= j < |x| ==> !Compatible(x[j..], pat)
  }

  /** A text that is clear of `pat` does not contain it. */
  lemma ClearNoOccurrence(x: string, pat: string)
    requires |pat| > 0 && Clear(x, pat)
    ensures !Contains(x, pat)
  {
    forall j: nat ensures !OccursAt(x, pat, j) {
      if j + |pat| <= |x| {
        assert x[j..][..|pat|] == x[j..j + |pat|];
      }
    }
  }

  /** A text that does not fit `pat` does not fit it once extended. */
  lemma IncompatibleAppend(a: string, y: string, pat: string)
    requires !Compatible(a, pat)
    ensures !Compatible(a + y, pat)
  {
    assert (a + y)[..|a|] == a;
    if |pat| <= |a| {
      assert a[..|pat|] == (a + y)[..|pat|];
    } else if |pat| <= |a + y| {
      assert (a + y)[..|pat|][..|a|] == a;
    }
  }

  /** A piece holding no first character of `pat` keeps a clear text clear. */
  lemma ClearExtend(x: string, y: string, pat: string)
    requires |pat| > 0 && Clear(x, pat) && pat[0] !in y
    ensures Clear(x + y, pat)
  {
    var s := x + y;
    forall j | 0 <= j < |s| ensures !Compatible(s[j..], pat) {
      if j < |x| {
        assert s[j..] == x[j..] + y;
        IncompatibleAppend(x[j..], y, pat);
      } else {
        assert s[j..][0] == y[j - |x|];
      }
    }
  }

  /** A piece `[c] + r` whose `d`-th character differs from that of `pat`, and
      whose rest holds no first character of `pat`, keeps a clear text clear. */
  lemma ClearHead(x: string, c: char, r: string, pat: string, d: nat)
    requires Clear(x, pat) && 0 < d <= |r| && d < |pat| && r[d - 1] != pat[d] && pat[0] !in r
    ensures Clear(x + ([c] + r), pat)
  {
    var y := [c] + r;
    var s := x + y;
    forall j | 0 <= j < |s| ensures !Compatible(s[j..], pat) {
      if j < |x| {
        assert s[j..] == x[j..] + y;
        IncompatibleAppend(x[j..], y, pat);
      } else if j == |x| {
        assert s[j..] == y && y[d] == r[d - 1];
      } else {
        assert s[j..][0] == r[j - |x| - 1];
      }
    }
  }

  /** A first piece holding no first character of `pat` is clear of it. */
  lemma ClearStart(y: string, pat: string)
    requires |pat| > 0 && pat[0] !in y
    ensures Clear(y, pat)
  {
    ClearExtend("", y, pat);
    assert "" + y == y;
  }

  /** A first piece `[c] + r` that departs from `pat` at its `d`-th character,
      and whose rest holds no first character of `pat`, is clear of it. */
  lemma ClearHeadStart(c: char, r: string, pat: string, d: nat)
    requires 0 < d <= |r| && d < |pat| && r[d - 1] != pat[d] && pat[0] !in r
    ensures Clear([c] + r, pat)
  {
    ClearHead("", c, r, pat, d);
    assert "" + ([c] + r) == [c] + r;
  }

  /** After its first word, the English instruction for a summary keeps a text
      clear of the summary trigger. */
  lemma EnSummarizeClearOfSummarize(x: string)
    requires Clear(x, Vertex.SummarizeTrigger)
    ensures Clear(x + "this " + "legal " + "document " + "and " + "provide " + "a " + "clear, " + "easy-to-understand " + "summary " + "in " + "English.", Vertex.SummarizeTrigger)
  {
    TriggerHeads();
    var y := x;
    ClearExtend(y, "this ", Vertex.SummarizeTrigger);
    y := y + "this ";
    ClearExtend(y, "legal ", Vertex.SummarizeTrigger);
    y := y + "legal ";
    ClearExtend(y, "document ", Vertex.SummarizeTrigger);
    y := y + "document ";
    ClearExtend(y, "and ", Vertex.SummarizeTrigger);
    y := y + "and ";
    ClearExtend(y, "provide ", Vertex.SummarizeTrigger);
    y := y + "provide ";
    ClearExtend(y, "a ", Vertex.SummarizeTrigger);
    y := y + "a ";
    ClearExtend(y, "clear, ", Vertex.SummarizeTrigger);
    y := y + "clear, ";
    ClearExtend(y, "easy-to-understand ", Vertex.SummarizeTrigger);
    y := y + "easy-to-understand ";
    ClearExtend(y, "summary ", Vertex.SummarizeTrigger);
    y := y + "summary ";
    ClearExtend(y, "in ", Vertex.SummarizeTrigger);
    y := y + "in ";
    ClearExtend(y, "English.", Vertex.SummarizeTrigger);
    y := y + "English.";
  }

  /** After its first word, the English instruction for a summary keeps a text
      clear of the explanation trigger. */
  lemma EnSummarizeClearOfExplain(x: string)
    requires Clear(x, Vertex.ExplainTrigger)
    ensures Clear(x + "this " + "legal " + "document " + "and " + "provide " + "a " + "clear, " + "easy-to-understand " + "summary " + "in " + "English.", Vertex.ExplainTrigger)
  {
    TriggerHeads();
    var y := x;
    ClearExtend(y, "this ", Vertex.ExplainTrigger);
    y := y + "this ";
    ClearExtend(y, "legal ", Vertex.ExplainTrigger);
    y := y + "legal ";
    ClearExtend(y, "document ", Vertex.ExplainTrigger);
    y := y + "document ";
    ClearExtend(y, "and ", Vertex.ExplainTrigger);
    y := y + "and ";
    ClearExtend(y, "provide ", Vertex.ExplainTrigger);
    y := y + "provide ";
    ClearExtend(y, "a ", Vertex.ExplainTrigger);
    y := y + "a ";
    ClearExtend(y, "clear, ", Vertex.ExplainTrigger);
    y := y + "clear, ";
    ClearExtend(y, "easy-to-understand ", Vertex.ExplainTrigger);
    y := y + "easy-to-understand ";
    ClearExtend(y, "summary ", Vertex.ExplainTrigger);
    y := y + "summary ";
    ClearExtend(y, "in ", Vertex.ExplainTrigger);
    y := y + "in ";
    ClearHead(y, 'E', "nglish.", Vertex.ExplainTrigger, 1);
    assert ['E'] + "nglish." == "English.";
    y := y + "English.";
  }

  /** After its first word, the English instruction for a summary keeps a text
      clear of the excerpt trigger. */
  lemma EnSummarizeClearOfExcerpt(x: string)
    requires Clear(x, Vertex.ExcerptTrigger)
    ensures Clear(x + "this " + "legal " + "document " + "and " + "provide " + "a " + "clear, " + "easy-to-understand " + "summary " + "in " + "English.", Vertex.ExcerptTrigger)
  {
    TriggerHeads();
    var y := x;
    ClearExtend(y, "this ", Vertex.ExcerptTrigger);
    y := y + "this ";
    ClearExtend(y, "legal ", Vertex.ExcerptTrigger);
    y := y + "legal ";
    ClearExtend(y, "document ", Vertex.ExcerptTrigger);
    y := y + "document ";
    ClearExtend(y, "and ", Vertex.ExcerptTrigger);
    y := y + "and ";
    ClearExtend(y, "provide ", Vertex.ExcerptTrigger);
    y := y + "provide ";
    ClearExtend(y, "a ", Vertex.ExcerptTrigger);
    y := y + "a ";
    ClearExtend(y, "clear, ", Vertex.ExcerptTrigger);
    y := y + "clear, ";
    ClearExtend(y, "easy-to-understand ", Vertex.ExcerptTrigger);
    y := y + "easy-to-understand ";
    ClearExtend(y, "summary ", Vertex.ExcerptTrigger);
    y := y + "summary ";
    ClearExtend(y, "in ", Vertex.ExcerptTrigger);
    y := y + "in ";
    ClearExtend(y, "English.", Vertex.ExcerptTrigger);
    y := y + "English.";
  }

  /** The English instruction for a summary holds no trigger phrase. */
  lemma EnSummarizeHasNoTrigger()
    ensures Vertex.NoTrigger(Server.EnSummarize)
  {
    TriggerHeads();
    ClearStart("Analyze ", Vertex.SummarizeTrigger);
    EnSummarizeClearOfSummarize("Analyze ");
    ClearNoOccurrence(Server.EnSummarize, Vertex.SummarizeTrigger);
    ClearStart("Analyze ", Vertex.ExplainTrigger);
    EnSummarizeClearOfExplain("Analyze ");
    ClearNoOccurrence(Server.EnSummarize, Vertex.ExplainTrigger);
    ClearStart("Analyze ", Vertex.ExcerptTrigger);
    EnSummarizeClearOfExcerpt("Analyze ");
    ClearNoOccurrence(Server.EnSummarize, Vertex.ExcerptTrigger);
  }

  /** After its first word, the English instruction for a clause keeps a text
      clear of the summary trigger. */
  lemma EnClausesClearOfSummarize(x: string)
    requires Clear(x, Vertex.SummarizeTrigger)
    ensures Clear(x + "this " + "legal " + "clause " + "and " + "provide " + "an " + "explanation " + "in " + "English. " + "Mark " + "🟢 " + "Safe " + "/ " + "🟡 " + "Caution " + "/ " + "🔴 " + "Risky " + "and " + "explain " + "why.", Vertex.SummarizeTrigger)
  {
    TriggerHeads();
    var y := x;
    ClearExtend(y, "this ", Vertex.SummarizeTrigger);
    y := y + "this ";
    ClearExtend(y, "legal ", Vertex.SummarizeTrigger);
    y := y + "legal ";
    ClearExtend(y, "clause ", Vertex.SummarizeTrigger);
    y := y + "clause ";
    ClearExtend(y, "and ", Vertex.SummarizeTrigger);
    y := y + "and ";
    ClearExtend(y, "provide ", Vertex.SummarizeTrigger);
    y := y + "provide ";
    ClearExtend(y, "an ", Vertex.SummarizeTrigger);
    y := y + "an ";
    ClearExtend(y, "explanation ", Vertex.SummarizeTrigger);
    y := y + "explanation ";
    ClearExtend(y, "in ", Vertex.SummarizeTrigger);
    y := y + "in ";
    ClearExtend(y, "English. ", Vertex.SummarizeTrigger);
    y := y + "English. ";
    ClearExtend(y, "Mark ", Vertex.SummarizeTrigger);
    y := y + "Mark ";
    ClearExtend(y, "🟢 ", Vertex.SummarizeTrigger);
    y := y + "🟢 ";
    ClearHead(y, 'S', "afe ", Vertex.SummarizeTrigger, 1);
    assert ['S'] + "afe " == "Safe ";
    y := y + "Safe ";
    ClearExtend(y, "/ ", Vertex.SummarizeTrigger);
    y := y + "/ ";
    ClearExtend(y, "🟡 ", Vertex.SummarizeTrigger);
    y := y + "🟡 ";
    ClearExtend(y, "Caution ", Vertex.SummarizeTrigger);
    y := y + "Caution ";
    ClearExtend(y, "/ ", Vertex.SummarizeTrigger);
    y := y + "/ ";
    ClearExtend(y, "🔴 ", Vertex.SummarizeTrigger);
    y := y + "🔴 ";
    ClearExtend(y, "Risky ", Vertex.SummarizeTrigger);
    y := y + "Risky ";
    ClearExtend(y, "and ", Vertex.SummarizeTrigger);
    y := y + "and ";
    ClearExtend(y, "explain ", Vertex.SummarizeTrigger);
    y := y + "explain ";
    ClearExtend(y, "why.", Vertex.SummarizeTrigger);
    y := y + "why.";
  }

  /** After its first word, the English instruction for a clause keeps a text
      clear of the explanation trigger. */
  lemma EnClausesClearOfExplain(x: string)
    requires Clear(x, Vertex.ExplainTrigger)
    ensures Clear(x + "this " + "legal " + "clause " + "and " + "provide " + "an " + "explanation " + "in " + "English. " + "Mark " + "🟢 " + "Safe " + "/ " + "🟡 " + "Caution " + "/ " + "🔴 " + "Risky " + "and " + "explain " + "why.", Vertex.ExplainTrigger)
  {
    TriggerHeads();
    var y := x;
    ClearExtend(y, "this ", Vertex.ExplainTrigger);
    y := y + "this ";
    ClearExtend(y, "legal ", Vertex.ExplainTrigger);
    y := y + "legal ";
    ClearExtend(y, "clause ", Vertex.ExplainTrigger);
    y := y + "clause ";
    ClearExtend(y, "and ", Vertex.ExplainTrigger);
    y := y + "and ";
    ClearExtend(y, "provide ", Vertex.ExplainTrigger);
    y := y + "provide ";
    ClearExtend(y, "an ", Vertex.ExplainTrigger);
    y := y + "an ";
    ClearExtend(y, "explanation ", Vertex.ExplainTrigger);
    y := y + "explanation ";
    ClearExtend(y, "in ", Vertex.ExplainTrigger);
    y := y + "in ";
    ClearHead(y, 'E', "nglish. ", Vertex.ExplainTrigger, 1);
    assert ['E'] + "nglish. " == "English. ";
    y := y + "English. ";
    ClearExtend(y, "Mark ", Vertex.ExplainTrigger);
    y := y + "Mark ";
    ClearExtend(y, "🟢 ", Vertex.ExplainTrigger);
    y := y + "🟢 ";
    ClearExtend(y, "Safe ", Vertex.ExplainTrigger);
    y := y + "Safe ";
    ClearExtend(y, "/ ", Vertex.ExplainTrigger);
    y := y + "/ ";
    ClearExtend(y, "🟡 ", Vertex.ExplainTrigger);
    y := y + "🟡 ";
    ClearExtend(y, "Caution ", Vertex.ExplainTrigger);
    y := y + "Caution ";
    ClearExtend(y, "/ ", Vertex.ExplainTrigger);
    y := y + "/ ";
    ClearExtend(y, "🔴 ", Vertex.ExplainTrigger);
    y := y + "🔴 ";
    ClearExtend(y, "Risky ", Vertex.ExplainTrigger);
    y := y + "Risky ";
    ClearExtend(y, "and ", Vertex.ExplainTrigger);
    y := y + "and ";
    ClearExtend(y, "explain ", Vertex.ExplainTrigger);
    y := y + "explain ";
    ClearExtend(y, "why.", Vertex.ExplainTrigger);
    y := y + "why.";
  }

  /** After its first word, the English instruction for a clause keeps a text
      clear of the excerpt trigger. */
  lemma EnClausesClearOfExcerpt(x: string)
    requires Clear(x, Vertex.ExcerptTrigger)
    ensures Clear(x + "this " + "legal " + "clause " + "and " + "provide " + "an " + "explanation " + "in " + "English. " + "Mark " + "🟢 " + "Safe " + "/ " + "🟡 " + "Caution " + "/ " + "🔴 " + "Risky " + "and " + "explain " + "why.", Vertex.ExcerptTrigger)
  {
    TriggerHeads();
    var y := x;
    ClearExtend(y, "this ", Vertex.ExcerptTrigger);
    y := y + "this ";
    ClearExtend(y, "legal ", Vertex.ExcerptTrigger);
    y := y + "legal ";
    ClearExtend(y, "clause ", Vertex.ExcerptTrigger);
    y := y + "clause ";
    ClearExtend(y, "and ", Vertex.ExcerptTrigger);
    y := y + "and ";
    ClearExtend(y, "provide ", Vertex.ExcerptTrigger);
    y := y + "provide ";
    ClearExtend(y, "an ", Vertex.ExcerptTrigger);
    y := y + "an ";
    ClearExtend(y, "explanation ", Vertex.ExcerptTrigger);
    y := y + "explanation ";
    ClearExtend(y, "in ", Vertex.ExcerptTrigger);
    y := y + "in ";
    ClearExtend(y, "English. ", Vertex.ExcerptTrigger);
    y := y + "English. ";
    ClearExtend(y, "Mark ", Vertex.ExcerptTrigger);
    y := y + "Mark ";
    ClearExtend(y, "🟢 ", Vertex.ExcerptTrigger);
    y := y + "🟢 ";
    ClearExtend(y, "Safe ", Vertex.ExcerptTrigger);
    y := y + "Safe ";
    ClearExtend(y, "/ ", Vertex.ExcerptTrigger);
    y := y + "/ ";
    ClearExtend(y, "🟡 ", Vertex.ExcerptTrigger);
    y := y + "🟡 ";
    ClearExtend(y, "Caution ", Vertex.ExcerptTrigger);
    y := y + "Caution ";
    ClearExtend(y, "/ ", Vertex.ExcerptTrigger);
    y := y + "/ ";
    ClearExtend(y, "🔴 ", Vertex.ExcerptTrigger);
    y := y + "🔴 ";
    ClearExtend(y, "Risky ", Vertex.ExcerptTrigger);
    y := y + "Risky ";
    ClearExtend(y, "and ", Vertex.ExcerptTrigger);
    y := y + "and ";
    ClearExtend(y, "explain ", Vertex.ExcerptTrigger);
    y := y + "explain ";
    ClearExtend(y, "why.", Vertex.ExcerptTrigger);
    y := y + "why.";
  }

  /** The English instruction for a clause holds no trigger phrase. */
  lemma EnClausesHasNoTrigger()
    ensures Vertex.NoTrigger(Server.EnClauses)
  {
    TriggerHeads();
    ClearStart("Analyze ", Vertex.SummarizeTrigger);
    EnClausesClearOfSummarize("Analyze ");
    ClearNoOccurrence(Server.EnClauses, Vertex.SummarizeTrigger);
    ClearStart("Analyze ", Vertex.ExplainTrigger);
    EnClausesClearOfExplain("Analyze ");
    ClearNoOccurrence(Server.EnClauses, Vertex.ExplainTrigger);
    ClearStart("Analyze ", Vertex.ExcerptTrigger);
    EnClausesClearOfExcerpt("Analyze ");
    ClearNoOccurrence(Server.EnClauses, Vertex.ExcerptTrigger);
  }

  /** After its first word, the English instruction for a question keeps a text
      clear of the summary trigger. */
  lemma EnQaClearOfSummarize(x: string)
    requires Clear(x, Vertex.SummarizeTrigger)
    ensures Clear(x + "document " + "excerpt, " + "answer " + "the " + "question " + "clearly " + "in " + "English. " + "If " + "unsure, " + "say " + "'Consult " + "a " + "lawyer.'", Vertex.SummarizeTrigger)
  {
    TriggerHeads();
    var y := x;
    ClearExtend(y, "document ", Vertex.SummarizeTrigger);
    y := y + "document ";
    ClearExtend(y, "excerpt, ", Vertex.SummarizeTrigger);
    y := y + "excerpt, ";
    ClearExtend(y, "answer ", Vertex.SummarizeTrigger);
    y := y + "answer ";
    ClearExtend(y, "the ", Vertex.SummarizeTrigger);
    y := y + "the ";
    ClearExtend(y, "question ", Vertex.SummarizeTrigger);
    y := y + "question ";
    ClearExtend(y, "clearly ", Vertex.SummarizeTrigger);
    y := y + "clearly ";
    ClearExtend(y, "in ", Vertex.SummarizeTrigger);
    y := y + "in ";
    ClearExtend(y, "English. ", Vertex.SummarizeTrigger);
    y := y + "English. ";
    ClearExtend(y, "If ", Vertex.SummarizeTrigger);
    y := y + "If ";
    ClearExtend(y, "unsure, ", Vertex.SummarizeTrigger);
    y := y + "unsure, ";
    ClearExtend(y, "say ", Vertex.SummarizeTrigger);
    y := y + "say ";
    ClearExtend(y, "'Consult ", Vertex.SummarizeTrigger);
    y := y + "'Consult ";
    ClearExtend(y, "a ", Vertex.SummarizeTrigger);
    y := y + "a ";
    ClearExtend(y, "lawyer.'", Vertex.SummarizeTrigger);
    y := y + "lawyer.'";
  }

  /** After its first word, the English instruction for a question keeps a text
      clear of the explanation trigger. */
  lemma EnQaClearOfExplain(x: string)
    requires Clear(x, Vertex.ExplainTrigger)
    ensures Clear(x + "document " + "excerpt, " + "answer " + "the " + "question " + "clearly " + "in " + "English. " + "If " + "unsure, " + "say " + "'Consult " + "a " + "lawyer.'", Vertex.ExplainTrigger)
  {
    TriggerHeads();
    var y := x;
    ClearExtend(y, "document ", Vertex.ExplainTrigger);
    y := y + "document ";
    ClearExtend(y, "excerpt, ", Vertex.ExplainTrigger);
    y := y + "excerpt, ";
    ClearExtend(y, "answer ", Vertex.ExplainTrigger);
    y := y + "answer ";
    ClearExtend(y, "the ", Vertex.ExplainTrigger);
    y := y + "the ";
    ClearExtend(y, "question ", Vertex.ExplainTrigger);
    y := y + "question ";
    ClearExtend(y, "clearly ", Vertex.ExplainTrigger);
    y := y + "clearly ";
    ClearExtend(y, "in ", Vertex.ExplainTrigger);
    y := y + "in ";
    ClearHead(y, 'E', "nglish. ", Vertex.ExplainTrigger, 1);
    assert ['E'] + "nglish. " == "English. ";
    y := y + "English. ";
    ClearExtend(y, "If ", Vertex.ExplainTrigger);
    y := y + "If ";
    ClearExtend(y, "unsure, ", Vertex.ExplainTrigger);
    y := y + "unsure, ";
    ClearExtend(y, "say ", Vertex.ExplainTrigger);
    y := y + "say ";
    ClearExtend(y, "'Consult ", Vertex.ExplainTrigger);
    y := y + "'Consult ";
    ClearExtend(y, "a ", Vertex.ExplainTrigger);
    y := y + "a ";
    ClearExtend(y, "lawyer.'", Vertex.ExplainTrigger);
    y := y + "lawyer.'";
  }

  /** After its first word, the English instruction for a question keeps a text
      clear of the excerpt trigger. */
  lemma EnQaClearOfExcerpt(x: string)
    requires Clear(x, Vertex.ExcerptTrigger)
    ensures Clear(x + "document " + "excerpt, " + "answer " + "the " + "question " + "clearly " + "in " + "English. " + "If " + "unsure, " + "say " + "'Consult " + "a " + "lawyer.'", Vertex.ExcerptTrigger)
  {
    TriggerHeads();
    var y := x;
    ClearExtend(y, "document ", Vertex.ExcerptTrigger);
    y := y + "document ";
    ClearExtend(y, "excerpt, ", Vertex.ExcerptTrigger);
    y := y + "excerpt, ";
    ClearExtend(y, "answer ", Vertex.ExcerptTrigger);
    y := y + "answer ";
    ClearExtend(y, "the ", Vertex.ExcerptTrigger);
    y := y + "the ";
    ClearExtend(y, "question ", Vertex.ExcerptTrigger);
    y := y + "question ";
    ClearExtend(y, "clearly ", Vertex.ExcerptTrigger);
    y := y + "clearly ";
    ClearExtend(y, "in ", Vertex.ExcerptTrigger);
    y := y + "in ";
    ClearExtend(y, "English. ", Vertex.ExcerptTrigger);
    y := y + "English. ";
    ClearExtend(y, "If ", Vertex.ExcerptTrigger);
    y := y + "If ";
    ClearExtend(y, "unsure, ", Vertex.ExcerptTrigger);
    y := y + "unsure, ";
    ClearExtend(y, "say ", Vertex.ExcerptTrigger);
    y := y + "say ";
    ClearExtend(y, "'Consult ", Vertex.ExcerptTrigger);
    y := y + "'Consult ";
    ClearExtend(y, "a ", Vertex.ExcerptTrigger);
    y := y + "a ";
    ClearExtend(y, "lawyer.'", Vertex.ExcerptTrigger);
    y := y + "lawyer.'";
  }

  /** The English instruction for a question holds no trigger phrase. */
  lemma EnQaHasNoTrigger()
    ensures Vertex.NoTrigger(Server.EnQa)
  {
    TriggerHeads();
    ClearStart("Given this legal ", Vertex.SummarizeTrigger);
    EnQaClearOfSummarize("Given this legal ");
    ClearNoOccurrence(Server.EnQa, Vertex.SummarizeTrigger);
    ClearStart("Given this legal ", Vertex.ExplainTrigger);
    EnQaClearOfExplain("Given this legal ");
    ClearNoOccurrence(Server.EnQa, Vertex.ExplainTrigger);
    ClearHeadStart('G', "iven this legal ", Vertex.ExcerptTrigger, 11);
    assert ['G'] + "iven this legal " == "Given this legal ";
    EnQaClearOfExcerpt("Given this legal ");
    ClearNoOccurrence(Server.EnQa, Vertex.ExcerptTrigger);
  }

  /** After its first word, the Hindi instruction for a summary keeps a text
      clear of the summary trigger. */
  lemma HiSummarizeClearOfSummarize(x: string)
    requires Clear(x, Vertex.SummarizeTrigger)
    ensures Clear(x + "कानूनी " + "दस्तावेज़ " + "का " + "विश्लेषण " + "करें " + "और " + "हिंदी " + "में " + "एक " + "स्पष्ट, " + "समझने " + "में " + "आसान " + "सारांश " + "प्रदान " + "करें।", Vertex.SummarizeTrigger)
  {
    TriggerHeads();
    var y := x;
    ClearExtend(y, "कानूनी ", Vertex.SummarizeTrigger);
    y := y + "कानूनी ";
    ClearExtend(y, "दस्तावेज़ ", Vertex.SummarizeTrigger);
    y := y + "दस्तावेज़ ";
    ClearExtend(y, "का ", Vertex.SummarizeTrigger);
    y := y + "का ";
    ClearExtend(y, "विश्लेषण ", Vertex.SummarizeTrigger);
    y := y + "विश्लेषण ";
    ClearExtend(y, "करें ", Vertex.SummarizeTrigger);
    y := y + "करें ";
    ClearExtend(y, "और ", Vertex.SummarizeTrigger);
    y := y + "और ";
    ClearExtend(y, "हिंदी ", Vertex.SummarizeTrigger);
    y := y + "हिंदी ";
    ClearExtend(y, "में ", Vertex.SummarizeTrigger);
    y := y + "में ";
    ClearExtend(y, "एक ", Vertex.SummarizeTrigger);
    y := y + "एक ";
    ClearExtend(y, "स्पष्ट, ", Vertex.SummarizeTrigger);
    y := y + "स्पष्ट, ";
    ClearExtend(y, "समझने ", Vertex.SummarizeTrigger);
    y := y + "समझने ";
    ClearExtend(y, "में ", Vertex.SummarizeTrigger);
    y := y + "में ";
    ClearExtend(y, "आसान ", Vertex.SummarizeTrigger);
    y := y + "आसान ";
    ClearExtend(y, "सारांश ", Vertex.SummarizeTrigger);
    y := y + "सारांश ";
    ClearExtend(y, "प्रदान ", Vertex.SummarizeTrigger);
    y := y + "प्रदान ";
    ClearExtend(y, "करें।", Vertex.SummarizeTrigger);
    y := y + "करें।";
  }

  /** After its first word, the Hindi instruction for a summary keeps a text
      clear of the explanation trigger. */
  lemma HiSummarizeClearOfExplain(x: string)
    requires Clear(x, Vertex.ExplainTrigger)
    ensures Clear(x + "कानूनी " + "दस्तावेज़ " + "का " + "विश्लेषण " + "करें " + "और " + "हिंदी " + "में " + "एक " + "स्पष्ट, " + "समझने " + "में " + "आसान " + "सारांश " + "प्रदान " + "करें।", Vertex.ExplainTrigger)
  {
    TriggerHeads();
    var y := x;
    ClearExtend(y, "कानूनी ", Vertex.ExplainTrigger);
    y := y + "कानूनी ";
    ClearExtend(y, "दस्तावेज़ ", Vertex.ExplainTrigger);
    y := y + "दस्तावेज़ ";
    ClearExtend(y, "का ", Vertex.ExplainTrigger);
    y := y + "का ";
    ClearExtend(y, "विश्लेषण ", Vertex.ExplainTrigger);
    y := y + "विश्लेषण ";
    ClearExtend(y, "करें ", Vertex.ExplainTrigger);
    y := y + "करें ";
    ClearExtend(y, "और ", Vertex.ExplainTrigger);
    y := y + "और ";
    ClearExtend(y, "हिंदी ", Vertex.ExplainTrigger);
    y := y + "हिंदी ";
    ClearExtend(y, "में ", Vertex.ExplainTrigger);
    y := y + "में ";
    ClearExtend(y, "एक ", Vertex.ExplainTrigger);
    y := y + "एक ";
    ClearExtend(y, "स्पष्ट, ", Vertex.ExplainTrigger);
    y := y + "स्पष्ट, ";
    ClearExtend(y, "समझने ", Vertex.ExplainTrigger);
    y := y + "समझने ";
    ClearExtend(y, "में ", Vertex.ExplainTrigger);
    y := y + "में ";
    ClearExtend(y, "आसान ", Vertex.ExplainTrigger);
    y := y + "आसान ";
    ClearExtend(y, "सारांश ", Vertex.ExplainTrigger);
    y := y + "सारांश ";
    ClearExtend(y, "प्रदान ", Vertex.ExplainTrigger);
    y := y + "प्रदान ";
    ClearExtend(y, "करें।", Vertex.ExplainTrigger);
    y := y + "करें।";
  }

  /** After its first word, the Hindi instruction for a summary keeps a text
      clear of the excerpt trigger. */
  lemma HiSummarizeClearOfExcerpt(x: string)
    requires Clear(x, Vertex.ExcerptTrigger)
    ensures Clear(x + "कानूनी " + "दस्तावेज़ " + "का " + "विश्लेषण " + "करें " + "और " + "हिंदी " + "में " + "एक " + "स्पष्ट, " + "समझने " + "में " + "आसान " + "सारांश " + "प्रदान " + "करें।", Vertex.ExcerptTrigger)
  {
    TriggerHeads();
    var y := x;
    ClearExtend(y, "कानूनी ", Vertex.ExcerptTrigger);
    y := y + "कानूनी ";
    ClearExtend(y, "दस्तावेज़ ", Vertex.ExcerptTrigger);
    y := y + "दस्तावेज़ ";
    ClearExtend(y, "का ", Vertex.ExcerptTrigger);
    y := y + "का ";
    ClearExtend(y, "विश्लेषण ", Vertex.ExcerptTrigger);
    y := y + "विश्लेषण ";
    ClearExtend(y, "करें ", Vertex.ExcerptTrigger);
    y := y + "करें ";
    ClearExtend(y, "और ", Vertex.ExcerptTrigger);
    y := y + "और ";
    ClearExtend(y, "हिंदी ", Vertex.ExcerptTrigger);
    y := y + "हिंदी ";
    ClearExtend(y, "में ", Vertex.ExcerptTrigger);
    y := y + "में ";
    ClearExtend(y, "एक ", Vertex.ExcerptTrigger);
    y := y + "एक ";
    ClearExtend(y, "स्पष्ट, ", Vertex.ExcerptTrigger);
    y := y + "स्पष्ट, ";
    ClearExtend(y, "समझने ", Vertex.ExcerptTrigger);
    y := y + "समझने ";
    ClearExtend(y, "में ", Vertex.ExcerptTrigger);
    y := y + "में ";
    ClearExtend(y, "आसान ", Vertex.ExcerptTrigger);
    y := y + "आसान ";
    ClearExtend(y, "सारांश ", Vertex.ExcerptTrigger);
    y := y + "सारांश ";
    ClearExtend(y, "प्रदान ", Vertex.ExcerptTrigger);
    y := y + "प्रदान ";
    ClearExtend(y, "करें।", Vertex.ExcerptTrigger);
    y := y + "करें।";
  }

  /** The Hindi instruction for a summary holds no trigger phrase. */
  lemma HiSummarizeHasNoTrigger()
    ensures Vertex.NoTrigger(Server.HiSummarize)
  {
    TriggerHeads();
    ClearStart("इस ", Vertex.SummarizeTrigger);
    HiSummarizeClearOfSummarize("इस ");
    ClearNoOccurrence(Server.HiSummarize, Vertex.SummarizeTrigger);
    ClearStart("इस ", Vertex.ExplainTrigger);
    HiSummarizeClearOfExplain("इस ");
    ClearNoOccurrence(Server.HiSummarize, Vertex.ExplainTrigger);
    ClearStart("इस ", Vertex.ExcerptTrigger);
    HiSummarizeClearOfExcerpt("इस ");
    ClearNoOccurrence(Server.HiSummarize, Vertex.ExcerptTrigger);
  }

  /** After its first word, the Hindi instruction for a clause keeps a text
      clear of the summary trigger. */
  lemma HiClausesClearOfSummarize(x: string)
    requires Clear(x, Vertex.SummarizeTrigger)
    ensures Clear(x + "कानूनी " + "धारा " + "का " + "विश्लेषण " + "करें " + "और " + "हिंदी " + "में " + "व्याख्या " + "प्रदान " + "करें। " + "🟢 " + "सुरक्षित " + "/ " + "🟡 " + "सावधानी " + "/ " + "🔴 " + "जोखिम " + "भरा " + "चिह्नित " + "करें " + "और " + "क्यों " + "समझाएं।", Vertex.SummarizeTrigger)
  {
    TriggerHeads();
    var y := x;
    ClearExtend(y, "कानूनी ", Vertex.SummarizeTrigger);
    y := y + "कानूनी ";
    ClearExtend(y, "धारा ", Vertex.SummarizeTrigger);
    y := y + "धारा ";
    ClearExtend(y, "का ", Vertex.SummarizeTrigger);
    y := y + "का ";
    ClearExtend(y, "विश्लेषण ", Vertex.SummarizeTrigger);
    y := y + "विश्लेषण ";
    ClearExtend(y, "करें ", Vertex.SummarizeTrigger);
    y := y + "करें ";
    ClearExtend(y, "और ", Vertex.SummarizeTrigger);
    y := y + "और ";
    ClearExtend(y, "हिंदी ", Vertex.SummarizeTrigger);
    y := y + "हिंदी ";
    ClearExtend(y, "में ", Vertex.SummarizeTrigger);
    y := y + "में ";
    ClearExtend(y, "व्याख्या ", Vertex.SummarizeTrigger);
    y := y + "व्याख्या ";
    ClearExtend(y, "प्रदान ", Vertex.SummarizeTrigger);
    y := y + "प्रदान ";
    ClearExtend(y, "करें। ", Vertex.SummarizeTrigger);
    y := y + "करें। ";
    ClearExtend(y, "🟢 ", Vertex.SummarizeTrigger);
    y := y + "🟢 ";
    ClearExtend(y, "सुरक्षित ", Vertex.SummarizeTrigger);
    y := y + "सुरक्षित ";
    ClearExtend(y, "/ ", Vertex.SummarizeTrigger);
    y := y + "/ ";
    ClearExtend(y, "🟡 ", Vertex.SummarizeTrigger);
    y := y + "🟡 ";
    ClearExtend(y, "सावधानी ", Vertex.SummarizeTrigger);
    y := y + "सावधानी ";
    ClearExtend(y, "/ ", Vertex.SummarizeTrigger);
    y := y + "/ ";
    ClearExtend(y, "🔴 ", Vertex.SummarizeTrigger);
    y := y + "🔴 ";
    ClearExtend(y, "जोखिम ", Vertex.SummarizeTrigger);
    y := y + "जोखिम ";
    ClearExtend(y, "भरा ", Vertex.SummarizeTrigger);
    y := y + "भरा ";
    ClearExtend(y, "चिह्नित ", Vertex.SummarizeTrigger);
    y := y + "चिह्नित ";
    ClearExtend(y, "करें ", Vertex.SummarizeTrigger);
    y := y + "करें ";
    ClearExtend(y, "और ", Vertex.SummarizeTrigger);
    y := y + "और ";
    ClearExtend(y, "क्यों ", Vertex.SummarizeTrigger);
    y := y + "क्यों ";
    ClearExtend(y, "समझाएं।", Vertex.SummarizeTrigger);
    y := y + "समझाएं।";
  }

  /** After its first word, the Hindi instruction for a clause keeps a text
      clear of the explanation trigger. */
  lemma HiClausesClearOfExplain(x: string)
    requires Clear(x, Vertex.ExplainTrigger)
    ensures Clear(x + "कानूनी " + "धारा " + "का " + "विश्लेषण " + "करें " + "और " + "हिंदी " + "में " + "व्याख्या " + "प्रदान " + "करें। " + "🟢 " + "सुरक्षित " + "/ " + "🟡 " + "सावधानी " + "/ " + "🔴 " + "जोखिम " + "भरा " + "चिह्नित " + "करें " + "और " + "क्यों " + "समझाएं।", Vertex.ExplainTrigger)
  {
    TriggerHeads();
    var y := x;
    ClearExtend(y, "कानूनी ", Vertex.ExplainTrigger);
    y := y + "कानूनी ";
    ClearExtend(y, "धारा ", Vertex.ExplainTrigger);
    y := y + "धारा ";
    ClearExtend(y, "का ", Vertex.ExplainTrigger);
    y := y + "का ";
    ClearExtend(y, "विश्लेषण ", Vertex.ExplainTrigger);
    y := y + "विश्लेषण ";
    ClearExtend(y, "करें ", Vertex.ExplainTrigger);
    y := y + "करें ";
    ClearExtend(y, "और ", Vertex.ExplainTrigger);
    y := y + "और ";
    ClearExtend(y, "हिंदी ", Vertex.ExplainTrigger);
    y := y + "हिंदी ";
    ClearExtend(y, "में ", Vertex.ExplainTrigger);
    y := y + "में ";
    ClearExtend(y, "व्याख्या ", Vertex.ExplainTrigger);
    y := y + "व्याख्या ";
    ClearExtend(y, "प्रदान ", Vertex.ExplainTrigger);
    y := y + "प्रदान ";
    ClearExtend(y, "करें। ", Vertex.ExplainTrigger);
    y := y + "करें। ";
    ClearExtend(y, "🟢 ", Vertex.ExplainTrigger);
    y := y + "🟢 ";
    ClearExtend(y, "सुरक्षित ", Vertex.ExplainTrigger);
    y := y + "सुरक्षित ";
    ClearExtend(y, "/ ", Vertex.ExplainTrigger);
    y := y + "/ ";
    ClearExtend(y, "🟡 ", Vertex.ExplainTrigger);
    y := y + "🟡 ";
    ClearExtend(y, "सावधानी ", Vertex.ExplainTrigger);
    y := y + "सावधानी ";
    ClearExtend(y, "/ ", Vertex.ExplainTrigger);
    y := y + "/ ";
    ClearExtend(y, "🔴 ", Vertex.ExplainTrigger);
    y := y + "🔴 ";
    ClearExtend(y, "जोखिम ", Vertex.ExplainTrigger);
    y := y + "जोखिम ";
    ClearExtend(y, "भरा ", Vertex.ExplainTrigger);
    y := y + "भरा ";
    ClearExtend(y, "चिह्नित ", Vertex.ExplainTrigger);
    y := y + "चिह्नित ";
    ClearExtend(y, "करें ", Vertex.ExplainTrigger);
    y := y + "करें ";
    ClearExtend(y, "और ", Vertex.ExplainTrigger);
    y := y + "और ";
    ClearExtend(y, "क्यों ", Vertex.ExplainTrigger);
    y := y + "क्यों ";
    ClearExtend(y, "समझाएं।", Vertex.ExplainTrigger);
    y := y + "समझाएं।";
  }

  /** After its first word, the Hindi instruction for a clause keeps a text
      clear of the excerpt trigger. */
  lemma HiClausesClearOfExcerpt(x: string)
    requires Clear(x, Vertex.ExcerptTrigger)
    ensures Clear(x + "कानूनी " + "धारा " + "का " + "विश्लेषण " + "करें " + "और " + "हिंदी " + "में " + "व्याख्या " + "प्रदान " + "करें। " + "🟢 " + "सुरक्षित " + "/ " + "🟡 " + "सावधानी " + "/ " + "🔴 " + "जोखिम " + "भरा " + "चिह्नित " + "करें " + "और " + "क्यों " + "समझाएं।", Vertex.ExcerptTrigger)
  {
    TriggerHeads();
    var y := x;
    ClearExtend(y, "कानूनी ", Vertex.ExcerptTrigger);
    y := y + "कानूनी ";
    ClearExtend(y, "धारा ", Vertex.ExcerptTrigger);
    y := y + "धारा ";
    ClearExtend(y, "का ", Vertex.ExcerptTrigger);
    y := y + "का ";
    ClearExtend(y, "विश्लेषण ", Vertex.ExcerptTrigger);
    y := y + "विश्लेषण ";
    ClearExtend(y, "करें ", Vertex.ExcerptTrigger);
    y := y + "करें ";
    ClearExtend(y, "और ", Vertex.ExcerptTrigger);
    y := y + "और ";
    ClearExtend(y, "हिंदी ", Vertex.ExcerptTrigger);
    y := y + "हिंदी ";
    ClearExtend(y, "में ", Vertex.ExcerptTrigger);
    y := y + "में ";
    ClearExtend(y, "व्याख्या ", Vertex.ExcerptTrigger);
    y := y + "व्याख्या ";
    ClearExtend(y, "प्रदान ", Vertex.ExcerptTrigger);
    y := y + "प्रदान ";
    ClearExtend(y, "करें। ", Vertex.ExcerptTrigger);
    y := y + "करें। ";
    ClearExtend(y, "🟢 ", Vertex.ExcerptTrigger);
    y := y + "🟢 ";
    ClearExtend(y, "सुरक्षित ", Vertex.ExcerptTrigger);
    y := y + "सुरक्षित ";
    ClearExtend(y, "/ ", Vertex.ExcerptTrigger);
    y := y + "/ ";
    ClearExtend(y, "🟡 ", Vertex.ExcerptTrigger);
    y := y + "🟡 ";
    ClearExtend(y, "सावधानी ", Vertex.ExcerptTrigger);
    y := y + "सावधानी ";
    ClearExtend(y, "/ ", Vertex.ExcerptTrigger);
    y := y + "/ ";
    ClearExtend(y, "🔴 ", Vertex.ExcerptTrigger);
    y := y + "🔴 ";
    ClearExtend(y, "जोखिम ", Vertex.ExcerptTrigger);
    y := y + "जोखिम ";
    ClearExtend(y, "भरा ", Vertex.ExcerptTrigger);
    y := y + "भरा ";
    ClearExtend(y, "चिह्नित ", Vertex.ExcerptTrigger);
    y := y + "चिह्नित ";
    ClearExtend(y, "करें ", Vertex.ExcerptTrigger);
    y := y + "करें ";
    ClearExtend(y, "और ", Vertex.ExcerptTrigger);
    y := y + "और ";
    ClearExtend(y, "क्यों ", Vertex.ExcerptTrigger);
    y := y + "क्यों ";
    ClearExtend(y, "समझाएं।", Vertex.ExcerptTrigger);
    y := y + "समझाएं।";
  }

  /** The Hindi instruction for a clause holds no trigger phrase. */
  lemma HiClausesHasNoTrigger()
    ensures Vertex.NoTrigger(Server.HiClauses)
  {
    TriggerHeads();
    ClearStart("इस ", Vertex.SummarizeTrigger);
    HiClausesClearOfSummarize("इस ");
    ClearNoOccurrence(Server.HiClauses, Vertex.SummarizeTrigger);
    ClearStart("इस ", Vertex.ExplainTrigger);
    HiClausesClearOfExplain("इस ");
    ClearNoOccurrence(Server.HiClauses, Vertex.ExplainTrigger);
    ClearStart("इस ", Vertex.ExcerptTrigger);
    HiClausesClearOfExcerpt("इस ");
    ClearNoOccurrence(Server.HiClauses, Vertex.ExcerptTrigger);
  }

  /** After its first word, the Hindi instruction for a question keeps a text
      clear of the summary trigger. */
  lemma HiQaClearOfSummarize(x: string)
    requires Clear(x, Vertex.SummarizeTrigger)
    ensures Clear(x + "कानूनी " + "दस्तावेज़ " + "अंश " + "को " + "देखते " + "हुए, " + "प्रश्न " + "का " + "स्पष्ट " + "उत्तर " + "हिंदी " + "में " + "दें। " + "यदि " + "अनिश्चित " + "हैं, " + "तो " + "'वकील " + "से " + "सलाह " + "लें' " + "कहें।", Vertex.SummarizeTrigger)
  {
    TriggerHeads();
    var y := x;
    ClearExtend(y, "कानूनी ", Vertex.SummarizeTrigger);
    y := y + "कानूनी ";
    ClearExtend(y, "दस्तावेज़ ", Vertex.SummarizeTrigger);
    y := y + "दस्तावेज़ ";
    ClearExtend(y, "अंश ", Vertex.SummarizeTrigger);
    y := y + "अंश ";
    ClearExtend(y, "को ", Vertex.SummarizeTrigger);
    y := y + "को ";
    ClearExtend(y, "देखते ", Vertex.SummarizeTrigger);
    y := y + "देखते ";
    ClearExtend(y, "हुए, ", Vertex.SummarizeTrigger);
    y := y + "हुए, ";
    ClearExtend(y, "प्रश्न ", Vertex.SummarizeTrigger);
    y := y + "प्रश्न ";
    ClearExtend(y, "का ", Vertex.SummarizeTrigger);
    y := y + "का ";
    ClearExtend(y, "स्पष्ट ", Vertex.SummarizeTrigger);
    y := y + "स्पष्ट ";
    ClearExtend(y, "उत्तर ", Vertex.SummarizeTrigger);
    y := y + "उत्तर ";
    ClearExtend(y, "हिंदी ", Vertex.SummarizeTrigger);
    y := y + "हिंदी ";
    ClearExtend(y, "में ", Vertex.SummarizeTrigger);
    y := y + "में ";
    ClearExtend(y, "दें। ", Vertex.SummarizeTrigger);
    y := y + "दें। ";
    ClearExtend(y, "यदि ", Vertex.SummarizeTrigger);
    y := y + "यदि ";
    ClearExtend(y, "अनिश्चित ", Vertex.SummarizeTrigger);
    y := y + "अनिश्चित ";
    ClearExtend(y, "हैं, ", Vertex.SummarizeTrigger);
    y := y + "हैं, ";
    ClearExtend(y, "तो ", Vertex.SummarizeTrigger);
    y := y + "तो ";
    ClearExtend(y, "'वकील ", Vertex.SummarizeTrigger);
    y := y + "'वकील ";
    ClearExtend(y, "से ", Vertex.SummarizeTrigger);
    y := y + "से ";
    ClearExtend(y, "सलाह ", Vertex.SummarizeTrigger);
    y := y + "सलाह ";
    ClearExtend(y, "लें' ", Vertex.SummarizeTrigger);
    y := y + "लें' ";
    ClearExtend(y, "कहें।", Vertex.SummarizeTrigger);
    y := y + "कहें।";
  }

  /** After its first word, the Hindi instruction for a question keeps a text
      clear of the explanation trigger. */
  lemma HiQaClearOfExplain(x: string)
    requires Clear(x, Vertex.ExplainTrigger)
    ensures Clear(x + "कानूनी " + "दस्तावेज़ " + "अंश " + "को " + "देखते " + "हुए, " + "प्रश्न " + "का " + "स्पष्ट " + "उत्तर " + "हिंदी " + "में " + "दें। " + "यदि " + "अनिश्चित " + "हैं, " + "तो " + "'वकील " + "से " + "सलाह " + "लें' " + "कहें।", Vertex.ExplainTrigger)
  {
    TriggerHeads();
    var y := x;
    ClearExtend(y, "कानूनी ", Vertex.ExplainTrigger);
    y := y + "कानूनी ";
    ClearExtend(y, "दस्तावेज़ ", Vertex.ExplainTrigger);
    y := y + "दस्तावेज़ ";
    ClearExtend(y, "अंश ", Vertex.ExplainTrigger);
    y := y + "अंश ";
    ClearExtend(y, "को ", Vertex.ExplainTrigger);
    y := y + "को ";
    ClearExtend(y, "देखते ", Vertex.ExplainTrigger);
    y := y + "देखते ";
    ClearExtend(y, "हुए, ", Vertex.ExplainTrigger);
    y := y + "हुए, ";
    ClearExtend(y, "प्रश्न ", Vertex.ExplainTrigger);
    y := y + "प्रश्न ";
    ClearExtend(y, "का ", Vertex.ExplainTrigger);
    y := y + "का ";
    ClearExtend(y, "स्पष्ट ", Vertex.ExplainTrigger);
    y := y + "स्पष्ट ";
    ClearExtend(y, "उत्तर ", Vertex.ExplainTrigger);
    y := y + "उत्तर ";
    ClearExtend(y, "हिंदी ", Vertex.ExplainTrigger);
    y := y + "हिंदी ";
    ClearExtend(y, "में ", Vertex.ExplainTrigger);
    y := y + "में ";
    ClearExtend(y, "दें। ", Vertex.ExplainTrigger);
    y := y + "दें। ";
    ClearExtend(y, "यदि ", Vertex.ExplainTrigger);
    y := y + "यदि ";
    ClearExtend(y, "अनिश्चित ", Vertex.ExplainTrigger);
    y := y + "अनिश्चित ";
    ClearExtend(y, "हैं, ", Vertex.ExplainTrigger);
    y := y + "हैं, ";
    ClearExtend(y, "तो ", Vertex.ExplainTrigger);
    y := y + "तो ";
    ClearExtend(y, "'वकील ", Vertex.ExplainTrigger);
    y := y + "'वकील ";
    ClearExtend(y, "से ", Vertex.ExplainTrigger);
    y := y + "से ";
    ClearExtend(y, "सलाह ", Vertex.ExplainTrigger);
    y := y + "सलाह ";
    ClearExtend(y, "लें' ", Vertex.ExplainTrigger);
    y := y + "लें' ";
    ClearExtend(y, "कहें।", Vertex.ExplainTrigger);
    y := y + "कहें।";
  }

  /** After its first word, the Hindi instruction for a question keeps a text
      clear of the excerpt trigger. */
  lemma HiQaClearOfExcerpt(x: string)
    requires Clear(x, Vertex.ExcerptTrigger)
    ensures Clear(x + "कानूनी " + "दस्तावेज़ " + "अंश " + "को " + "देखते " + "हुए, " + "प्रश्न " + "का " + "स्पष्ट " + "उत्तर " + "हिंदी " + "में " + "दें। " + "यदि " + "अनिश्चित " + "हैं, " + "तो " + "'वकील " + "से " + "सलाह " + "लें' " + "कहें।", Vertex.ExcerptTrigger)
  {
    TriggerHeads();
    var y := x;
    ClearExtend(y, "कानूनी ", Vertex.ExcerptTrigger);
    y := y + "कानूनी ";
    ClearExtend(y, "दस्तावेज़ ", Vertex.ExcerptTrigger);
    y := y + "दस्तावेज़ ";
    ClearExtend(y, "अंश ", Vertex.ExcerptTrigger);
    y := y + "अंश ";
    ClearExtend(y, "को ", Vertex.ExcerptTrigger);
    y := y + "को ";
    ClearExtend(y, "देखते ", Vertex.ExcerptTrigger);
    y := y + "देखते ";
    ClearExtend(y, "हुए, ", Vertex.ExcerptTrigger);
    y := y + "हुए, ";
    ClearExtend(y, "प्रश्न ", Vertex.ExcerptTrigger);
    y := y + "प्रश्न ";
    ClearExtend(y, "का ", Vertex.ExcerptTrigger);
    y := y + "का ";
    ClearExtend(y, "स्पष्ट ", Vertex.ExcerptTrigger);
    y := y + "स्पष्ट ";
    ClearExtend(y, "उत्तर ", Vertex.ExcerptTrigger);
    y := y + "उत्तर ";
    ClearExtend(y, "हिंदी ", Vertex.ExcerptTrigger);
    y := y + "हिंदी ";
    ClearExtend(y, "में ", Vertex.ExcerptTrigger);
    y := y + "में ";
    ClearExtend(y, "दें। ", Vertex.ExcerptTrigger);
    y := y + "दें। ";
    ClearExtend(y, "यदि ", Vertex.ExcerptTrigger);
    y := y + "यदि ";
    ClearExtend(y, "अनिश्चित ", Vertex.ExcerptTrigger);
    y := y + "अनिश्चित ";
    ClearExtend(y, "हैं, ", Vertex.ExcerptTrigger);
    y := y + "हैं, ";
    ClearExtend(y, "तो ", Vertex.ExcerptTrigger);
    y := y + "तो ";
    ClearExtend(y, "'वकील ", Vertex.ExcerptTrigger);
    y := y + "'वकील ";
    ClearExtend(y, "से ", Vertex.ExcerptTrigger);
    y := y + "से ";
    ClearExtend(y, "सलाह ", Vertex.ExcerptTrigger);
    y := y + "सलाह ";
    ClearExtend(y, "लें' ", Vertex.ExcerptTrigger);
    y := y + "लें' ";
    ClearExtend(y, "कहें।", Vertex.ExcerptTrigger);
    y := y + "कहें।";
  }

  /** The Hindi instruction for a question holds no trigger phrase. */
  lemma HiQaHasNoTrigger()
    ensures Vertex.NoTrigger(Server.HiQa)
  {
    TriggerHeads();
    ClearStart("इस ", Vertex.SummarizeTrigger);
    HiQaClearOfSummarize("इस ");
    ClearNoOccurrence(Server.HiQa, Vertex.SummarizeTrigger);
    ClearStart("इस ", Vertex.ExplainTrigger);
    HiQaClearOfExplain("इस ");
    ClearNoOccurrence(Server.HiQa, Vertex.ExplainTrigger);
    ClearStart("इस ", Vertex.ExcerptTrigger);
    HiQaClearOfExcerpt("इस ");
    ClearNoOccurrence(Server.HiQa, Vertex.ExcerptTrigger);
  }

  /** After its first word, the Marathi instruction for a summary keeps a text
      clear of the summary trigger. */
  lemma MrSummarizeClearOfSummarize(x: string)
    requires Clear(x, Vertex.SummarizeTrigger)
    ensures Clear(x + "कायदेशीर " + "दस्तावेजाचे " + "विश्लेषण " + "करा " + "आणि " + "मराठीत " + "स्पष्ट, " + "समजण्यास " + "सोपे " + "सारांश " + "द्या.", Vertex.SummarizeTrigger)
  {
    TriggerHeads();
    var y := x;
    ClearExtend(y, "कायदेशीर ", Vertex.SummarizeTrigger);
    y := y + "कायदेशीर ";
    ClearExtend(y, "दस्तावेजाचे ", Vertex.SummarizeTrigger);
    y := y + "दस्तावेजाचे ";
    ClearExtend(y, "विश्लेषण ", Vertex.SummarizeTrigger);
    y := y + "विश्लेषण ";
    ClearExtend(y, "करा ", Vertex.SummarizeTrigger);
    y := y + "करा ";
    ClearExtend(y, "आणि ", Vertex.SummarizeTrigger);
    y := y + "आणि ";
    ClearExtend(y, "मराठीत ", Vertex.SummarizeTrigger);
    y := y + "मराठीत ";
    ClearExtend(y, "स्पष्ट, ", Vertex.SummarizeTrigger);
    y := y + "स्पष्ट, ";
    ClearExtend(y, "समजण्यास ", Vertex.SummarizeTrigger);
    y := y + "समजण्यास ";
    ClearExtend(y, "सोपे ", Vertex.SummarizeTrigger);
    y := y + "सोपे ";
    ClearExtend(y, "सारांश ", Vertex.SummarizeTrigger);
    y := y + "सारांश ";
    ClearExtend(y, "द्या.", Vertex.SummarizeTrigger);
    y := y + "द्या.";
  }

  /** After its first word, the Marathi instruction for a summary keeps a text
      clear of the explanation trigger. */
  lemma MrSummarizeClearOfExplain(x: string)
    requires Clear(x, Vertex.ExplainTrigger)
    ensures Clear(x + "कायदेशीर " + "दस्तावेजाचे " + "विश्लेषण " + "करा " + "आणि " + "मराठीत " + "स्पष्ट, " + "समजण्यास " + "सोपे " + "सारांश " + "द्या.", Vertex.ExplainTrigger)
  {
    TriggerHeads();
    var y := x;
    ClearExtend(y, "कायदेशीर ", Vertex.ExplainTrigger);
    y := y + "कायदेशीर ";
    ClearExtend(y, "दस्तावेजाचे ", Vertex.ExplainTrigger);
    y := y + "दस्तावेजाचे ";
    ClearExtend(y, "विश्लेषण ", Vertex.ExplainTrigger);
    y := y + "विश्लेषण ";
    ClearExtend(y, "करा ", Vertex.ExplainTrigger);
    y := y + "करा ";
    ClearExtend(y, "आणि ", Vertex.ExplainTrigger);
    y := y + "आणि ";
    ClearExtend(y, "मराठीत ", Vertex.ExplainTrigger);
    y := y + "मराठीत ";
    ClearExtend(y, "स्पष्ट, ", Vertex.ExplainTrigger);
    y := y + "स्पष्ट, ";
    ClearExtend(y, "समजण्यास ", Vertex.ExplainTrigger);
    y := y + "समजण्यास ";
    ClearExtend(y, "सोपे ", Vertex.ExplainTrigger);
    y := y + "सोपे ";
    ClearExtend(y, "सारांश ", Vertex.ExplainTrigger);
    y := y + "सारांश ";
    ClearExtend(y, "द्या.", Vertex.ExplainTrigger);
    y := y + "द्या.";
  }

  /** After its first word, the Marathi instruction for a summary keeps a text
      clear of the excerpt trigger. */
  lemma MrSummarizeClearOfExcerpt(x: string)
    requires Clear(x, Vertex.ExcerptTrigger)
    ensures Clear(x + "कायदेशीर " + "दस्तावेजाचे " + "विश्लेषण " + "करा " + "आणि " + "मराठीत " + "स्पष्ट, " + "समजण्यास " + "सोपे " + "सारांश " + "द्या.", Vertex.ExcerptTrigger)
  {
    TriggerHeads();
    var y := x;
    ClearExtend(y, "कायदेशीर ", Vertex.ExcerptTrigger);
    y := y + "कायदेशीर ";
    ClearExtend(y, "दस्तावेजाचे ", Vertex.ExcerptTrigger);
    y := y + "दस्तावेजाचे ";
    ClearExtend(y, "विश्लेषण ", Vertex.ExcerptTrigger);
    y := y + "विश्लेषण ";
    ClearExtend(y, "करा ", Vertex.ExcerptTrigger);
    y := y + "करा ";
    ClearExtend(y, "आणि ", Vertex.ExcerptTrigger);
    y := y + "आणि ";
    ClearExtend(y, "मराठीत ", Vertex.ExcerptTrigger);
    y := y + "मराठीत ";
    ClearExtend(y, "स्पष्ट, ", Vertex.ExcerptTrigger);
    y := y + "स्पष्ट, ";
    ClearExtend(y, "समजण्यास ", Vertex.ExcerptTrigger);
    y := y + "समजण्यास ";
    ClearExtend(y, "सोपे ", Vertex.ExcerptTrigger);
    y := y + "सोपे ";
    ClearExtend(y, "सारांश ", Vertex.ExcerptTrigger);
    y := y + "सारांश ";
    ClearExtend(y, "द्या.", Vertex.ExcerptTrigger);
    y := y + "द्या.";
  }

  /** The Marathi instruction for a summary holds no trigger phrase. */
  lemma MrSummarizeHasNoTrigger()
    ensures Vertex.NoTrigger(Server.MrSummarize)
  {
    TriggerHeads();
    ClearStart("या ", Vertex.SummarizeTrigger);
    MrSummarizeClearOfSummarize("या ");
    ClearNoOccurrence(Server.MrSummarize, Vertex.SummarizeTrigger);
    ClearStart("या ", Vertex.ExplainTrigger);
    MrSummarizeClearOfExplain("या ");
    ClearNoOccurrence(Server.MrSummarize, Vertex.ExplainTrigger);
    ClearStart("या ", Vertex.ExcerptTrigger);
    MrSummarizeClearOfExcerpt("या ");
    ClearNoOccurrence(Server.MrSummarize, Vertex.ExcerptTrigger);
  }

  /** After its first word, the Marathi instruction for a clause keeps a text
      clear of the summary trigger. */
  lemma MrClausesClearOfSummarize(x: string)
    requires Clear(x, Vertex.SummarizeTrigger)
    ensures Clear(x + "कायदेशीर " + "कलमाचे " + "विश्लेषण " + "करा " + "आणि " + "मराठीत " + "स्पष्टीकरण " + "द्या. " + "🟢 " + "सुरक्षित " + "/ " + "🟡 " + "सावधानता " + "/ " + "🔴 " + "धोकादायक " + "चिन्हांकित " + "करा " + "आणि " + "का " + "हे " + "स्पष्ट " + "करा.", Vertex.SummarizeTrigger)
  {
    TriggerHeads();
    var y := x;
    ClearExtend(y, "कायदेशीर ", Vertex.SummarizeTrigger);
    y := y + "कायदेशीर ";
    ClearExtend(y, "कलमाचे ", Vertex.SummarizeTrigger);
    y := y + "कलमाचे ";
    ClearExtend(y, "विश्लेषण ", Vertex.SummarizeTrigger);
    y := y + "विश्लेषण ";
    ClearExtend(y, "करा ", Vertex.SummarizeTrigger);
    y := y + "करा ";
    ClearExtend(y, "आणि ", Vertex.SummarizeTrigger);
    y := y + "आणि ";
    ClearExtend(y, "मराठीत ", Vertex.SummarizeTrigger);
    y := y + "मराठीत ";
    ClearExtend(y, "स्पष्टीकरण ", Vertex.SummarizeTrigger);
    y := y + "स्पष्टीकरण ";
    ClearExtend(y, "द्या. ", Vertex.SummarizeTrigger);
    y := y + "द्या. ";
    ClearExtend(y, "🟢 ", Vertex.SummarizeTrigger);
    y := y + "🟢 ";
    ClearExtend(y, "सुरक्षित ", Vertex.SummarizeTrigger);
    y := y + "सुरक्षित ";
    ClearExtend(y, "/ ", Vertex.SummarizeTrigger);
    y := y + "/ ";
    ClearExtend(y, "🟡 ", Vertex.SummarizeTrigger);
    y := y + "🟡 ";
    ClearExtend(y, "सावधानता ", Vertex.SummarizeTrigger);
    y := y + "सावधानता ";
    ClearExtend(y, "/ ", Vertex.SummarizeTrigger);
    y := y + "/ ";
    ClearExtend(y, "🔴 ", Vertex.SummarizeTrigger);
    y := y + "🔴 ";
    ClearExtend(y, "धोकादायक ", Vertex.SummarizeTrigger);
    y := y + "धोकादायक ";
    ClearExtend(y, "चिन्हांकित ", Vertex.SummarizeTrigger);
    y := y + "चिन्हांकित ";
    ClearExtend(y, "करा ", Vertex.SummarizeTrigger);
    y := y + "करा ";
    ClearExtend(y, "आणि ", Vertex.SummarizeTrigger);
    y := y + "आणि ";
    ClearExtend(y, "का ", Vertex.SummarizeTrigger);
    y := y + "का ";
    ClearExtend(y, "हे ", Vertex.SummarizeTrigger);
    y := y + "हे ";
    ClearExtend(y, "स्पष्ट ", Vertex.SummarizeTrigger);
    y := y + "स्पष्ट ";
    ClearExtend(y, "करा.", Vertex.SummarizeTrigger);
    y := y + "करा.";
  }

  /** After its first word, the Marathi instruction for a clause keeps a text
      clear of the explanation trigger. */
  lemma MrClausesClearOfExplain(x: string)
    requires Clear(x, Vertex.ExplainTrigger)
    ensures Clear(x + "कायदेशीर " + "कलमाचे " + "विश्लेषण " + "करा " + "आणि " + "मराठीत " + "स्पष्टीकरण " + "द्या. " + "🟢 " + "सुरक्षित " + "/ " + "🟡 " + "सावधानता " + "/ " + "🔴 " + "धोकादायक " + "चिन्हांकित " + "करा " + "आणि " + "का " + "हे " + "स्पष्ट " + "करा.", Vertex.ExplainTrigger)
  {
    TriggerHeads();
    var y := x;
    ClearExtend(y, "कायदेशीर ", Vertex.ExplainTrigger);
    y := y + "कायदेशीर ";
    ClearExtend(y, "कलमाचे ", Vertex.ExplainTrigger);
    y := y + "कलमाचे ";
    ClearExtend(y, "विश्लेषण ", Vertex.ExplainTrigger);
    y := y + "विश्लेषण ";
    ClearExtend(y, "करा ", Vertex.ExplainTrigger);
    y := y + "करा ";
    ClearExtend(y, "आणि ", Vertex.ExplainTrigger);
    y := y + "आणि ";
    ClearExtend(y, "मराठीत ", Vertex.ExplainTrigger);
    y := y + "मराठीत ";
    ClearExtend(y, "स्पष्टीकरण ", Vertex.ExplainTrigger);
    y := y + "स्पष्टीकरण ";
    ClearExtend(y, "द्या. ", Vertex.ExplainTrigger);
    y := y + "द्या. ";
    ClearExtend(y, "🟢 ", Vertex.ExplainTrigger);
    y := y + "🟢 ";
    ClearExtend(y, "सुरक्षित ", Vertex.ExplainTrigger);
    y := y + "सुरक्षित ";
    ClearExtend(y, "/ ", Vertex.ExplainTrigger);
    y := y + "/ ";
    ClearExtend(y, "🟡 ", Vertex.ExplainTrigger);
    y := y + "🟡 ";
    ClearExtend(y, "सावधानता ", Vertex.ExplainTrigger);
    y := y + "सावधानता ";
    ClearExtend(y, "/ ", Vertex.ExplainTrigger);
    y := y + "/ ";
    ClearExtend(y, "🔴 ", Vertex.ExplainTrigger);
    y := y + "🔴 ";
    ClearExtend(y, "धोकादायक ", Vertex.ExplainTrigger);
    y := y + "धोकादायक ";
    ClearExtend(y, "चिन्हांकित ", Vertex.ExplainTrigger);
    y := y + "चिन्हांकित ";
    ClearExtend(y, "करा ", Vertex.ExplainTrigger);
    y := y + "करा ";
    ClearExtend(y, "आणि ", Vertex.ExplainTrigger);
    y := y + "आणि ";
    ClearExtend(y, "का ", Vertex.ExplainTrigger);
    y := y + "का ";
    ClearExtend(y, "हे ", Vertex.ExplainTrigger);
    y := y + "हे ";
    ClearExtend(y, "स्पष्ट ", Vertex.ExplainTrigger);
    y := y + "स्पष्ट ";
    ClearExtend(y, "करा.", Vertex.ExplainTrigger);
    y := y + "करा.";
  }

  /** After its first word, the Marathi instruction for a clause keeps a text
      clear of the excerpt trigger. */
  lemma MrClausesClearOfExcerpt(x: string)
    requires Clear(x, Vertex.ExcerptTrigger)
    ensures Clear(x + "कायदेशीर " + "कलमाचे " + "विश्लेषण " + "करा " + "आणि " + "मराठीत " + "स्पष्टीकरण " + "द्या. " + "🟢 " + "सुरक्षित " + "/ " + "🟡 " + "सावधानता " + "/ " + "🔴 " + "धोकादायक " + "चिन्हांकित " + "करा " + "आणि " + "का " + "हे " + "स्पष्ट " + "करा.", Vertex.ExcerptTrigger)
  {
    TriggerHeads();
    var y := x;
    ClearExtend(y, "कायदेशीर ", Vertex.ExcerptTrigger);
    y := y + "कायदेशीर ";
    ClearExtend(y, "कलमाचे ", Vertex.ExcerptTrigger);
    y := y + "कलमाचे ";
    ClearExtend(y, "विश्लेषण ", Vertex.ExcerptTrigger);
    y := y + "विश्लेषण ";
    ClearExtend(y, "करा ", Vertex.ExcerptTrigger);
    y := y + "करा ";
    ClearExtend(y, "आणि ", Vertex.ExcerptTrigger);
    y := y + "आणि ";
    ClearExtend(y, "मराठीत ", Vertex.ExcerptTrigger);
    y := y + "मराठीत ";
    ClearExtend(y, "स्पष्टीकरण ", Vertex.ExcerptTrigger);
    y := y + "स्पष्टीकरण ";
    ClearExtend(y, "द्या. ", Vertex.ExcerptTrigger);
    y := y + "द्या. ";
    ClearExtend(y, "🟢 ", Vertex.ExcerptTrigger);
    y := y + "🟢 ";
    ClearExtend(y, "सुरक्षित ", Vertex.ExcerptTrigger);
    y := y + "सुरक्षित ";
    ClearExtend(y, "/ ", Vertex.ExcerptTrigger);
    y := y + "/ ";
    ClearExtend(y, "🟡 ", Vertex.ExcerptTrigger);
    y := y + "🟡 ";
    ClearExtend(y, "सावधानता ", Vertex.ExcerptTrigger);
    y := y + "सावधानता ";
    ClearExtend(y, "/ ", Vertex.ExcerptTrigger);
    y := y + "/ ";
    ClearExtend(y, "🔴 ", Vertex.ExcerptTrigger);
    y := y + "🔴 ";
    ClearExtend(y, "धोकादायक ", Vertex.ExcerptTrigger);
    y := y + "धोकादायक ";
    ClearExtend(y, "चिन्हांकित ", Vertex.ExcerptTrigger);
    y := y + "चिन्हांकित ";
    ClearExtend(y, "करा ", Vertex.ExcerptTrigger);
    y := y + "करा ";
    ClearExtend(y, "आणि ", Vertex.ExcerptTrigger);
    y := y + "आणि ";
    ClearExtend(y, "का ", Vertex.ExcerptTrigger);
    y := y + "का ";
    ClearExtend(y, "हे ", Vertex.ExcerptTrigger);
    y := y + "हे ";
    ClearExtend(y, "स्पष्ट ", Vertex.ExcerptTrigger);
    y := y + "स्पष्ट ";
    ClearExtend(y, "करा.", Vertex.ExcerptTrigger);
    y := y + "करा.";
  }

  /** The Marathi instruction for a clause holds no trigger phrase. */
  lemma MrClausesHasNoTrigger()
    ensures Vertex.NoTrigger(Server.MrClauses)
  {
    TriggerHeads();
    ClearStart("या ", Vertex.SummarizeTrigger);
    MrClausesClearOfSummarize("या ");
    ClearNoOccurrence(Server.MrClauses, Vertex.SummarizeTrigger);
    ClearStart("या ", Vertex.ExplainTrigger);
    MrClausesClearOfExplain("या ");
    ClearNoOccurrence(Server.MrClauses, Vertex.ExplainTrigger);
    ClearStart("या ", Vertex.ExcerptTrigger);
    MrClausesClearOfExcerpt("या ");
    ClearNoOccurrence(Server.MrClauses, Vertex.ExcerptTrigger);
  }

  /** After its first word, the Marathi instruction for a question keeps a text
      clear of the summary trigger. */
  lemma MrQaClearOfSummarize(x: string)
    requires Clear(x, Vertex.SummarizeTrigger)
    ensures Clear(x + "कायदेशीर " + "दस्तावेज " + "अंशाच्या " + "आधारे, " + "प्रश्नाचे " + "स्पष्ट " + "उत्तर " + "मराठीत " + "द्या. " + "अनिश्चित " + "असल्यास " + "'वकीलांचा " + "सल्ला " + "घ्या' " + "असे " + "सांगा.", Vertex.SummarizeTrigger)
  {
    TriggerHeads();
    var y := x;
    ClearExtend(y, "कायदेशीर ", Vertex.SummarizeTrigger);
    y := y + "कायदेशीर ";
    ClearExtend(y, "दस्तावेज ", Vertex.SummarizeTrigger);
    y := y + "दस्तावेज ";
    ClearExtend(y, "अंशाच्या ", Vertex.SummarizeTrigger);
    y := y + "अंशाच्या ";
    ClearExtend(y, "आधारे, ", Vertex.SummarizeTrigger);
    y := y + "आधारे, ";
    ClearExtend(y, "प्रश्नाचे ", Vertex.SummarizeTrigger);
    y := y + "प्रश्नाचे ";
    ClearExtend(y, "स्पष्ट ", Vertex.SummarizeTrigger);
    y := y + "स्पष्ट ";
    ClearExtend(y, "उत्तर ", Vertex.SummarizeTrigger);
    y := y + "उत्तर ";
    ClearExtend(y, "मराठीत ", Vertex.SummarizeTrigger);
    y := y + "मराठीत ";
    ClearExtend(y, "द्या. ", Vertex.SummarizeTrigger);
    y := y + "द्या. ";
    ClearExtend(y, "अनिश्चित ", Vertex.SummarizeTrigger);
    y := y + "अनिश्चित ";
    ClearExtend(y, "असल्यास ", Vertex.SummarizeTrigger);
    y := y + "असल्यास ";
    ClearExtend(y, "'वकीलांचा ", Vertex.SummarizeTrigger);
    y := y + "'वकीलांचा ";
    ClearExtend(y, "सल्ला ", Vertex.SummarizeTrigger);
    y := y + "सल्ला ";
    ClearExtend(y, "घ्या' ", Vertex.SummarizeTrigger);
    y := y + "घ्या' ";
    ClearExtend(y, "असे ", Vertex.SummarizeTrigger);
    y := y + "असे ";
    ClearExtend(y, "सांगा.", Vertex.SummarizeTrigger);
    y := y + "सांगा.";
  }

  /** After its first word, the Marathi instruction for a question keeps a text
      clear of the explanation trigger. */
  lemma MrQaClearOfExplain(x: string)
    requires Clear(x, Vertex.ExplainTrigger)
    ensures Clear(x + "कायदेशीर " + "दस्तावेज " + "अंशाच्या " + "आधारे, " + "प्रश्नाचे " + "स्पष्ट " + "उत्तर " + "मराठीत " + "द्या. " + "अनिश्चित " + "असल्यास " + "'वकीलांचा " + "सल्ला " + "घ्या' " + "असे " + "सांगा.", Vertex.ExplainTrigger)
  {
    TriggerHeads();
    var y := x;
    ClearExtend(y, "कायदेशीर ", Vertex.ExplainTrigger);
    y := y + "कायदेशीर ";
    ClearExtend(y, "दस्तावेज ", Vertex.ExplainTrigger);
    y := y + "दस्तावेज ";
    ClearExtend(y, "अंशाच्या ", Vertex.ExplainTrigger);
    y := y + "अंशाच्या ";
    ClearExtend(y, "आधारे, ", Vertex.ExplainTrigger);
    y := y + "आधारे, ";
    ClearExtend(y, "प्रश्नाचे ", Vertex.ExplainTrigger);
    y := y + "प्रश्नाचे ";
    ClearExtend(y, "स्पष्ट ", Vertex.ExplainTrigger);
    y := y + "स्पष्ट ";
    ClearExtend(y, "उत्तर ", Vertex.ExplainTrigger);
    y := y + "उत्तर ";
    ClearExtend(y, "मराठीत ", Vertex.ExplainTrigger);
    y := y + "मराठीत ";
    ClearExtend(y, "द्या. ", Vertex.ExplainTrigger);
    y := y + "द्या. ";
    ClearExtend(y, "अनिश्चित ", Vertex.ExplainTrigger);
    y := y + "अनिश्चित ";
    ClearExtend(y, "असल्यास ", Vertex.ExplainTrigger);
    y := y + "असल्यास ";
    ClearExtend(y, "'वकीलांचा ", Vertex.ExplainTrigger);
    y := y + "'वकीलांचा ";
    ClearExtend(y, "सल्ला ", Vertex.ExplainTrigger);
    y := y + "सल्ला ";
    ClearExtend(y, "घ्या' ", Vertex.ExplainTrigger);
    y := y + "घ्या' ";
    ClearExtend(y, "असे ", Vertex.ExplainTrigger);
    y := y + "असे ";
    ClearExtend(y, "सांगा.", Vertex.ExplainTrigger);
    y := y + "सांगा.";
  }

  /** After its first word, the Marathi instruction for a question keeps a text
      clear of the excerpt trigger. */
  lemma MrQaClearOfExcerpt(x: string)
    requires Clear(x, Vertex.ExcerptTrigger)
    ensures Clear(x + "कायदेशीर " + "दस्तावेज " + "अंशाच्या " + "आधारे, " + "प्रश्नाचे " + "स्पष्ट " + "उत्तर " + "मराठीत " + "द्या. " + "अनिश्चित " + "असल्यास " + "'वकीलांचा " + "सल्ला " + "घ्या' " + "असे " + "सांगा.", Vertex.ExcerptTrigger)
  {
    TriggerHeads();
    var y := x;
    ClearExtend(y, "कायदेशीर ", Vertex.ExcerptTrigger);
    y := y + "कायदेशीर ";
    ClearExtend(y, "दस्तावेज ", Vertex.ExcerptTrigger);
    y := y + "दस्तावेज ";
    ClearExtend(y, "अंशाच्या ", Vertex.ExcerptTrigger);
    y := y + "अंशाच्या ";
    ClearExtend(y, "आधारे, ", Vertex.ExcerptTrigger);
    y := y + "आधारे, ";
    ClearExtend(y, "प्रश्नाचे ", Vertex.ExcerptTrigger);
    y := y + "प्रश्नाचे ";
    ClearExtend(y, "स्पष्ट ", Vertex.ExcerptTrigger);
    y := y + "स्पष्ट ";
    ClearExtend(y, "उत्तर ", Vertex.ExcerptTrigger);
    y := y + "उत्तर ";
    ClearExtend(y, "मराठीत ", Vertex.ExcerptTrigger);
    y := y + "मराठीत ";
    ClearExtend(y, "द्या. ", Vertex.ExcerptTrigger);
    y := y + "द्या. ";
    ClearExtend(y, "अनिश्चित ", Vertex.ExcerptTrigger);
    y := y + "अनिश्चित ";
    ClearExtend(y, "असल्यास ", Vertex.ExcerptTrigger);
    y := y + "असल्यास ";
    ClearExtend(y, "'वकीलांचा ", Vertex.ExcerptTrigger);
    y := y + "'वकीलांचा ";
    ClearExtend(y, "सल्ला ", Vertex.ExcerptTrigger);
    y := y + "सल्ला ";
    ClearExtend(y, "घ्या' ", Vertex.ExcerptTrigger);
    y := y + "घ्या' ";
    ClearExtend(y, "असे ", Vertex.ExcerptTrigger);
    y := y + "असे ";
    ClearExtend(y, "सांगा.", Vertex.ExcerptTrigger);
    y := y + "सांगा.";
  }

  /** The Marathi instruction for a question holds no trigger phrase. */
  lemma MrQaHasNoTrigger()
    ensures Vertex.NoTrigger(Server.MrQa)
  {
    TriggerHeads();
    ClearStart("या ", Vertex.SummarizeTrigger);
    MrQaClearOfSummarize("या ");
    ClearNoOccurrence(Server.MrQa, Vertex.SummarizeTrigger);
    ClearStart("या ", Vertex.ExplainTrigger);
    MrQaClearOfExplain("या ");
    ClearNoOccurrence(Server.MrQa, Vertex.ExplainTrigger);
    ClearStart("या ", Vertex.ExcerptTrigger);
    MrQaClearOfExcerpt("या ");
    ClearNoOccurrence(Server.MrQa, Vertex.ExcerptTrigger);
  }

  /** None of the instruction texts of any language holds a trigger phrase. */
  lemma PromptsHoldNoTrigger(language: string)
    ensures var p := Server.GetLanguagePrompts(language);
            Vertex.NoTrigger(p["summarize"]) && Vertex.NoTrigger(p["clauses"]) && Vertex.NoTrigger(p["qa"])
  {
    if language == "hi" {
      HiSummarizeHasNoTrigger();
      HiClausesHasNoTrigger();
      HiQaHasNoTrigger();
    } else if language == "mr" {
      MrSummarizeHasNoTrigger();
      MrClausesHasNoTrigger();
      MrQaHasNoTrigger();
    } else {
      EnSummarizeHasNoTrigger();
      EnClausesHasNoTrigger();
      EnQaHasNoTrigger();
    }
  }


  /** A `summarize` prompt built on a trigger-free instruction from a
      trigger-free document holds no trigger phrase. */
  lemma SummarizePromptFallback(prompts: Server.Prompts, text: string)
    requires "summarize" in prompts && Vertex.NoTrigger(prompts["summarize"]) && Vertex.NoTrigger(text)
    ensures Vertex.MockResponse(Server.SummarizePrompt(prompts, text)) == Vertex.FallbackMock
  {
    var p := prompts["summarize"];
    AfterNewline(text);
    Vertex.NoTriggerJoined(p, "\n" + text);
    assert p + "\n" + ("\n" + text) == Server.SummarizePrompt(prompts, text);
  }

  /** Under mock mode, `summarize` answers `Prototype response.` in every
      language unless the document holds a trigger phrase. */
  lemma MockSummarizeFallback(language: string, text: string)
    requires Vertex.NoTrigger(text)
    ensures Vertex.MockResponse(Server.SummarizePrompt(Server.GetLanguagePrompts(language), text))
            == Vertex.FallbackMock
  {
    PromptsHoldNoTrigger(language);
    SummarizePromptFallback(Server.GetLanguagePrompts(language), text);
  }

  /** A `clauses` prompt built on a trigger-free instruction from a
      trigger-free chunk holds no trigger phrase. */
  lemma ClausePromptFallback(prompts: Server.Prompts, clause: string)
    requires "clauses" in prompts && Vertex.NoTrigger(prompts["clauses"]) && Vertex.NoTrigger(clause)
    ensures Vertex.MockResponse(Server.ClausePrompt(prompts, clause)) == Vertex.FallbackMock
  {
    var p := prompts["clauses"];
    ShortNoTrigger("Clause:");
    Vertex.NoTriggerJoined("Clause:", clause);
    var t1 := "Clause:" + "\n" + clause;
    AfterNewline(t1);
    Vertex.NoTriggerJoined(p, "\n" + t1);
    assert p + "\n" + ("\n" + t1) == Server.ClausePrompt(prompts, clause);
  }

  /** Under mock mode, `clauses` analyses a chunk as `Prototype response.` in
      every language unless the chunk holds a trigger phrase. */
  lemma MockClauseFallback(language: string, clause: string)
    requires Vertex.NoTrigger(clause)
    ensures Vertex.MockResponse(Server.ClausePrompt(Server.GetLanguagePrompts(language), clause))
            == Vertex.FallbackMock
  {
    PromptsHoldNoTrigger(language);
    ClausePromptFallback(Server.GetLanguagePrompts(language), clause);
  }

  /** Under mock mode, `qa` answers `Prototype response.` in every language
      unless the excerpt or the question holds a trigger phrase. */
  lemma MockQaFallback(language: string, context: string, question: string)
    requires Vertex.NoTrigger(context) && Vertex.NoTrigger(question)
    ensures Vertex.MockResponse(Server.QaPrompt(Server.GetLanguagePrompts(language), context, question))
            == Vertex.FallbackMock
  {
    var prompts := Server.GetLanguagePrompts(language);
    PromptsHoldNoTrigger(language);
    var p := prompts["qa"];
    QuestionLine(question);
    var q1 := "Question: " + question;
    ShortNoTrigger("Answer:");
    Vertex.NoTriggerJoined(q1, "Answer:");
    var q2 := q1 + "\n" + "Answer:";
    AfterNewline(q2);
    Vertex.NoTriggerJoined(context, "\n" + q2);
    var x1 := context + "\n" + ("\n" + q2);
    ShortNoTrigger("Excerpt:");
    Vertex.NoTriggerJoined("Excerpt:", x1);
    var x2 := "Excerpt:" + "\n" + x1;
    AfterNewline(x2);
    Vertex.NoTriggerJoined(p, "\n" + x2);
    QaPromptShape(prompts, context, question);
  }

  /** The `qa` prompt, cut at its line breaks. */
  lemma QaPromptShape(prompts: Server.Prompts, context: string, question: string)
    requires "qa" in prompts
    ensures Server.QaPrompt(prompts, context, question)
            == prompts["qa"] + "\n" + ("\n" + ("Excerpt:" + "\n"
               + (context + "\n" + ("\n" + (("Question: " + question) + "\n" + "Answer:")))))
  {
    assert "\n\nExcerpt:\n" == "\n" + "\n" + "Excerpt:" + "\n";
    assert "\n\nQuestion: " == "\n" + "\n" + "Question: ";
    assert "\nAnswer:" == "\n" + "Answer:";
    Regroup(prompts["qa"], context, question, "\n", "Excerpt:", "Question: ", "Answer:");
  }

  /** The regrouping behind `QaPromptShape`, on arbitrary pieces. */
  lemma Regroup(p: string, c: string, q: string, n: string, e: string, k: string, a: string)
    ensures p + (n + n + e + n) + c + (n + n + k) + q + (n + a)
            == p + n + (n + (e + n + (c + n + (n + ((k + q) + n + a)))))
  {
  }
}
