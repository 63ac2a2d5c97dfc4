/** The analysis page (frontend/src/pages/Summary.jsx): the current document,
    the summary, the clause list and the chat transcript, and the three
    handlers that fill them. Each `async` handler is split at its `await`:
    `...Start` runs up to the call and returns the request it sends, and
    `...Complete` runs from the call's outcome to the end of the handler. */
module SummaryPage {
  import opened Wrappers
  import opened Text
  import opened Ui
  import Wire
  import Api
  import Browser
  import Locale

  class Summary {
    const store: Browser.LocalStorage
    const provider: Locale.LanguageProvider
    var docId: Option<string>
    var result: Option<string>
    var loading: bool
    var detectedLanguage: Option<string>
    var clausesLoading: bool
    var clausesItems: seq<Wire.ClauseItem>
    var question: string
    var chatLoading: bool
    var messages: seq<Message>

    /** The `useState` defaults. */
    constructor (store: Browser.LocalStorage, provider: Locale.LanguageProvider)
      ensures this.store == store && this.provider == provider
      ensures docId.None? && result.None? && !loading && detectedLanguage.None?
      ensures !clausesLoading && clausesItems == [] && question == "" && !chatLoading && messages == []
    {
      this.store := store;
      this.provider := provider;
      docId := None;
      result := None;
      loading := false;
      detectedLanguage := None;
      clausesLoading := false;
      clausesItems := [];
      question := "";
      chatLoading := false;
      messages := [];
    }

    /** The mount effect: a stored, non-empty document id becomes the current one. */
    method RestoreDocId()
      modifies this`docId
      ensures Truthy(store.GetItem(Browser.DocIdKey)) ==> docId == store.GetItem(Browser.DocIdKey)
      ensures !Truthy(store.GetItem(Browser.DocIdKey)) ==> docId == old(docId)
    {
      var saved := store.GetItem(Browser.DocIdKey);
      if Truthy(saved) {
        docId := saved;
      }
    }

    /** `onUploaded={setDocId}`: a new (or no) document replaces the current
        one, and the summary, clauses and transcript of the old one stay. */
    method OnUploaded(id: Option<string>)
      modifies this`docId
      ensures docId == id
      ensures result == old(result) && clausesItems == old(clausesItems) && messages == old(messages)
    {
      docId := id;
    }

    /** The question input's `onChange`. */
    method SetQuestion(q: string)
      modifies this`question
      ensures question == q
    {
      question := q;
    }

    /** `handleSummarize` up to `await summarize(docId, language)`. */
    method SummarizeStart() returns (req: Option<Api.Request>, toast: Option<Toast>)
      modifies this`loading
      ensures !Truthy(docId) ==> req.None? && toast == Some(Error(KeyOnly("common.uploadFirst")))
                                 && loading == old(loading)
      ensures Truthy(docId) ==> toast.None? && loading
                                && req == Some(Api.Request(Api.Summarize, docId.value, None, provider.language))
    {
      if !Truthy(docId) {
        return None, Some(Error(KeyOnly("common.uploadFirst")));
      }
      loading := true;
      req := Some(Api.Request(Api.Summarize, docId.value, None, provider.language));
      toast := None;
    }

    /** `handleSummarize` from the outcome of the call: the summary on success,
        the 404 path that forgets the document, a toast otherwise; `loading`
        ends false in every case. */
    method SummarizeComplete(outcome: Api.ApiResult<Wire.SummaryReply>) returns (toast: Option<Toast>)
      modifies this`result, this`detectedLanguage, this`docId, this`loading, store
      ensures !loading
      ensures outcome.Ok? ==> result == Some(outcome.data.summary) && toast.None?
                              && docId == old(docId) && store.items == old(store.items)
      ensures outcome.Ok? && Truthy(outcome.data.detectedLanguage)
              ==> detectedLanguage == outcome.data.detectedLanguage
      ensures !(outcome.Ok? && Truthy(outcome.data.detectedLanguage))
              ==> detectedLanguage == old(detectedLanguage)
      ensures outcome.Err? ==> result == old(result)
      ensures outcome.Err? && outcome.status == Some(404)
              ==> toast == Some(Error(KeyOnly("upload.error"))) && docId.None?
                  && store.items == old(store.items) - {Browser.DocIdKey}
      ensures outcome.Err? && outcome.status == Some(500)
              ==> toast == Some(Error(KeyOnly("common.error")))
                  && docId == old(docId) && store.items == old(store.items)
      ensures outcome.Err? && outcome.status != Some(404) && outcome.status != Some(500)
              ==> toast == Some(Error(if outcome.message != "" then Plain(outcome.message) else KeyOnly("common.error")))
                  && docId == old(docId) && store.items == old(store.items)
    {
      toast := None;
      match outcome {
        case Ok(data) =>
          result := Some(data.summary);
          if Truthy(data.detectedLanguage) {
            detectedLanguage := data.detectedLanguage;
          }
        case Err(status, message) =>
          var text := if message != "" then Plain(message) else KeyOnly("common.error");
          if status == Some(404) {
            toast := Some(Error(KeyOnly("upload.error")));
            store.RemoveItem(Browser.DocIdKey);
            docId := None;
          } else if status == Some(500) {
            toast := Some(Error(KeyOnly("common.error")));
          } else {
            toast := Some(Error(text));
          }
      }
      loading := false;
    }

    /** `handleExplain` up to `await explainClauses(docId, language)`. */
    method ExplainStart() returns (req: Option<Api.Request>, toast: Option<Toast>)
      modifies this`clausesLoading
      ensures !Truthy(docId) ==> req.None? && toast == Some(Error(KeyOnly("common.uploadFirst")))
                                 && clausesLoading == old(clausesLoading)
      ensures Truthy(docId) ==> toast.None? && clausesLoading
                                && req == Some(Api.Request(Api.Clauses, docId.value, None, provider.language))
    {
      if !Truthy(docId) {
        return None, Some(Error(KeyOnly("common.uploadFirst")));
      }
      clausesLoading := true;
      req := Some(Api.Request(Api.Clauses, docId.value, None, provider.language));
      toast := None;
    }

    /** `handleExplain` from the outcome: the server's list in its order (or
        `[]` when it sends none) on success, the old list and a toast on failure. */
    method ExplainComplete(outcome: Api.ApiResult<Wire.ClausesReply>) returns (toast: Option<Toast>)
      modifies this`clausesItems, this`clausesLoading
      ensures !clausesLoading
      ensures outcome.Ok? ==> clausesItems == outcome.data.clauses.GetOr([]) && toast.None?
      ensures outcome.Err? ==> clausesItems == old(clausesItems) && toast == Some(Error(KeyOnly("common.error")))
    {
      match outcome {
        case Ok(data) =>
          clausesItems := data.clauses.GetOr([]);
          toast := None;
        case Err(_, _) =>
          toast := Some(Error(KeyOnly("common.error")));
      }
      clausesLoading := false;
    }

    /** `handleAsk` up to `await ask(docId, q, language)`: the trimmed question
        is appended as a user turn and the input cleared. Nothing checks
        `chatLoading`, so this may run again while a call is pending. */
    method AskStart() returns (req: Option<Api.Request>, toast: Option<Toast>)
      modifies this`messages, this`question, this`chatLoading
      ensures !Truthy(docId) ==> req.None? && toast == Some(Error(KeyOnly("common.uploadFirst")))
                                 && messages == old(messages) && question == old(question)
                                 && chatLoading == old(chatLoading)
      ensures Truthy(docId) && Trim(old(question), Js) == []
              ==> req.None? && toast.None? && messages == old(messages)
                  && question == old(question) && chatLoading == old(chatLoading)
      ensures Truthy(docId) && Trim(old(question), Js) != []
              ==> var q := Trim(old(question), Js);
                  toast.None? && messages == old(messages) + [Message(User, q)] && question == ""
                  && chatLoading && req == Some(Api.Request(Api.Qa, docId.value, Some(q), provider.language))
    {
      if !Truthy(docId) {
        return None, Some(Error(KeyOnly("common.uploadFirst")));
      }
      var q := Trim(question, Js);
      if q == [] {
        return None, None;
      }
      messages := messages + [Message(User, q)];
      question := "";
      chatLoading := true;
      req := Some(Api.Request(Api.Qa, docId.value, Some(q), provider.language));
      toast := None;
    }

    /** `handleAsk` from the outcome: one assistant turn at the end on success,
        none and a toast on failure; `chatLoading` ends false. */
    method AskComplete(outcome: Api.ApiResult<Wire.AnswerReply>) returns (toast: Option<Toast>)
      modifies this`messages, this`chatLoading
      ensures !chatLoading
      ensures outcome.Ok? ==> messages == old(messages) + [Message(Assistant, outcome.data.answer)] && toast.None?
      ensures outcome.Err? ==> messages == old(messages) && toast == Some(Error(KeyOnly("common.error")))
    {
      match outcome {
        case Ok(data) =>
          messages := messages + [Message(Assistant, data.answer)];
          toast := None;
        case Err(_, _) =>
          toast := Some(Error(KeyOnly("common.error")));
      }
      chatLoading := false;
    }

    /** Enter pressed while an earlier question is still pending: nothing
        checks `chatLoading`, so a second user turn is appended and a second
        call is sent. */
    method AskWhilePending(q: string) returns (req: Option<Api.Request>)
      requires chatLoading && Truthy(docId) && Trim(q, Js) != []
      modifies this`messages, this`question, this`chatLoading
      ensures messages == old(messages) + [Message(User, Trim(q, Js))] && chatLoading
      ensures req == Some(Api.Request(Api.Qa, docId.value, Some(Trim(q, Js)), provider.language))
    {
      SetQuestion(q);
      var toast;
      req, toast := AskStart();
    }
  }

  /** The headline of a summary: its first line (`result.split('\n')[0]`). */
  function Headline(result: string): (r: string)
    ensures '\n' !in r
    ensures r <= result
    ensures |r| < |result| ==> result[|r|] == '\n'
  {
    var lines := Split(result, '\n');
    lines[0]
  }

  /** The bullets under it: the next (at most) three lines (`.slice(1, 4)`). */
  function Bullets(result: string): (r: seq<string>)
    ensures |r| <= 3
    ensures forall i :: 0 <= i < |r| ==> '\n' !in r[i]
  {
    var lines := Split(result, '\n');
    lines[1..if |lines| < 4 then |lines| else 4]
  }

  /** The headline and the bullets, put back together, begin the summary; when
      the summary has at most three lines after the first they are all of it. */
  lemma HeadlineThenBullets(result: string)
    ensures var b := Bullets(result);
            var shown := Headline(result) + (if b == [] then "" else "\n" + Join(b, "\n"));
            shown <= result && (|Split(result, '\n')| <= 4 ==> shown == result)
  {
    var lines := Split(result, '\n');
    var m := if |lines| < 4 then |lines| else 4;
    JoinPrefix(lines, m, "\n");
    assert lines[..m][0] == lines[0] && lines[..m][1..] == lines[1..m];
    assert m == |lines| ==> lines[..m] == lines;
  }

  /** `s.charAt(0).toUpperCase() + s.slice(1)`. */
  function Capitalize(s: string): (r: string)
    ensures |r| == |s|
    ensures |s| > 0 ==> r[0] == UpperChar(s[0]) && r[1..] == s[1..]
  {
    if |s| == 0 then "" else [UpperChar(s[0])] + s[1..]
  }

  /** The line under the summary title: the detected language when it is known
      and not English, the generic description otherwise. */
  function AnalysisLabel(detected: Option<string>): (r: Msg)
    ensures Truthy(detected) && detected.value != "english"
            ==> r == Key("summary.analysisIn", [("language", Capitalize(detected.value))])
    ensures !(Truthy(detected) && detected.value != "english") ==> r == KeyOnly("summary.description")
  {
    if Truthy(detected) && detected.value != "english" then
      Key("summary.analysisIn", [("language", Capitalize(detected.value))])
    else KeyOnly("summary.description")
  }
}
