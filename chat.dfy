/** The stand-alone chat page (frontend/src/pages/Chat.jsx): its own document
    id, question input, transcript and loading flag. `handleAsk` is split at
    its `await` as on the analysis page. */
module ChatPage {
  import opened Wrappers
  import opened Text
  import opened Ui
  import Wire
  import Api
  import Browser

  class Chat {
    const store: Browser.LocalStorage
    var docId: Option<string>
    var question: string
    var messages: seq<Message>
    var loading: bool

    /** The `useState` defaults. */
    constructor (store: Browser.LocalStorage)
      ensures this.store == store
      ensures docId.None? && question == "" && messages == [] && !loading
    {
      this.store := store;
      docId := None;
      question := "";
      messages := [];
      loading := false;
    }

    /** The mount effect: a stored, non-empty document id becomes the current one. */
    method RestoreDocId()
      modifies this`docId
      ensures Truthy(store.GetItem(Browser.DocIdKey)) ==> docId == store.GetItem(Browser.DocIdKey)
      ensures !Truthy(store.GetItem(Browser.DocIdKey)) ==> docId == old(docId)
    {
      var saved := store.GetItem(Browser.DocIdKey);
      if Truthy(saved) {
        docId := saved;
      }
    }

    /** The input's `onChange`. */
    method SetQuestion(q: string)
      modifies this`question
      ensures question == q
    {
      question := q;
    }

    /** `handleAsk` up to `await ask(docId, q)`: the call passes no language,
        so the request carries the default `en`. */
    method AskStart() returns (req: Option<Api.Request>, toast: Option<Toast>)
      modifies this`messages, this`question, this`loading
      ensures !Truthy(docId) ==> req.None? && toast == Some(Error(Plain("Upload a PDF first")))
                                 && messages == old(messages) && question == old(question)
                                 && loading == old(loading)
      ensures Truthy(docId) && Trim(old(question), Js) == []
              ==> req.None? && toast.None? && messages == old(messages)
                  && question == old(question) && loading == old(loading)
      ensures Truthy(docId) && Trim(old(question), Js) != []
              ==> var q := Trim(old(question), Js);
                  toast.None? && messages == old(messages) + [Message(User, q)] && question == ""
                  && loading && req == Some(Api.Request(Api.Qa, docId.value, Some(q), Api.DefaultLanguage))
    {
      if !Truthy(docId) {
        return None, Some(Error(Plain("Upload a PDF first")));
      }
      var q := Trim(question, Js);
      if q == [] {
        return None, None;
      }
      messages := messages + [Message(User, q)];
      question := "";
      loading := true;
      req := Some(Api.Request(Api.Qa, docId.value, Some(q), Api.DefaultLanguage));
      toast := None;
    }

    /** `handleAsk` from the outcome: one assistant turn at the end on success,
        none and a toast on failure; `loading` ends false. */
    method AskComplete(outcome: Api.ApiResult<Wire.AnswerReply>) returns (toast: Option<Toast>)
      modifies this`messages, this`loading
      ensures !loading
      ensures outcome.Ok? ==> messages == old(messages) + [Message(Assistant, outcome.data.answer)] && toast.None?
      ensures outcome.Err? ==> messages == old(messages) && toast == Some(Error(Plain("Failed to answer")))
    {
      match outcome {
        case Ok(data) =>
          messages := messages + [Message(Assistant, data.answer)];
          toast := None;
        case Err(_, _) =>
          toast := Some(Error(Plain("Failed to answer")));
      }
      loading := false;
    }
  }
}
