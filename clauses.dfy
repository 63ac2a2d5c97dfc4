/** The stand-alone clauses page (frontend/src/pages/Clauses.jsx): the risk
    badge of an analysis and the `handleExplain` handler, split at its `await`. */
module ClausesPage {
  import opened Wrappers
  import opened Text
  import opened Ui
  import Wire
  import Api
  import Browser

  /** The three markers the analyses use. */
  const Safe: string := "🟢"
  const Caution: string := "🟡"
  const Risky: string := "🔴"

  /** The badge's border and text colours. */
  datatype BadgeColor = Slate | Emerald | Amber | Red

  /** The class names of each colour. */
  function ClassOf(c: BadgeColor): string {
    match c
    case Slate => "border-slate-200 text-slate-700"
    case Emerald => "border-emerald-200 text-emerald-700"
    case Amber => "border-amber-200 text-amber-800"
    case Red => "border-red-200 text-red-700"
  }

  /** `RiskBadge`'s colour: the three checks run in order and the last one that
      matches wins, so red beats amber beats emerald. */
  function BadgeColorOf(text: string): (r: BadgeColor)
    ensures r == Red <==> Contains(text, Risky)
    ensures r == Amber <==> Contains(text, Caution) && !Contains(text, Risky)
    ensures r == Emerald <==> Contains(text, Safe) && !Contains(text, Caution) && !Contains(text, Risky)
    ensures r == Slate <==> !Contains(text, Safe) && !Contains(text, Caution) && !Contains(text, Risky)
  {
    var color := Slate;
    var color := if Contains(text, Safe) then Emerald else color;
    var color := if Contains(text, Caution) then Amber else color;
    if Contains(text, Risky) then Red else color
  }

  /** `RiskBadge`'s label: the text before the first `—`, or all of it. */
  function BadgeLabel(text: string): (r: string)
    ensures '—' !in r
    ensures r <= text
    ensures '—' !in text ==> r == text
    ensures |r| < |text| ==> text[|r|] == '—'
  {
    Split(text, '—')[0]
  }

  class Clauses {
    const store: Browser.LocalStorage
    var docId: Option<string>
    var items: seq<Wire.ClauseItem>
    var loading: bool

    /** The `useState` defaults. */
    constructor (store: Browser.LocalStorage)
      ensures this.store == store
      ensures docId.None? && items == [] && !loading
    {
      this.store := store;
      docId := None;
      items := [];
      loading := false;
    }

    /** The mount effect: a stored, non-empty document id becomes the current one. */
    method RestoreDocId()
      modifies this`docId
      ensures Truthy(store.GetItem(Browser.DocIdKey)) ==> docId == store.GetItem(Browser.DocIdKey)
      ensures !Truthy(store.GetItem(Browser.DocIdKey)) ==> docId == old(docId)
    {
      var saved := store.GetItem(Browser.DocIdKey);
      if Truthy(saved) {
        docId := saved;
      }
    }

    /** `handleExplain` up to `await explainClauses(docId)`: no language is
        passed, so the request carries the default `en`. */
    method ExplainStart() returns (req: Option<Api.Request>, toast: Option<Toast>)
      modifies this`loading
      ensures !Truthy(docId) ==> req.None? && toast == Some(Error(Plain("Upload a PDF first")))
                                 && loading == old(loading)
      ensures Truthy(docId) ==> toast.None? && loading
                                && req == Some(Api.Request(Api.Clauses, docId.value, None, Api.DefaultLanguage))
    {
      if !Truthy(docId) {
        return None, Some(Error(Plain("Upload a PDF first")));
      }
      loading := true;
      req := Some(Api.Request(Api.Clauses, docId.value, None, Api.DefaultLanguage));
      toast := None;
    }

    /** `handleExplain` from the outcome: the server's list (or `[]`) on
        success, the old list and a toast on failure; `loading` ends false. */
    method ExplainComplete(outcome: Api.ApiResult<Wire.ClausesReply>) returns (toast: Option<Toast>)
      modifies this`items, this`loading
      ensures !loading
      ensures outcome.Ok? ==> items == outcome.data.clauses.GetOr([]) && toast.None?
      ensures outcome.Err? ==> items == old(items) && toast == Some(Error(Plain("Failed to analyze clauses")))
    {
      match outcome {
        case Ok(data) =>
          items := data.clauses.GetOr([]);
          toast := None;
        case Err(_, _) =>
          toast := Some(Error(Plain("Failed to analyze clauses")));
      }
      loading := false;
    }
  }
}
