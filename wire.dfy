/** The JSON bodies the backend (backend/main.py) returns and the client reads,
    with only the fields either side uses. */
module Wire {
  import opened Wrappers

  /** The reply of `POST /upload`. */
  datatype UploadReply = UploadReply(docId: string, textLength: nat, fileType: string, detectedLanguage: string)

  /** The reply of `POST /summarize`; `detected_language` is read by the client
      but may be absent. */
  datatype SummaryReply = SummaryReply(summary: string, detectedLanguage: Option<string>)

  /** One entry of the `clauses` list: the chunk and its analysis. */
  datatype ClauseItem = ClauseItem(clause: string, analysis: string)

  /** The reply of `POST /clauses`; the client tolerates a missing list. */
  datatype ClausesReply = ClausesReply(clauses: Option<seq<ClauseItem>>)

  /** The reply of `POST /qa`. */
  datatype AnswerReply = AnswerReply(answer: string, context: string)
}
