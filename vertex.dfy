/** The AI client of the server (backend/vertex_helper.py): the canned replies
    of mock mode, the lazy initialisation with its fall-back to mock mode, and
    `generate_text`'s choice between the mock, the SDK's reply and the
    error-wrapped mock. The SDK itself is replaced by the outcome of its call. */
module Vertex {
  import opened Wrappers
  import opened Text

  /** The phrases `_mock_response` looks for, in the order it looks. */
  const SummarizeTrigger: string := "Summarize this legal document"
  const ExplainTrigger: string := "Explain this clause"
  const ExcerptTrigger: string := "Given this excerpt"

  /** The canned replies. */
  const SummaryMock: string :=
    "One-liner: This document outlines the agreement between parties for services rendered.\n"
    + "- Parties agree on scope, payment, and timelines.\n"
    + "- Liability is limited; confidentiality applies.\n"
    + "- Termination and dispute resolution are specified."
  const ClauseMock: string := "🟡 Caution — Key obligations apply; ensure timelines and liability are acceptable."
  const AnswerMock: string := "The clause sets expectations and limits liability. Consult a lawyer for specifics."
  const FallbackMock: string := "Prototype response."

  /** `_mock_response`: the first trigger the prompt contains decides the reply. */
  function MockResponse(prompt: string): string {
    if Contains(prompt, SummarizeTrigger) then SummaryMock
    else if Contains(prompt, ExplainTrigger) then ClauseMock
    else if Contains(prompt, ExcerptTrigger) then AnswerMock
    else FallbackMock
  }

  /** Each canned reply answers exactly the prompts whose first trigger is its own. */
  lemma MockResponseCases(prompt: string)
    ensures var r := MockResponse(prompt);
            && (Contains(prompt, SummarizeTrigger) <==> r == SummaryMock)
            && (r == ClauseMock <==> !Contains(prompt, SummarizeTrigger) && Contains(prompt, ExplainTrigger))
            && (r == AnswerMock
                <==> !Contains(prompt, SummarizeTrigger) && !Contains(prompt, ExplainTrigger) && Contains(prompt, ExcerptTrigger))
            && (r == FallbackMock
                <==> !Contains(prompt, SummarizeTrigger) && !Contains(prompt, ExplainTrigger) && !Contains(prompt, ExcerptTrigger))
  {
  }

  /** A prompt with none of the triggers gets the fallback reply. */
  predicate NoTrigger(s: string) {
    !Contains(s, SummarizeTrigger) && !Contains(s, ExplainTrigger) && !Contains(s, ExcerptTrigger)
  }

  /** No trigger spans a line break, so texts joined by `\n` contain a trigger
      only if one of them does. */
  lemma NoTriggerJoined(a: string, b: string)
    requires NoTrigger(a) && NoTrigger(b)
    ensures NoTrigger(a + "\n" + b)
  {
    TriggersOnOneLine();
    AcrossNewline(a, b, SummarizeTrigger);
    AcrossNewline(a, b, ExplainTrigger);
    AcrossNewline(a, b, ExcerptTrigger);
  }

  /** The trigger text has no line break. */
  lemma TriggersOnOneLine()
    ensures '\n' !in SummarizeTrigger && '\n' !in ExplainTrigger && '\n' !in ExcerptTrigger
  {
  }

  /** An occurrence of a pattern without `\n` in `a + "\n" + b` lies inside `a` or inside `b`. */
  lemma AcrossNewline(a: string, b: string, pat: string)
    requires '\n' !in pat && !Contains(a, pat) && !Contains(b, pat)
    ensures !Contains(a + "\n" + b, pat)
  {
    var s := a + "\n" + b;
    forall j: nat ensures !OccursAt(s, pat, j) {
      if j + |pat| <= |a| {
        assert s[j..j + |pat|] == a[j..j + |pat|];
        assert !OccursAt(a, pat, j);
      } else if j > |a| {
        if j + |pat| <= |s| {
          assert s[j..j + |pat|] == b[j - |a| - 1..j - |a| - 1 + |pat|];
        }
        assert !OccursAt(b, pat, j - |a| - 1);
      } else {
        assert s[|a|] == '\n' && pat[|a| - j] in pat;
        MismatchAt(s, pat, j, |a| - j);
      }
    }
  }

  /** What the SDK call inside `_call_vertex` comes to: a reply text, or an
      exception with its message. */
  datatype SdkOutcome = Reply(text: string) | Raised(message: string)

  /** The SDK as the client meets it: what `vertexai_init` raises when it is
      called (`None` when it succeeds), and the outcome of the generation call
      for each prompt. The API-key path, its rate-limit retry and the
      service-account path all come to that one outcome. */
  datatype Sdk = Sdk(initError: Option<string>, generate: string -> SdkOutcome)

  /** The `[Mock due to error: …]` reply of the error path. */
  function ErrorReply(message: string, prompt: string): (r: string)
    ensures "[Mock due to error: " + message + "]" <= r
    ensures |r| > |MockResponse(prompt)| && r[|r| - |MockResponse(prompt)|..] == MockResponse(prompt)
    ensures r[|r| - |MockResponse(prompt)| - 1] == '\n'
  {
    "[Mock due to error: " + message + "]\n" + MockResponse(prompt)
  }

  /** What `_call_vertex` returns once the SDK has been reached: its text, or
      the error-wrapped canned reply. */
  function SdkReply(prompt: string, outcome: SdkOutcome): string {
    match outcome
    case Reply(text) => text
    case Raised(message) => ErrorReply(message, prompt)
  }

  /** The client's two flags: `mock` and `_initialized`. */
  datatype Flags = Flags(mock: bool, initialized: bool)

  /** What one `generate_text` call comes to: the reply and the flags after it. */
  datatype Generation = Generation(reply: string, after: Flags)

  /** `generate_text(prompt)` from the flags `f`. In mock mode the canned reply
      and no change. With an API key the SDK's reply and no change. Otherwise
      `_ensure_init` runs first inside the `try`: already initialised, nothing;
      no project, mock mode is switched on and the SDK is still called; a
      failing init leaves the flags as they were and its exception becomes the
      reply; a successful one marks the client initialised. */
  function Generate(f: Flags, project: Option<string>, apiKey: Option<string>, prompt: string, sdk: Sdk)
    : (g: Generation)
    ensures f.mock ==> g == Generation(MockResponse(prompt), f)
    ensures !f.mock && (Truthy(apiKey) || f.initialized)
            ==> g == Generation(SdkReply(prompt, sdk.generate(prompt)), f)
    ensures !f.mock && !Truthy(apiKey) && !f.initialized && !Truthy(project)
            ==> g == Generation(SdkReply(prompt, sdk.generate(prompt)), Flags(true, false))
    ensures !f.mock && !Truthy(apiKey) && !f.initialized && Truthy(project) && sdk.initError.Some?
            ==> g == Generation(ErrorReply(sdk.initError.value, prompt), f)
    ensures !f.mock && !Truthy(apiKey) && !f.initialized && Truthy(project) && sdk.initError.None?
            ==> g == Generation(SdkReply(prompt, sdk.generate(prompt)), Flags(false, true))
    ensures f.mock ==> g.after.mock
    ensures f.initialized ==> g.after.initialized
    ensures !(f.mock && f.initialized) ==> !(g.after.mock && g.after.initialized)
  {
    if f.mock then Generation(MockResponse(prompt), f)
    else if Truthy(apiKey) || f.initialized then Generation(SdkReply(prompt, sdk.generate(prompt)), f)
    else if !Truthy(project) then Generation(SdkReply(prompt, sdk.generate(prompt)), Flags(true, false))
    else if sdk.initError.Some? then Generation(ErrorReply(sdk.initError.value, prompt), f)
    else Generation(SdkReply(prompt, sdk.generate(prompt)), Flags(false, true))
  }

  /** `VertexClient`'s configuration and its two flags. */
  class VertexClient {
    const project: Option<string>
    const apiKey: Option<string>
    var mock: bool
    var initialized: bool

    /** The two flags together. */
    function State(): Flags
      reads this
    {
      Flags(mock, initialized)
    }

    /** `__init__`: `MOCK_AI` (default `true`) lowered must be `true` for mock mode. */
    constructor (project: Option<string>, apiKey: Option<string>, mockAi: Option<string>)
      ensures this.project == project && this.apiKey == apiKey
      ensures mock == (Lower(mockAi.GetOr("true")) == "true") && !initialized
    {
      this.project := project;
      this.apiKey := apiKey;
      mock := Lower(mockAi.GetOr("true")) == "true";
      initialized := false;
    }

    /** `_ensure_init`: nothing once initialised or in mock mode; without a
        project it falls back to mock mode and stays uninitialised; otherwise
        it calls `vertexai_init`, whose outcome is `initError`: when that
        raises, the exception is passed on and the client stays
        uninitialised, so the next call tries again. */
    method EnsureInit(initError: Option<string>) returns (raised: Option<string>)
      modifies this`mock, this`initialized
      ensures old(initialized) || old(mock)
              ==> raised.None? && mock == old(mock) && initialized == old(initialized)
      ensures !old(initialized) && !old(mock) && !Truthy(project) ==> raised.None? && mock && !initialized
      ensures !old(initialized) && !old(mock) && Truthy(project) && initError.Some?
              ==> raised == initError && !mock && !initialized
      ensures !old(initialized) && !old(mock) && Truthy(project) && initError.None?
              ==> raised.None? && !mock && initialized
    {
      raised := None;
      if initialized || mock {
        return;
      }
      if !Truthy(project) {
        mock := true;
        return;
      }
      if initError.Some? {
        return initError;
      }
      initialized := true;
    }

    /** `generate_text(prompt)`: in mock mode the canned reply, with no SDK
        call; otherwise `_call_vertex`, which runs `_ensure_init` first when no
        API key is set and turns any exception into the error-wrapped canned
        reply. */
    method GenerateText(prompt: string, sdk: Sdk) returns (r: string)
      modifies this`mock, this`initialized
      ensures Generation(r, State()) == Generate(old(State()), project, apiKey, prompt, sdk)
    {
      if mock {
        return MockResponse(prompt);
      }
      if !Truthy(apiKey) {
        var raised := EnsureInit(sdk.initError);
        if raised.Some? {
          return ErrorReply(raised.value, prompt);
        }
      }
      r := SdkReply(prompt, sdk.generate(prompt));
    }
  }

  /** `Truthy` for optional configuration values: set and non-empty. */
  predicate Truthy(s: Option<string>) {
    s.Some? && s.value != ""
  }
}
