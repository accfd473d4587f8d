/** The journal submission handler (`POST /api/journal`) as a pure function.
    The moderation call, the completion call, `JSON.parse`, the API-key
    lookup, the store's availability and the clock are inputs; the handler
    decides a response and, on two of its paths, a document to save. */
module JournalPipeline {
  import opened Maybe
  import opened Text
  import opened Js
  import opened JournalSchema

  const MaxRawLength := 500
  const MinTrimmedLength := 10

  const TextRequiredError := "Journal text is required and must be a string"
  const TextTooLongError := "Journal entry must be 500 characters or less"
  const TextTooShortError := "Journal entry must be at least 10 characters long"
  const NotConfiguredError := "AI service is not configured. Please add your OpenAI API key."
  const ModerationUnavailableError := "Content moderation service unavailable, please try again later."
  const CompletionUnavailableError := "AI service unavailable, please try again later."
  const CompletionEmptyError := "AI service returned an empty or malformed response, please try again."
  const SaveFailedError := "Unable to save journal entry"
  const UnexpectedError := "An unexpected error occurred, please try again later."

  const CrisisMessage := "We detected crisis-related content. Please reach out to a local helpline immediately. In the US, call 988 for the Suicide & Crisis Lifeline."
  const ModerateMessage := "I noticed your entry contains some intense emotions. While I can't provide specific feedback on this content, please remember that support is available if you need it."

  const CrisisMood := "Crisis"
  const CrisisReflection := "Crisis content detected"
  const CrisisSuggestions := ["Contact emergency services", "Call crisis helpline", "Reach out to trusted person"]

  const FallbackMood := "Reflective"
  const FallbackReflection := "Thank you for sharing your thoughts with me. Your willingness to reflect and express yourself is a positive step in your wellness journey."
  const FallbackSuggestions := ["Take a few deep breaths and center yourself", "Practice self-compassion and be kind to yourself", "Consider what small positive action you could take today"]

  const SelfHarmCategories := ["self-harm", "self-harm/intent", "self-harm/instructions"]

  /** What the handler sends back: an error with its HTTP status, one of the
      two notices (status 200), or the saved record's echo (status 200). */
  datatype Response =
    | Failure(status: int, error: string)
    | Notice(severity: string, message: string)
    | Reflection(id: nat, mood: Option<string>, reflection: Option<string>,
                 suggestions: seq<string>, severity: string, createdAt: int)

  function Status(r: Response): int {
    if r.Failure? then r.status else 200
  }

  const UrgentNotice := Notice(SeverityUrgent, CrisisMessage)
  const ModerateNotice := Notice("moderate", ModerateMessage)

  /** The reply body on the normal path: the saved record without its text. */
  function Echo(e: Entry): (r: Response)
    ensures r.Reflection? && r.id == e.id && r.severity == e.severity && r.createdAt == e.createdAt
    ensures r.mood == e.mood && r.reflection == e.reflection && r.suggestions == e.suggestions
  {
    Reflection(e.id, e.mood, e.reflection, e.suggestions, e.severity, e.createdAt)
  }

  /** The request body as `request.json()` delivers it, or the failure to read it. */
  datatype Body = Unreadable | Received(value: JsValue)

  /** The moderation call: it throws, or returns an object whose `results`
      (and everything inside) may be missing. */
  datatype ModerationResult = ModerationResult(flagged: Option<bool>, categories: Option<map<string, bool>>)
  datatype Moderation = ModerationThrew | Moderated(results: Option<seq<ModerationResult>>)

  /** The completion call: it throws, or returns `choices` whose first
      element's `message.content` may be missing. */
  datatype CompletionMessage = CompletionMessage(content: Option<string>)
  datatype CompletionChoice = CompletionChoice(message: Option<CompletionMessage>)
  datatype Completion = CompletionThrew | Completed(choices: Option<seq<CompletionChoice>>)

  /** Everything outside the handler that it consults: whether the API key is
      set, the two service outcomes, `JSON.parse` (`None` when it throws),
      whether the store accepts writes, and the clock. */
  datatype Services = Services(
    apiKey: bool,
    moderation: Moderation,
    completion: Completion,
    parse: string -> Option<JsValue>,
    storeUp: bool,
    now: int)

  // ---------------------------------------------------------------- validation

  /** The validation chain, in order: `text` missing, falsy or not a string;
      longer than 500; shorter than 10 once trimmed. A body that cannot be
      read, or that is `null` (destructuring it throws), ends in the generic
      500. On success the text is passed on untrimmed. */
  function Validate(body: Body): (r: Result<string, Response>)
    ensures r.Ok? <==>
      && body.Received? && !body.value.JsNull? && Get(body.value, "text").Some?
      && Get(body.value, "text").value.JsString?
      && Utf16Length(Get(body.value, "text").value.s) <= MaxRawLength
      && Utf16Length(Trim(Get(body.value, "text").value.s)) >= MinTrimmedLength
    ensures r.Ok? ==> r.value == Get(body.value, "text").value.s
    ensures r.Err? ==>
      && r.error.Failure? && r.error.error != ""
      && (r.error.status == 400 || r.error == Failure(500, UnexpectedError))
      && (r.error.status == 500 <==> body.Unreadable? || body.value.JsNull?)
  {
    match body
    case Unreadable => Err(Failure(500, UnexpectedError))
    case Received(v) =>
      if v.JsNull? then Err(Failure(500, UnexpectedError))
      else
        var text := Get(v, "text");
        if text.None? || !Truthy(text.value) || !text.value.JsString? then Err(Failure(400, TextRequiredError))
        else if Utf16Length(text.value.s) > MaxRawLength then Err(Failure(400, TextTooLongError))
        else if Utf16Length(Trim(text.value.s)) < MinTrimmedLength then Err(Failure(400, TextTooShortError))
        else Ok(text.value.s)
  }

  // ---------------------------------------------------------------- moderation

  datatype Verdict = ModerationUnavailable | SelfHarm | FlaggedOther | NotFlagged

  /** `results?.[0]`: the first classification, if there is one. */
  function FirstResult(results: Option<seq<ModerationResult>>): Option<ModerationResult> {
    if results.Some? && |results.value| > 0 then Some(results.value[0]) else None
  }

  /** `categories?.[c]` is truthy. */
  predicate InCategory(r: ModerationResult, c: string) {
    r.categories.Some? && c in r.categories.value && r.categories.value[c]
  }

  /** The moderation gate. A missing result, `flagged` or `categories` reads as
      not set; only a thrown call is an error. */
  function Classify(m: Moderation): (v: Verdict)
    ensures v.ModerationUnavailable? <==> m.ModerationThrew?
    ensures m.Moderated? && FirstResult(m.results).None? ==> v.NotFlagged?
    ensures v.SelfHarm? <==>
      && m.Moderated? && FirstResult(m.results).Some?
      && FirstResult(m.results).value.flagged == Some(true)
      && exists c :: c in SelfHarmCategories && InCategory(FirstResult(m.results).value, c)
    ensures v.FlaggedOther? <==>
      && m.Moderated? && FirstResult(m.results).Some?
      && FirstResult(m.results).value.flagged == Some(true)
      && forall c :: c in SelfHarmCategories ==> !InCategory(FirstResult(m.results).value, c)
  {
    match m
    case ModerationThrew => ModerationUnavailable
    case Moderated(results) =>
      var first := FirstResult(results);
      var flagged := first.Some? && first.value.flagged == Some(true);
      if flagged && (InCategory(first.value, "self-harm") || InCategory(first.value, "self-harm/intent")
                     || InCategory(first.value, "self-harm/instructions")) then SelfHarm
      else if flagged then FlaggedOther
      else NotFlagged
  }

  /** The document the crisis path tries to save. */
  function CrisisDraft(text: string): (d: Draft)
    ensures d.text == text && d.severity == Some(JsString(SeverityUrgent)) && d.createdAt.None?
  {
    Draft(text, Some(JsString(CrisisMood)), Some(JsString(CrisisReflection)),
          [JsString(CrisisSuggestions[0]), JsString(CrisisSuggestions[1]), JsString(CrisisSuggestions[2])],
          Some(JsString(SeverityUrgent)), None)
  }

  // ---------------------------------------------------------------- completion

  /** `completion?.choices?.[0]?.message?.content` when it is truthy. */
  function ContentOf(choices: Option<seq<CompletionChoice>>): (r: Option<string>)
    ensures r.Some? <==>
      && choices.Some? && |choices.value| > 0 && choices.value[0].message.Some?
      && choices.value[0].message.value.content.Some? && choices.value[0].message.value.content.value != ""
    ensures r.Some? ==> r.value == choices.value[0].message.value.content.value && r.value != ""
  {
    if choices.Some? && |choices.value| > 0 && choices.value[0].message.Some?
       && choices.value[0].message.value.content.Some? && choices.value[0].message.value.content.value != ""
    then Some(choices.value[0].message.value.content.value)
    else None
  }

  /** The canned reply substituted for unusable model output. */
  const FallbackObject := JsObject(map[
    "mood" := JsString(FallbackMood),
    "reflection" := JsString(FallbackReflection),
    "suggestions" := JsArray([JsString(FallbackSuggestions[0]), JsString(FallbackSuggestions[1]), JsString(FallbackSuggestions[2])]),
    "severity" := JsString(SeverityNone)])

  /** The structural check on the decoded reply: truthy `mood` and
      `reflection`, and an array `suggestions` of any length. */
  predicate WellShaped(v: JsValue)
    requires !v.JsNull?
  {
    TruthyField(v, "mood") && TruthyField(v, "reflection") && ArrayField(v, "suggestions")
  }

  /** The decoded content, or the fallback object when `JSON.parse` throws. */
  function Decoded(content: string, parse: string -> Option<JsValue>): JsValue {
    match parse(content)
    case Some(v) => v
    case None => FallbackObject
  }

  /** The reply after the structural check: the decoded value if it passes,
      the fallback object if not, and `None` when it is `null` (reading
      `null.mood` throws). */
  function Checked(v: JsValue): (r: Option<JsValue>)
    ensures r.None? <==> v.JsNull?
    ensures r.Some? ==> !r.value.JsNull? && WellShaped(r.value)
    ensures r.Some? ==> r.value == (if WellShaped(v) then v else FallbackObject)
  {
    if v.JsNull? then None
    else if WellShaped(v) then Some(v)
    else Some(FallbackObject)
  }

  /** The document the normal path tries to save: the untrimmed text, the
      reply's mood, reflection and suggestions, and its severity if truthy,
      else `"none"`. */
  function NormalDraft(text: string, v: JsValue): (d: Draft)
    requires !v.JsNull? && WellShaped(v)
    ensures d.text == text && d.mood == Get(v, "mood") && d.reflection == Get(v, "reflection")
    ensures JsArray(d.suggestions) == Get(v, "suggestions").value
    ensures d.severity.Some?
    ensures TruthyField(v, "severity") ==> d.severity == Get(v, "severity")
    ensures !TruthyField(v, "severity") ==> d.severity == Some(JsString(SeverityNone))
    ensures d.createdAt.None?
  {
    var severity := Get(v, "severity");
    Draft(text, Get(v, "mood"), Get(v, "reflection"), Get(v, "suggestions").value.items,
          Some(if severity.Some? && Truthy(severity.value) then severity.value else JsString(SeverityNone)), None)
  }

  // ---------------------------------------------------------------- the handler

  /** Where the handler goes before it touches the store: it ends with a
      response and saves nothing, or it attempts to save a document on the
      crisis path or on the normal path. */
  datatype Plan = Finished(response: Response) | RecordCrisis(draft: Draft) | Record(draft: Draft)

  /** The stages after validation, each ending the request or handing on. */
  function PlanPost(body: Body, svc: Services): (p: Plan)
    ensures p.Finished? ==> p.response == ModerateNotice || (p.response.Failure? && p.response.status in {400, 500, 503})
    ensures p.Finished? && p.response.Failure? ==> p.response.error != ""
    ensures !p.Finished? ==> Validate(body).Ok? && p.draft.text == Validate(body).value
    ensures !p.Finished? ==> p.draft.createdAt.None?
  {
    match Validate(body)
    case Err(response) => Finished(response)
    case Ok(text) => AfterValidation(text, svc)
  }

  /** The key check, then the moderation gate. */
  function AfterValidation(text: string, svc: Services): (p: Plan)
    ensures p.RecordCrisis? ==> p.draft == CrisisDraft(text)
    ensures p.Record? ==> p.draft.text == text && p.draft.createdAt.None?
    ensures p.Finished? ==> p.response == ModerateNotice || (p.response.Failure? && p.response.status in {500, 503})
    ensures p.Finished? && p.response.Failure? ==> p.response.error != ""
    ensures !svc.apiKey ==> p == Finished(Failure(500, NotConfiguredError))
    ensures svc.apiKey && svc.moderation.ModerationThrew? ==> p == Finished(Failure(503, ModerationUnavailableError))
    ensures svc.apiKey ==> (p.RecordCrisis? <==> Classify(svc.moderation).SelfHarm?)
    ensures svc.apiKey && Classify(svc.moderation).FlaggedOther? ==> p == Finished(ModerateNotice)
    ensures svc.apiKey && Classify(svc.moderation).NotFlagged? ==> p == AfterModeration(text, svc.completion, svc.parse)
  {
    if !svc.apiKey then Finished(Failure(500, NotConfiguredError))
    else match Classify(svc.moderation)
      case ModerationUnavailable => Finished(Failure(503, ModerationUnavailableError))
      case SelfHarm => RecordCrisis(CrisisDraft(text))
      case FlaggedOther => Finished(ModerateNotice)
      case NotFlagged => AfterModeration(text, svc.completion, svc.parse)
  }

  /** The completion call's outcome, then decoding and the structural check. */
  function AfterModeration(text: string, completion: Completion, parse: string -> Option<JsValue>): (p: Plan)
    ensures !p.RecordCrisis?
    ensures p.Record? ==> p.draft.text == text && p.draft.createdAt.None?
    ensures p.Finished? ==> p.response.Failure? && p.response.status in {500, 503} && p.response.error != ""
    ensures completion.CompletionThrew? ==> p == Finished(Failure(503, CompletionUnavailableError))
    ensures completion.Completed? && ContentOf(completion.choices).None? ==> p == Finished(Failure(503, CompletionEmptyError))
    ensures completion.Completed? && ContentOf(completion.choices).Some? ==>
      var v := Decoded(ContentOf(completion.choices).value, parse);
      && (v.JsNull? ==> p == Finished(Failure(500, UnexpectedError)))
      && (!v.JsNull? ==> p == Record(NormalDraft(text, if WellShaped(v) then v else FallbackObject)))
  {
    match completion
    case CompletionThrew => Finished(Failure(503, CompletionUnavailableError))
    case Completed(choices) =>
      match ContentOf(choices)
      case None => Finished(Failure(503, CompletionEmptyError))
      case Some(content) =>
        match Checked(Decoded(content, parse))
        case None => Finished(Failure(500, UnexpectedError))
        case Some(v) => Record(NormalDraft(text, v))
  }

  datatype SaveError = StoreUnavailable | Rejected(reason: SchemaError)

  /** `save()` of a document into a store holding `stored`: the store assigns
      the next id and the current time; it fails when the store is down or
      the document does not conform to the schema. */
  function Attempt(stored: seq<Entry>, d: Draft, svc: Services): (r: Result<Entry, SaveError>)
    ensures r.Ok? <==> svc.storeUp && Conforms(d)
    ensures r.Ok? ==> r.value == Create(d, |stored|, svc.now).value
  {
    if !svc.storeUp then Err(StoreUnavailable)
    else match Create(d, |stored|, svc.now)
      case Ok(e) => Ok(e)
      case Err(reason) => Err(Rejected(reason))
  }

  /** What a handled request leaves behind: the response, and the store's
      entries afterwards. */
  datatype Handled = Handled(response: Response, entries: seq<Entry>)

  function Saved(stored: seq<Entry>, r: Result<Entry, SaveError>): seq<Entry> {
    if r.Ok? then stored + [r.value] else stored
  }

  /** The whole handler: the crisis path answers with the urgent notice
      whatever the save does; the normal path answers with the saved record,
      or with 500 when the save fails. */
  function HandlePost(stored: seq<Entry>, body: Body, svc: Services): Handled {
    Finish(stored, PlanPost(body, svc), svc)
  }

  /** Carrying out a plan against the store. */
  function Finish(stored: seq<Entry>, plan: Plan, svc: Services): Handled {
    match plan
    case Finished(response) => Handled(response, stored)
    case RecordCrisis(d) => Handled(UrgentNotice, Saved(stored, Attempt(stored, d, svc)))
    case Record(d) =>
      var r := Attempt(stored, d, svc);
      Handled(if r.Ok? then Echo(r.value) else Failure(500, SaveFailedError), Saved(stored, r))
  }
}
