/** What the journal submission handler promises, stated over `HandlePost`. */
module PipelineProperties {
  import opened Maybe
  import opened Text
  import opened Js
  import opened JournalSchema
  import opened JournalPipeline

  /** A request body `{ "text": s }`. */
  function TextBody(s: string): Body {
    Received(JsObject(map["text" := JsString(s)]))
  }

  /** Validation reads only the text: in any object body whose `text` is the
      string `s`, it is checked for presence, then for raw length, then for
      trimmed length, and the first failing check gives its own 400. A text
      longer than 500 is reported as too long even when it would also be too
      short once trimmed. */
  lemma ValidationOrder(v: JsValue, s: string)
    requires !v.JsNull? && Get(v, "text") == Some(JsString(s))
    ensures s == "" ==> Validate(Received(v)) == Err(Failure(400, TextRequiredError))
    ensures Utf16Length(s) > MaxRawLength ==> Validate(Received(v)) == Err(Failure(400, TextTooLongError))
    ensures s != "" && Utf16Length(s) <= MaxRawLength && Utf16Length(Trim(s)) < MinTrimmedLength
      ==> Validate(Received(v)) == Err(Failure(400, TextTooShortError))
    ensures Utf16Length(s) <= MaxRawLength && Utf16Length(Trim(s)) >= MinTrimmedLength
      ==> Validate(Received(v)) == Ok(s)
  {
    if s == "" {
      assert Validate(Received(v)) == Err(Failure(400, TextRequiredError));
    } else if Utf16Length(s) > MaxRawLength {
      assert Validate(Received(v)) == Err(Failure(400, TextTooLongError));
    } else if Utf16Length(Trim(s)) < MinTrimmedLength {
      assert Validate(Received(v)) == Err(Failure(400, TextTooShortError));
    } else {
      assert Validate(Received(v)) == Ok(s);
    }
  }

  /** The body `{ "text": s }` is such a body. */
  lemma TextBodyText(s: string)
    ensures !TextBody(s).value.JsNull? && Get(TextBody(s).value, "text") == Some(JsString(s))
  {
  }

  /** A `text` that is missing or not a string is rejected, and a `null` body
      (which cannot be destructured) ends in the generic 500. */
  lemma NonStringTextRejected(v: JsValue)
    requires !v.JsNull?
    requires Get(v, "text").None? || !Get(v, "text").value.JsString?
    ensures Validate(Received(v)) == Err(Failure(400, TextRequiredError))
    ensures Validate(Received(JsNull)) == Err(Failure(500, UnexpectedError))
    ensures Validate(Unreadable) == Err(Failure(500, UnexpectedError))
  {
  }

  /** The exact bounds. For a text that neither starts nor ends with white
      space, validation passes exactly when its length in UTF-16 units is
      between 10 and 500: so a length of 10 or 500 passes and one of 9 or 501
      fails. */
  lemma SolidTextBounds(s: string)
    requires s != "" ==> !IsWhitespace(s[0]) && !IsWhitespace(s[|s| - 1])
    ensures Validate(TextBody(s)).Ok? <==> MinTrimmedLength <= Utf16Length(s) <= MaxRawLength
  {
    TrimOfSolid(s);
    TrimmedTextBounds(s);
  }

  /** The bounds for a text that trimming leaves unchanged. */
  lemma TrimmedTextBounds(s: string)
    requires Trim(s) == s
    ensures Validate(TextBody(s)).Ok? <==> MinTrimmedLength <= Utf16Length(s) <= MaxRawLength
  {
    TextBodyText(s);
    ValidationOrder(TextBody(s).value, s);
    if s == "" {
      assert Utf16Length(s) == 0;
    } else if Utf16Length(s) > MaxRawLength {
    } else if Utf16Length(s) < MinTrimmedLength {
      assert Utf16Length(Trim(s)) < MinTrimmedLength;
    }
  }

  /** Lengths are counted as JavaScript counts them: a character outside the
      Basic Multilingual Plane, such as an emoji, is two UTF-16 units. A text
      of such characters passes with 5 to 250 of them, and 300 of them are
      too long although they are fewer than 500 characters. */
  lemma AstralTextBounds(s: string)
    requires forall i :: 0 <= i < |s| ==> s[i] > '\U{FFFF}'
    ensures Validate(TextBody(s)).Ok? <==> 5 <= |s| <= 250
    ensures |s| > 250 ==> Validate(TextBody(s)) == Err(Failure(400, TextTooLongError))
  {
    Utf16LengthOfAstral(s);
    if s != "" {
      assert !IsWhitespace(s[0]) && !IsWhitespace(s[|s| - 1]);
    }
    SolidTextBounds(s);
    TextBodyText(s);
    ValidationOrder(TextBody(s).value, s);
  }

  /** White space around the text counts towards the raw length only: a text
      padded on both sides passes exactly when its core is at least 10 long
      and the whole at most 500. */
  lemma PaddedTextBounds(left: string, core: string, right: string)
    requires Blank(left) && Blank(right) && core != ""
    requires !IsWhitespace(core[0]) && !IsWhitespace(core[|core| - 1])
    ensures Validate(TextBody(left + core + right)).Ok?
      <==> Utf16Length(core) >= MinTrimmedLength && Utf16Length(left + core + right) <= MaxRawLength
  {
    TrimPadded(left, core, right);
  }

  /** Before any external call: a rejected request gets the validation
      response whatever the key, the services and the store do, and nothing
      is stored. */
  lemma RejectedBeforeAnyCall(stored: seq<Entry>, body: Body, svc: Services, other: Services)
    requires Validate(body).Err?
    ensures HandlePost(stored, body, svc) == Handled(Validate(body).error, stored)
    ensures HandlePost(stored, body, svc) == HandlePost(stored, body, other)
  {
  }

  /** A missing API key gives 500 after validation and before moderation: the
      outcome does not depend on the services, and nothing is stored. */
  lemma MissingKey(stored: seq<Entry>, body: Body, svc: Services, other: Services)
    requires Validate(body).Ok? && !svc.apiKey && !other.apiKey
    ensures HandlePost(stored, body, svc) == Handled(Failure(500, NotConfiguredError), stored)
    ensures HandlePost(stored, body, svc) == HandlePost(stored, body, other)
  {
  }

  /** A moderation call that throws gives 503 and stores nothing. */
  lemma ModerationThrows(stored: seq<Entry>, body: Body, svc: Services)
    requires Validate(body).Ok? && svc.apiKey && svc.moderation.ModerationThrew?
    ensures HandlePost(stored, body, svc) == Handled(Failure(503, ModerationUnavailableError), stored)
  {
  }

  /** Missing `results`, an empty `results`, a missing `flagged` or missing
      `categories` count as not flagged (or, with `flagged` set, as flagged
      without a self-harm category), never as an error. */
  lemma MissingModerationFields(r: ModerationResult)
    ensures Classify(Moderated(None)) == NotFlagged
    ensures Classify(Moderated(Some([]))) == NotFlagged
    ensures r.flagged.None? ==> Classify(Moderated(Some([r]))) == NotFlagged
    ensures r.flagged == Some(true) && r.categories.None? ==> Classify(Moderated(Some([r]))) == FlaggedOther
  {
  }

  /** The crisis document conforms to the schema and is stored with the
      original text, mood `"Crisis"`, the fixed reflection and suggestions
      and severity `"urgent"`. */
  lemma CrisisRecord(text: string, id: nat, now: int)
    requires text != "" && Utf16Length(text) <= MaxRawLength
    ensures Create(CrisisDraft(text), id, now)
      == Ok(Entry(id, text, Some(CrisisMood), Some(CrisisReflection), CrisisSuggestions, SeverityUrgent, now))
  {
    var d := CrisisDraft(text);
    assert Conforms(d);
    var e := Create(d, id, now).value;
    assert |e.suggestions| == 3;
    assert e.suggestions == CrisisSuggestions by {
      assert CastString(d.suggestions[0]) == Text(e.suggestions[0]);
      assert CastString(d.suggestions[1]) == Text(e.suggestions[1]);
      assert CastString(d.suggestions[2]) == Text(e.suggestions[2]);
    }
  }

  /** The crisis path: the urgent notice is the response, and exactly one
      document is offered to the store: the original text with the fixed
      mood, reflection and suggestions and severity `"urgent"`. It is
      stored when the store is up. */
  lemma CrisisPath(stored: seq<Entry>, body: Body, svc: Services)
    requires Validate(body).Ok? && svc.apiKey && Classify(svc.moderation).SelfHarm?
    ensures var h := HandlePost(stored, body, svc);
      && h.response == UrgentNotice
      && (!svc.storeUp ==> h.entries == stored)
      && (svc.storeUp ==> h.entries == stored + [Entry(|stored|, Validate(body).value, Some(CrisisMood),
            Some(CrisisReflection), CrisisSuggestions, SeverityUrgent, svc.now)])
  {
    var text := Validate(body).value;
    assert PlanPost(body, svc) == RecordCrisis(CrisisDraft(text));
    CrisisRecord(text, |stored|, svc.now);
  }

  /** The crisis response is the same whether or not the save succeeds. */
  lemma CrisisReplyIgnoresStore(stored: seq<Entry>, body: Body, svc: Services)
    requires Validate(body).Ok? && svc.apiKey && Classify(svc.moderation).SelfHarm?
    ensures HandlePost(stored, body, svc).response == HandlePost(stored, body, svc.(storeUp := !svc.storeUp)).response
  {
  }

  /** Flagged content without a self-harm category gets the moderate notice
      and nothing is stored. */
  lemma ModeratePath(stored: seq<Entry>, body: Body, svc: Services)
    requires Validate(body).Ok? && svc.apiKey && Classify(svc.moderation).FlaggedOther?
    ensures HandlePost(stored, body, svc) == Handled(ModerateNotice, stored)
  {
  }

  /** A completion call that throws, or whose content is missing or empty,
      gives 503 and stores nothing. */
  lemma CompletionUnusable(stored: seq<Entry>, body: Body, svc: Services)
    requires Validate(body).Ok? && svc.apiKey && Classify(svc.moderation).NotFlagged?
    ensures svc.completion.CompletionThrew?
      ==> HandlePost(stored, body, svc) == Handled(Failure(503, CompletionUnavailableError), stored)
    ensures svc.completion.Completed? && ContentOf(svc.completion.choices).None?
      ==> HandlePost(stored, body, svc) == Handled(Failure(503, CompletionEmptyError), stored)
  {
  }

  /** Content that decodes to `null` fails the structural check by throwing,
      which ends in the generic 500 with nothing stored. */
  lemma NullContent(stored: seq<Entry>, body: Body, svc: Services, content: string)
    requires Validate(body).Ok? && svc.apiKey && Classify(svc.moderation).NotFlagged?
    requires svc.completion.Completed? && ContentOf(svc.completion.choices) == Some(content)
    requires svc.parse(content) == Some(JsNull)
    ensures HandlePost(stored, body, svc) == Handled(Failure(500, UnexpectedError), stored)
  {
    ReplyPlan(body, svc);
    assert Checked(Decoded(content, svc.parse)).None?;
  }

  /** The record the fallback produces for `text` under id `id` at `now`. */
  function FallbackEntry(id: nat, text: string, now: int): Entry {
    Entry(id, text, Some(FallbackMood), Some(FallbackReflection), FallbackSuggestions, SeverityNone, now)
  }

  /** The document built from the fallback object: the canned fields, as
      strings, with severity `"none"`; it conforms to the schema. */
  lemma FallbackDraft(text: string)
    requires text != "" && Utf16Length(text) <= MaxRawLength
    ensures NormalDraft(text, FallbackObject) == Draft(text, Some(JsString(FallbackMood)), Some(JsString(FallbackReflection)),
      [JsString(FallbackSuggestions[0]), JsString(FallbackSuggestions[1]), JsString(FallbackSuggestions[2])],
      Some(JsString(SeverityNone)), None)
    ensures Conforms(NormalDraft(text, FallbackObject))
  {
    var d := NormalDraft(text, FallbackObject);
    assert d.suggestions == [JsString(FallbackSuggestions[0]), JsString(FallbackSuggestions[1]), JsString(FallbackSuggestions[2])];
  }

  /** The fallback document conforms to the schema and is stored as the
      canned record. */
  lemma FallbackRecord(text: string, id: nat, now: int)
    requires text != "" && Utf16Length(text) <= MaxRawLength
    ensures Create(NormalDraft(text, FallbackObject), id, now) == Ok(FallbackEntry(id, text, now))
  {
    var d := NormalDraft(text, FallbackObject);
    FallbackDraft(text);
    var e := Create(d, id, now).value;
    assert |e.suggestions| == 3;
    assert e.suggestions == FallbackSuggestions by {
      assert CastString(d.suggestions[0]) == Text(e.suggestions[0]);
      assert CastString(d.suggestions[1]) == Text(e.suggestions[1]);
      assert CastString(d.suggestions[2]) == Text(e.suggestions[2]);
    }
  }

  /** Content that does not decode, or decodes to a non-null value lacking a
      truthy `mood` or `reflection` or an array `suggestions`, is replaced by
      the canned reply: with the store up, the record saved and echoed has
      mood `"Reflective"`, the fixed reflection and three suggestions, and
      severity `"none"`. */
  lemma FallbackPath(stored: seq<Entry>, body: Body, svc: Services, content: string)
    requires Validate(body).Ok? && svc.apiKey && Classify(svc.moderation).NotFlagged?
    requires svc.completion.Completed? && ContentOf(svc.completion.choices) == Some(content)
    requires svc.parse(content).None? || (!svc.parse(content).value.JsNull? && !WellShaped(svc.parse(content).value))
    ensures var h := HandlePost(stored, body, svc);
      var e := FallbackEntry(|stored|, Validate(body).value, svc.now);
      && (svc.storeUp ==> h == Handled(Echo(e), stored + [e]))
      && (!svc.storeUp ==> h == Handled(Failure(500, SaveFailedError), stored))
  {
    var text := Validate(body).value;
    ReplyPlan(body, svc);
    assert Checked(Decoded(content, svc.parse)) == Some(FallbackObject);
    assert PlanPost(body, svc) == Record(NormalDraft(text, FallbackObject));
    FallbackRecord(text, |stored|, svc.now);
    FinishRecord(stored, NormalDraft(text, FallbackObject), svc);
  }

  /** Once the text is valid, the key is set and moderation does not flag
      it, the plan depends only on the text, the completion and the decoder. */
  lemma ReplyPlan(body: Body, svc: Services)
    requires Validate(body).Ok? && svc.apiKey && Classify(svc.moderation).NotFlagged?
    ensures PlanPost(body, svc) == AfterModeration(Validate(body).value, svc.completion, svc.parse)
  {
    var text := Validate(body).value;
    assert PlanPost(body, svc) == AfterValidation(text, svc);
  }

  /** Saving a document: with the store up and a conforming document, the
      record under the next id is appended and echoed; otherwise the
      response is 500 and nothing is stored. */
  lemma FinishRecord(stored: seq<Entry>, d: Draft, svc: Services)
    ensures svc.storeUp && Conforms(d) ==>
      var e := Create(d, |stored|, svc.now).value;
      Finish(stored, Record(d), svc) == Handled(Echo(e), stored + [e])
    ensures !(svc.storeUp && Conforms(d)) ==> Finish(stored, Record(d), svc) == Handled(Failure(500, SaveFailedError), stored)
  {
  }

  /** The normal path: a well-shaped reply `v` becomes a document with the
      untrimmed text and `v`'s fields, severity defaulting to `"none"`. If
      the store is up and the document conforms, it is appended and echoed;
      otherwise the response is 500 and nothing is stored. */
  lemma NormalPath(stored: seq<Entry>, body: Body, svc: Services, content: string, v: JsValue)
    requires Validate(body).Ok? && svc.apiKey && Classify(svc.moderation).NotFlagged?
    requires svc.completion.Completed? && ContentOf(svc.completion.choices) == Some(content)
    requires svc.parse(content) == Some(v) && !v.JsNull? && WellShaped(v)
    ensures var d := NormalDraft(Validate(body).value, v);
      var h := HandlePost(stored, body, svc);
      && (svc.storeUp && Conforms(d) ==>
            var e := Create(d, |stored|, svc.now).value;
            h == Handled(Echo(e), stored + [e]) && e.text == Validate(body).value)
      && (!(svc.storeUp && Conforms(d)) ==> h == Handled(Failure(500, SaveFailedError), stored))
  {
    var d := NormalDraft(Validate(body).value, v);
    ReplyPlan(body, svc);
    assert PlanPost(body, svc) == Record(d);
    FinishRecord(stored, d, svc);
  }

  /** A model reply whose severity is truthy and not one of the two enum
      strings makes the save fail: a string outside the enum, a number or
      `true` (cast to text outside the enum), an array or an object (not
      castable). The reply is 500 and nothing is stored. */
  lemma OutOfEnumSeverity(stored: seq<Entry>, body: Body, svc: Services, content: string, v: JsValue, w: JsValue)
    requires Validate(body).Ok? && svc.apiKey && Classify(svc.moderation).NotFlagged?
    requires svc.completion.Completed? && ContentOf(svc.completion.choices) == Some(content)
    requires svc.parse(content) == Some(v) && !v.JsNull? && WellShaped(v)
    requires Get(v, "severity") == Some(w) && Truthy(w)
    requires w != JsString(SeverityNone) && w != JsString(SeverityUrgent)
    ensures HandlePost(stored, body, svc) == Handled(Failure(500, SaveFailedError), stored)
  {
    var d := NormalDraft(Validate(body).value, v);
    assert d.severity == Some(w);
    TruthySeverityOutsideEnum(w);
    assert !Conforms(d);
    NormalPath(stored, body, svc, content, v);
  }

  /** Carrying out a plan appends at most one record, the conforming document
      stored under the next id; an echoed record is exactly the one
      appended; every other response leaves the store as it was. */
  lemma FinishAppendsAtMostOne(stored: seq<Entry>, plan: Plan, svc: Services)
    ensures var h := Finish(stored, plan, svc);
      && (h.entries == stored || (!plan.Finished? && Conforms(plan.draft)
            && h.entries == stored + [Create(plan.draft, |stored|, svc.now).value]))
      && (h.response.Reflection? && !plan.Finished? ==>
            && plan.Record? && |h.entries| == |stored| + 1
            && h.response == Echo(h.entries[|stored|]))
      && (h.response.Failure? ==> h.entries == stored)
  {
    match plan
    case Finished(_) =>
    case RecordCrisis(d) =>
    case Record(d) =>
      var r := Attempt(stored, d, svc);
      if r.Ok? {
        assert Finish(stored, plan, svc) == Handled(Echo(r.value), stored + [r.value]);
      }
  }

  /** Every handled request leaves the earlier records untouched and appends
      at most one record: the next id, stamped now, conforming to the schema,
      holding a text that passed validation (raw length at most 500, trimmed
      length at least 10). */
  lemma AppendOnly(stored: seq<Entry>, body: Body, svc: Services)
    ensures var h := HandlePost(stored, body, svc);
      || h.entries == stored
      || (exists e :: h.entries == stored + [e] && e.id == |stored| && e.createdAt == svc.now
            && ValidEntry(e) && Utf16Length(e.text) <= MaxRawLength
            && Utf16Length(Trim(e.text)) >= MinTrimmedLength)
  {
    var plan := PlanPost(body, svc);
    var h := Finish(stored, plan, svc);
    FinishAppendsAtMostOne(stored, plan, svc);
    if h.entries != stored {
      var e := Create(plan.draft, |stored|, svc.now).value;
      assert h.entries == stored + [e] && e.text == Validate(body).value;
    }
  }

  /** The response and the store agree: a failure (400, 500 or 503) and the
      moderate notice never come with a stored record; an echoed record is
      exactly the one appended; the only notices are the two fixed ones. */
  lemma ResponseMatchesStore(stored: seq<Entry>, body: Body, svc: Services)
    ensures var h := HandlePost(stored, body, svc);
      && (h.response.Failure? ==> h.response.status in {400, 500, 503})
      && (h.response.Failure? || h.response == ModerateNotice ==> h.entries == stored)
      && (h.response.Reflection? ==> exists e :: h.entries == stored + [e] && h.response == Echo(e))
      && (h.response.Notice? ==> h.response == UrgentNotice || h.response == ModerateNotice)
  {
    var plan := PlanPost(body, svc);
    FinishAppendsAtMostOne(stored, plan, svc);
    var h := Finish(stored, plan, svc);
    if h.response.Reflection? {
      assert h.entries == stored + [h.entries[|stored|]];
    }
  }

  /** Every error response carries a non-empty message and a 4xx or 5xx
      status. */
  lemma HandlerErrorsNamed(stored: seq<Entry>, body: Body, svc: Services)
    ensures var r := HandlePost(stored, body, svc).response;
      r.Failure? ==> r.error != "" && r.status in {400, 500, 503}
  {
    var plan := PlanPost(body, svc);
    assert HandlePost(stored, body, svc) == Finish(stored, plan, svc);
    if plan.Record? {
      var r := Attempt(stored, plan.draft, svc);
      assert HandlePost(stored, body, svc).response == if r.Ok? then Echo(r.value) else Failure(500, SaveFailedError);
    }
  }

  /** The model reply `{"mood":"Happy","reflection":"Great day","suggestions":["A","B","C"],"severity":"none"}`. */
  function HappyObject(): JsValue {
    JsObject(map["mood" := JsString("Happy"), "reflection" := JsString("Great day"),
      "suggestions" := JsArray([JsString("A"), JsString("B"), JsString("C")]), "severity" := JsString("none")])
  }

  /** The happy reply conforms and keeps exactly its fields. */
  lemma HappyRecord(text: string, id: nat, now: int)
    requires text != "" && Utf16Length(text) <= MaxRawLength
    ensures WellShaped(HappyObject())
    ensures Create(NormalDraft(text, HappyObject()), id, now)
      == Ok(Entry(id, text, Some("Happy"), Some("Great day"), ["A", "B", "C"], "none", now))
  {
    var d := NormalDraft(text, HappyObject());
    assert d.suggestions == [JsString("A"), JsString("B"), JsString("C")];
    assert Conforms(d);
    var e := Create(d, id, now).value;
    assert |e.suggestions| == 3;
    assert e.suggestions == ["A", "B", "C"] by {
      assert CastString(d.suggestions[0]) == Text(e.suggestions[0]);
      assert CastString(d.suggestions[1]) == Text(e.suggestions[1]);
      assert CastString(d.suggestions[2]) == Text(e.suggestions[2]);
    }
  }

  /** The happy reply is stored and echoed with exactly its fields. */
  lemma HappyReply(stored: seq<Entry>, body: Body, svc: Services, content: string)
    requires Validate(body).Ok? && svc.apiKey && Classify(svc.moderation).NotFlagged? && svc.storeUp
    requires svc.completion.Completed? && ContentOf(svc.completion.choices) == Some(content)
    requires svc.parse(content) == Some(HappyObject())
    ensures var e := Entry(|stored|, Validate(body).value, Some("Happy"), Some("Great day"), ["A", "B", "C"], "none", svc.now);
      HandlePost(stored, body, svc) == Handled(Echo(e), stored + [e])
  {
    HappyRecord(Validate(body).value, |stored|, svc.now);
    NormalPath(stored, body, svc, content, HappyObject());
  }

  /** The model reply `{"mood":"Sad","reflection":"Hard day","suggestions":[],"severity":"urgent"}`. */
  function UrgentObject(): JsValue {
    JsObject(map["mood" := JsString("Sad"), "reflection" := JsString("Hard day"),
      "suggestions" := JsArray([]), "severity" := JsString(SeverityUrgent)])
  }

  /** A model reply saying `"urgent"` conforms and keeps that severity. */
  lemma UrgentRecord(text: string, id: nat, now: int)
    requires text != "" && Utf16Length(text) <= MaxRawLength
    ensures WellShaped(UrgentObject())
    ensures Create(NormalDraft(text, UrgentObject()), id, now)
      == Ok(Entry(id, text, Some("Sad"), Some("Hard day"), [], SeverityUrgent, now))
  {
    var d := NormalDraft(text, UrgentObject());
    assert d.suggestions == [];
    assert Conforms(d);
  }

  /** Records with severity `"urgent"` do not only come from the crisis path:
      a model reply that says `"urgent"` is stored as such, with the model's
      own mood. */
  lemma UrgentFromModelReply(stored: seq<Entry>, body: Body, svc: Services, content: string)
    requires Validate(body).Ok? && svc.apiKey && Classify(svc.moderation).NotFlagged? && svc.storeUp
    requires svc.completion.Completed? && ContentOf(svc.completion.choices) == Some(content)
    requires svc.parse(content) == Some(UrgentObject())
    ensures var h := HandlePost(stored, body, svc);
      |h.entries| == |stored| + 1 && h.entries[|stored|].severity == SeverityUrgent
      && h.entries[|stored|].mood == Some("Sad")
  {
    UrgentRecord(Validate(body).value, |stored|, svc.now);
    NormalPath(stored, body, svc, content, UrgentObject());
  }
}
