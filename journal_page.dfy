/** The journal page's submit flow: the form keeps the draft text, a loading
    flag, an alert and the last reflection, and `handleSubmit` moves between
    them around one request to `POST /api/journal`. */
module JournalPage {
  import opened Maybe
  import opened Text
  import opened JournalSchema
  import opened JournalPipeline
  import opened PipelineProperties

  const SomethingWentWrong := "Something went wrong"
  const SubmitFailed := "Failed to process your journal entry. Please try again."

  datatype AlertKind = UrgentAlert | ModerateAlert | ErrorAlert

  /** The `error` state: its type and its message (`None` for `undefined`). */
  datatype Alert = Alert(kind: AlertKind, message: Option<string>)

  /** What the request produced: the server's response, or a failure to
      reach it or to read its body, with the thrown error's message. */
  datatype ServerReply = Delivered(response: Response) | TransportFailed(message: string)

  /** `response.ok`. */
  predicate IsOk(status: int) {
    200 <= status < 300
  }

  /** `data.severity` of a response body. */
  function SeverityOf(r: Response): Option<string> {
    match r
    case Failure(_, _) => None
    case Notice(severity, _) => Some(severity)
    case Reflection(_, _, _, _, severity, _) => Some(severity)
  }

  /** `data.message` of a response body. */
  function MessageOf(r: Response): Option<string> {
    if r.Notice? then Some(r.message) else None
  }

  /** The message of the error thrown for a non-ok reply: the body's `error`
      field, or a generic text when it is missing or empty. */
  function ServerError(r: Response): (m: string)
    ensures m != ""
    ensures r.Failure? && r.error != "" ==> m == r.error
  {
    if r.Failure? && r.error != "" then r.error else SomethingWentWrong
  }

  /** The `catch` branch: the thrown message, or a generic text when empty. */
  function FailureAlert(message: string): (a: Alert)
    ensures a.kind == ErrorAlert && a.message.Some? && a.message.value != ""
    ensures message != "" ==> a.message == Some(message)
  {
    Alert(ErrorAlert, Some(if message != "" then message else SubmitFailed))
  }

  /** What the page shows once a reply is in. */
  datatype Shown = Shown(error: Option<Alert>, response: Option<Response>)

  /** The reply's effect on the page: a non-ok reply or a failed request
      raises an error alert; an ok reply raises the urgent or moderate alert
      when its severity says so and is shown as a reflection otherwise. */
  function Outcome(reply: ServerReply): (s: Shown)
    ensures s.error.Some? != s.response.Some?
    ensures reply.TransportFailed? ==> s == Shown(Some(FailureAlert(reply.message)), None)
    ensures reply.Delivered? && !IsOk(Status(reply.response))
      ==> s == Shown(Some(Alert(ErrorAlert, Some(ServerError(reply.response)))), None)
    ensures reply.Delivered? && IsOk(Status(reply.response)) && SeverityOf(reply.response) == Some(SeverityUrgent)
      ==> s == Shown(Some(Alert(UrgentAlert, MessageOf(reply.response))), None)
    ensures reply.Delivered? && IsOk(Status(reply.response)) && SeverityOf(reply.response) == Some("moderate")
      ==> s == Shown(Some(Alert(ModerateAlert, MessageOf(reply.response))), None)
    ensures reply.Delivered? && IsOk(Status(reply.response))
      && SeverityOf(reply.response) != Some(SeverityUrgent) && SeverityOf(reply.response) != Some("moderate")
      ==> s == Shown(None, Some(reply.response))
  {
    match reply
    case TransportFailed(m) => Shown(Some(FailureAlert(m)), None)
    case Delivered(data) =>
      if !IsOk(Status(data)) then Shown(Some(FailureAlert(ServerError(data))), None)
      else if SeverityOf(data) == Some(SeverityUrgent) then Shown(Some(Alert(UrgentAlert, MessageOf(data))), None)
      else if SeverityOf(data) == Some("moderate") then Shown(Some(Alert(ModerateAlert, MessageOf(data))), None)
      else Shown(None, Some(data))
  }

  /** The submit button is enabled when the trimmed draft is non-empty and no
      request is in flight. */
  predicate SubmitEnabled(entry: string, isLoading: bool) {
    Trim(entry) != "" && !isLoading
  }

  /** The button is enabled exactly when the draft has a character that is
      not white space and nothing is loading. */
  lemma SubmitEnabledIff(entry: string, isLoading: bool)
    ensures SubmitEnabled(entry, isLoading) <==> !isLoading && exists i :: 0 <= i < |entry| && !IsWhitespace(entry[i])
  {
    TrimEmptyIffBlank(entry);
  }

  /** How a response is shown: the fixed crisis and moderate notices as
      their alerts, a failure with a non-ok status and a message as an error
      alert with that message, a reflection with severity `"none"` as the
      response, and one with severity `"urgent"` as the urgent alert with no
      message. */
  lemma ShowsResponse(r: Response)
    requires r.Failure? ==> r.error != "" && !IsOk(r.status)
    ensures r == UrgentNotice ==> Outcome(Delivered(r)).error == Some(Alert(UrgentAlert, Some(CrisisMessage)))
    ensures r == ModerateNotice ==> Outcome(Delivered(r)).error == Some(Alert(ModerateAlert, Some(ModerateMessage)))
    ensures r.Failure? ==> Outcome(Delivered(r)).error == Some(Alert(ErrorAlert, Some(r.error)))
    ensures r.Reflection? && r.severity == SeverityNone ==> Outcome(Delivered(r)).response == Some(r)
    ensures r.Reflection? && r.severity == SeverityUrgent ==> Outcome(Delivered(r)).error == Some(Alert(UrgentAlert, None))
  {
  }

  /** How each response of the submission handler is shown: the fixed crisis
      and moderate messages as alerts, every failure as an error alert with
      the server's own message, and a saved reflection with severity `"none"`
      as the response. A saved reflection that the model marked `"urgent"`
      raises the urgent alert with no message. */
  lemma ShowsHandlerResponse(stored: seq<Entry>, body: Body, svc: Services)
    ensures var r := HandlePost(stored, body, svc).response;
      && (r == UrgentNotice ==> Outcome(Delivered(r)).error == Some(Alert(UrgentAlert, Some(CrisisMessage))))
      && (r == ModerateNotice ==> Outcome(Delivered(r)).error == Some(Alert(ModerateAlert, Some(ModerateMessage))))
      && (r.Failure? ==> Outcome(Delivered(r)).error == Some(Alert(ErrorAlert, Some(r.error))))
      && (r.Reflection? && r.severity == SeverityNone ==> Outcome(Delivered(r)).response == Some(r))
      && (r.Reflection? && r.severity == SeverityUrgent ==> Outcome(Delivered(r)).error == Some(Alert(UrgentAlert, None)))
  {
    HandlerErrorsNamed(stored, body, svc);
    ShowsResponse(HandlePost(stored, body, svc).response);
  }

  /** The journal form's state. */
  class JournalForm {
    var entry: string
    var isLoading: bool
    var error: Option<Alert>
    var response: Option<Response>

    constructor ()
      ensures entry == "" && !isLoading && error.None? && response.None?
    {
      entry, isLoading, error, response := "", false, None, None;
    }

    /** The textarea's `onChange`. */
    method Edit(text: string)
      modifies this`entry
      ensures entry == text
    {
      entry := text;
    }

    /** The start of `handleSubmit`: a blank draft sends nothing and changes
        nothing; otherwise loading starts and the alert and the response are
        cleared. */
    method Begin() returns (started: bool)
      modifies this
      ensures started <==> Trim(old(entry)) != ""
      ensures entry == old(entry)
      ensures !started ==> isLoading == old(isLoading) && error == old(error) && response == old(response)
      ensures started ==> isLoading && error.None? && response.None?
    {
      if Trim(entry) == "" {
        return false;
      }
      isLoading := true;
      error := None;
      response := None;
      started := true;
    }

    /** The rest of `handleSubmit`, once the request has begun and its reply
        is in: the `try`, `catch` and `finally` branches in turn. */
    method Complete(reply: ServerReply)
      requires isLoading && error.None? && response.None?
      modifies this
      ensures entry == old(entry) && !isLoading
      ensures Shown(error, response) == Outcome(reply)
    {
      var thrown: Option<string> := None;
      match reply {
        case TransportFailed(m) =>
          thrown := Some(m);
        case Delivered(data) =>
          if !IsOk(Status(data)) {
            thrown := Some(ServerError(data));
          } else if SeverityOf(data) == Some(SeverityUrgent) {
            error := Some(Alert(UrgentAlert, MessageOf(data)));
          } else if SeverityOf(data) == Some("moderate") {
            error := Some(Alert(ModerateAlert, MessageOf(data)));
          } else {
            response := Some(data);
          }
      }
      if thrown.Some? {
        error := Some(FailureAlert(thrown.value));
      }
      isLoading := false;
    }

    /** A whole submission: nothing happens for a blank draft; otherwise the
        page ends not loading, showing exactly one of an alert and a
        response, as `Outcome` says. */
    method HandleSubmit(reply: ServerReply) returns (sent: bool)
      modifies this
      ensures sent <==> Trim(old(entry)) != ""
      ensures !sent ==> isLoading == old(isLoading) && error == old(error) && response == old(response)
      ensures sent ==> !isLoading && Shown(error, response) == Outcome(reply)
      ensures sent ==> (error.Some? != response.Some?)
      ensures entry == old(entry)
    {
      sent := Begin();
      if sent {
        Complete(reply);
      }
    }
  }
}
