/**
 * The state logic of `useProofread` (`src/app/hooks/useProofread.ts`): the
 * input classifier, the guard and synchronous start of `runProofread`, its
 * `catch`/`finally` bookkeeping once the request settles, and
 * `cancelProofread`. The request itself is not modelled: how it settled is
 * an `Outcome` passed in, and request and notification ids are parameters.
 */
module ProofreadHook {
  import opened Wrappers
  import opened Text
  import opened Validation
  import opened SectionParser
  import SettingsStore
  import Notifications

  const MaxChars := 10000

  /** `validationState`. */
  datatype ValidationState = Ok | Empty | Limit

  /** Blank text (all whitespace, so empty once trimmed) is `Empty` before its length
      is looked at; longer than `MaxChars` is `Limit`. */
  function Classify(inputText: string): ValidationState
  {
    if AllWhitespace(inputText) then Empty
    else if |inputText| > MaxChars then Limit
    else Ok
  }

  /** `Classify` is the hook's expression, which tests the length of the trimmed text. */
  lemma ClassifyIsTrimTest(inputText: string)
    ensures Classify(inputText) ==
      if |Trim(inputText)| == 0 then Empty else if |inputText| > MaxChars then Limit else Ok
  {
    TrimEmptyIff(inputText);
  }

  /** Long whitespace-only text is `Empty`, not `Limit`. */
  lemma ClassifyEmptyIff(inputText: string)
    ensures Classify(inputText) == Empty <==> |Trim(inputText)| == 0
  {
    TrimEmptyIff(inputText);
  }

  /** `Limit` exactly when the text is not blank and longer than `MaxChars`. */
  lemma ClassifyLimitIff(inputText: string)
    ensures Classify(inputText) == Limit <==> |Trim(inputText)| != 0 && |inputText| > MaxChars
  {
    TrimEmptyIff(inputText);
  }

  /** Text the classifier accepts also meets the request schema's text rule, so the
      request the hook sends is accepted as sent, whatever the settings. */
  lemma OkTextIsAcceptedByServer(inputText: string, style: Style, level: Level)
    requires Classify(inputText) == Ok
    ensures TextRule(inputText)
    ensures ParseRequest(RequestJson(inputText, style, level)) == Some(ProofreadRequest(inputText, style, level))
  {
    RequestRoundTrip(inputText, style, level);
  }

  /** The classifier is stricter than the schema: blank text of an allowed length
      passes the schema's rule but is `Empty`. */
  lemma BlankTextPassesSchemaOnly(inputText: string)
    requires 1 <= |inputText| <= MaxChars && |Trim(inputText)| == 0
    ensures TextRule(inputText) && Classify(inputText) == Empty
  {
    TrimEmptyIff(inputText);
  }

  // ---------------------------------------------------------------------------
  // How a request settles

  /** How the `try` block of `runProofread` ended. */
  datatype Outcome =
    | HttpFailure(errorField: Option<string>)  // `!response.ok`; the body's `error` member
    | Received(body: Json)                     // `response.ok`; the parsed body
    | Aborted                                  // an `Error` named `AbortError`
    | Thrown(message: string)                  // any other `Error`
    | NonErrorThrown                           // a thrown value that is not an `Error`

  const RequestFailed := "校正に失敗しました"
  const MalformedResponse := "APIレスポンスの形式が不正です"
  const UnexpectedError := "予期しないエラーが発生しました"
  const CancelledMessage := "校正がキャンセルされました"

  /** The error notification the `catch` block raises, if any. `wasCancelled` is
      whether the request's id was in the cancelled set. */
  function ErrorNotice(outcome: Outcome, wasCancelled: bool): Option<string>
  {
    match outcome
    case HttpFailure(e) => Some(if e.Some? && e.value != "" then e.value else RequestFailed)
    case Received(body) => if ResponseSchema(body).Some? then None else Some(MalformedResponse)
    case Aborted => if wasCancelled then None else Some(CancelledMessage)
    case Thrown(message) => Some(message)
    case NonErrorThrown => Some(UnexpectedError)
  }

  /** The cancelled set after the `catch` block: an abort consumes its cancel mark. */
  function CancelledAfter(cancelled: set<string>, requestId: string, outcome: Outcome): set<string>
  {
    if outcome.Aborted? && requestId in cancelled then cancelled - {requestId} else cancelled
  }

  /** A request stays silent exactly when it delivered a valid response or was
      aborted after being cancelled; every other way of settling raises exactly one error. */
  lemma SilentIff(outcome: Outcome, wasCancelled: bool)
    ensures ErrorNotice(outcome, wasCancelled).None? <==>
      (outcome.Received? && ResponseSchema(outcome.body).Some?) || (outcome.Aborted? && wasCancelled)
  {
  }

  /** A failed HTTP response reports the body's `error` when it is a non-empty string,
      and the generic failure message otherwise; neither is empty. */
  lemma HttpFailureMessage(e: Option<string>, wasCancelled: bool)
    ensures ErrorNotice(HttpFailure(e), wasCancelled).Some?
    ensures e.Some? && e.value != "" ==> ErrorNotice(HttpFailure(e), wasCancelled).value == e.value
    ensures e.None? || e.value == "" ==> ErrorNotice(HttpFailure(e), wasCancelled).value == RequestFailed
    ensures ErrorNotice(HttpFailure(e), wasCancelled).value != ""
  {
  }

  /** An abort of a cancelled request consumes its mark; nothing else touches the set. */
  lemma CancelMarkConsumed(cancelled: set<string>, requestId: string, outcome: Outcome)
    ensures requestId !in CancelledAfter(cancelled, requestId, outcome) <==>
      requestId !in cancelled || outcome.Aborted?
    ensures forall x :: x != requestId ==> (x in CancelledAfter(cancelled, requestId, outcome) <==> x in cancelled)
  {
  }

  // ---------------------------------------------------------------------------
  // The hook's state

  /** The part of an `AbortController` the hook relies on: its identity, and `abort`. */
  class AbortController {
    var aborted: bool

    constructor()
      ensures !aborted
    {
      aborted := false;
    }

    method Abort()
      modifies this
      ensures aborted
    {
      aborted := true;
    }
  }

  class ProofreadSession {
    var inputText: string
    var proofreadResult: string
    var proofreadSummary: string
    /** `proofreadDetails`, kept as the `details` text it is parsed from; `Details()`
        is the parsed value. */
    var detailsText: Option<string>
    var loading: bool
    /** `cancelledRequestIds`. */
    var cancelled: set<string>
    /** `controllerToRequestId`. */
    var requestIds: map<AbortController, string>
    /** `abortController.current`. */
    var active: AbortController?
    /** The notification store the hook reports to. */
    const notices: Notifications.NotificationStore

    /** `proofreadDetails`: `parseProofreadDetails` of the shown response's details. */
    function Details(): Option<ProofreadDetails>
      reads this
    {
      if detailsText.Some? then Some(ParseProofreadDetails(detailsText.value)) else None
    }

    /** While a controller is active its request id is recorded, and the hook is
        loading only while some controller is active. */
    predicate Valid()
      reads this
    {
      (active != null ==> active in requestIds) && (loading ==> active != null)
    }

    constructor(notices: Notifications.NotificationStore)
      ensures this.notices == notices
      ensures inputText == "" && proofreadResult == "" && proofreadSummary == "" && detailsText == None
      ensures !loading && cancelled == {} && requestIds == map[] && active == null
      ensures Valid()
    {
      this.notices := notices;
      inputText := "";
      proofreadResult := "";
      proofreadSummary := "";
      detailsText := None;
      loading := false;
      cancelled := {};
      requestIds := map[];
      active := null;
    }

    method SetInputText(text: string)
      modifies this
      ensures inputText == text
      ensures proofreadResult == old(proofreadResult) && proofreadSummary == old(proofreadSummary)
      ensures detailsText == old(detailsText) && loading == old(loading)
      ensures cancelled == old(cancelled) && requestIds == old(requestIds) && active == old(active)
      ensures Valid() == old(Valid())
    {
      inputText := text;
    }

    /** `runProofread` up to the request: nothing unless the input is `Ok`; then the
        previous result is cleared, a fresh controller is recorded under `requestId`
        and made active, loading starts, and the request body is built from the
        input and the current settings. */
    method Start(requestId: string, settings: SettingsStore.Store) returns (c: AbortController?, body: Option<Json>)
      modifies this
      ensures inputText == old(inputText)
      ensures Classify(inputText) != Ok ==> c == null && body == None && unchanged(this)
      ensures Classify(inputText) == Ok ==>
        && c != null && fresh(c) && !c.aborted
        && body == Some(RequestJson(inputText, settings.style, settings.level))
        && proofreadResult == "" && proofreadSummary == "" && detailsText == None
        && requestIds == old(requestIds)[c := requestId] && active == c && loading
        && cancelled == old(cancelled)
      ensures Classify(inputText) == Ok ==> Valid()
      ensures old(Valid()) ==> Valid()
    {
      var state := Classify(inputText);
      if state != Ok {
        return null, None;
      }
      proofreadResult := "";
      proofreadSummary := "";
      detailsText := None;
      c := new AbortController();
      requestIds := requestIds[c := requestId];
      active := c;
      loading := true;
      body := Some(RequestJson(inputText, settings.style, settings.level));
    }

    /** The three result setters after a response passed the schema. */
    method Show(data: ProofreadResponse)
      modifies this
      ensures proofreadResult == data.correctedText && proofreadSummary == data.summary
      ensures detailsText == Some(data.details)
      ensures inputText == old(inputText) && loading == old(loading) && cancelled == old(cancelled)
      ensures requestIds == old(requestIds) && active == old(active)
    {
      proofreadResult := data.correctedText;
      proofreadSummary := data.summary;
      detailsText := Some(data.details);
    }

    /** The end of the `try` block and the `catch` block of `runProofread` for the
        request with id `requestId`: a response that passes the schema is shown, an
        abort of a cancelled request consumes its mark, and every other outcome
        raises its error notice under `noticeId`. */
    method Settle(requestId: string, outcome: Outcome, noticeId: string)
      modifies this, notices
      ensures var data := if outcome.Received? then ResponseSchema(outcome.body) else None;
        && (data.Some? ==>
              && proofreadResult == data.value.correctedText && proofreadSummary == data.value.summary
              && detailsText == Some(data.value.details))
        && (data.None? ==>
              && proofreadResult == old(proofreadResult) && proofreadSummary == old(proofreadSummary)
              && detailsText == old(detailsText))
      ensures var notice := ErrorNotice(outcome, requestId in old(cancelled));
        notices.notifications == old(notices.notifications) +
          (if notice.Some? then [Notifications.Notification(noticeId, Notifications.Error, notice.value, Notifications.DefaultDuration)] else [])
      ensures var notice := ErrorNotice(outcome, requestId in old(cancelled));
        notices.timers == old(notices.timers) +
          (if notice.Some? then [Notifications.Timer(noticeId, Notifications.DefaultDuration)] else [])
      ensures cancelled == CancelledAfter(old(cancelled), requestId, outcome)
      ensures inputText == old(inputText) && loading == old(loading)
      ensures requestIds == old(requestIds) && active == old(active)
    {
      var notice := None;
      match outcome {
        case HttpFailure(e) =>
          notice := Some(if e.Some? && e.value != "" then e.value else RequestFailed);
        case Received(json) =>
          var validated := ResponseSchema(json);
          if validated.Some? {
            Show(validated.value);
          } else {
            notice := Some(MalformedResponse);
          }
        case Aborted =>
          if requestId in cancelled {
            cancelled := cancelled - {requestId};
          } else {
            notice := Some(CancelledMessage);
          }
        case Thrown(message) =>
          notice := Some(message);
        case NonErrorThrown =>
          notice := Some(UnexpectedError);
      }
      if notice.Some? {
        var _ := Notifications.NotifyError(notices, notice.value, None, noticeId);
      }
    }

    /** The `finally` block of `runProofread` for the request with controller `c`:
        loading stops, the mapping of `c` is dropped, and the active controller is
        cleared only if it is still `c`. */
    method Release(c: AbortController)
      modifies this
      ensures !loading
      ensures requestIds == old(requestIds) - {c}
      ensures active == (if old(active) == c then null else old(active))
      ensures inputText == old(inputText) && cancelled == old(cancelled)
      ensures proofreadResult == old(proofreadResult) && proofreadSummary == old(proofreadSummary)
      ensures detailsText == old(detailsText)
      ensures old(Valid()) ==> Valid()
    {
      loading := false;
      if active == c {
        active := null;
      }
      requestIds := requestIds - {c};
    }

    /** `cancelProofread`: a no-op without an active controller; otherwise the active
        request's id (when recorded and non-empty) is marked cancelled and unmapped,
        the controller is aborted and cleared, loading stops, and an info notice is
        raised under `noticeId`. */
    method Cancel(noticeId: string)
      modifies this, active, notices
      ensures old(active) == null ==> unchanged(this) && unchanged(notices)
      ensures old(active) != null ==>
        var c := old(active);
        var marked := c in old(requestIds) && old(requestIds)[c] != "";
        && c.aborted
        && cancelled == (if marked then old(cancelled) + {old(requestIds)[c]} else old(cancelled))
        && requestIds == (if marked then old(requestIds) - {c} else old(requestIds))
        && active == null && !loading
        && notices.notifications == old(notices.notifications) +
             [Notifications.Notification(noticeId, Notifications.Info, CancelledMessage, Notifications.DefaultDuration)]
        && notices.timers == old(notices.timers) + [Notifications.Timer(noticeId, Notifications.DefaultDuration)]
      ensures inputText == old(inputText) && proofreadResult == old(proofreadResult)
      ensures proofreadSummary == old(proofreadSummary) && detailsText == old(detailsText)
      ensures old(Valid()) ==> Valid()
    {
      var controller := active;
      if controller == null {
        return;
      }
      if controller in requestIds && requestIds[controller] != "" {
        cancelled := cancelled + {requestIds[controller]};
        requestIds := requestIds - {controller};
      }
      controller.Abort();
      loading := false;
      active := null;
      var _ := Notifications.NotifyInfo(notices, CancelledMessage, None, noticeId);
    }
  }

  /** A request that is cancelled and then settles by its abort raises only the
      cancel notice, and leaves neither a cancel mark nor a mapping behind. */
  method CancelThenAbort(session: ProofreadSession, settings: SettingsStore.Store,
                         requestId: string, cancelId: string, errorId: string)
    requires session.Valid() && Classify(session.inputText) == Ok
    requires requestId != "" && requestId !in session.cancelled
    modifies session, session.notices
    ensures session.cancelled == old(session.cancelled)
    ensures session.requestIds.Keys == old(session.requestIds.Keys)
    ensures session.active == null && !session.loading
    ensures session.notices.notifications == old(session.notices.notifications) +
      [Notifications.Notification(cancelId, Notifications.Info, CancelledMessage, Notifications.DefaultDuration)]
    ensures session.notices.timers == old(session.notices.timers) + [Notifications.Timer(cancelId, Notifications.DefaultDuration)]
  {
    var c, _ := session.Start(requestId, settings);
    session.Cancel(cancelId);
    session.Settle(requestId, Aborted, errorId);
    session.Release(c);
  }
}
