/**
 * The state of the "Respond to Emails" page: the fetched inbox, the search
 * box and tone filter, and the complaint modal with its AI-generated reply.
 * Each handler is a method that updates the page's fields the way the
 * component's state setters do; the awaited network result a handler would
 * receive is passed in as a parameter.
 */
module ComplaintInbox {
  import opened Wrappers
  import opened JsValues
  import opened Tones
  import opened EmailRecords
  import Api

  /** The retrieval settings the page keeps (`emailConfig`). */
  datatype EmailConfig = EmailConfig(
    emailAddress: string, password: string, imapServer: string, imapPort: int,
    folder: string, limit: int, unreadOnly: bool, useGmailApi: bool)

  const InitialConfig := EmailConfig("", "", "imap.gmail.com", 993, "INBOX", 50, true, false)

  const ConfigureFirst := "Please configure email settings first"
  const FetchFailedMessage := "Failed to fetch emails. Please check your email configuration."

  /** The guard `fetchEmails` applies before a real request. */
  predicate ConfigReady(c: EmailConfig) {
    c.emailAddress != "" && (c.password != "" || c.useGmailApi)
  }

  /** The options object the page hands to `retrieveEmails`: every configured field, nothing else. */
  function RetrieveRequest(c: EmailConfig): (o: Api.RetrieveOptions)
    ensures o.emailAddress == Some(c.emailAddress) && o.password == Some(c.password)
    ensures o.imapServer == Some(c.imapServer) && o.imapPort == Some(c.imapPort)
    ensures o.folder == Some(c.folder) && o.unreadOnly == Some(c.unreadOnly)
    ensures o.useGmailApi == Some(c.useGmailApi) && o.limit == Some(c.limit)
    ensures o.agentId.None? && o.gmailCredentialsPath.None? && o.gmailTokenPath.None?
  {
    Api.RetrieveOptions(Some(c.emailAddress), Some(c.password), Some(c.imapServer), Some(c.imapPort),
                        Some(c.folder), Some(c.limit), Some(c.unreadOnly), None, Some(c.useGmailApi), None, None)
  }

  /** The page's guard and the client's validation agree: a request the guard lets through is never refused. */
  lemma ConfigGuardMatchesApi(c: EmailConfig)
    ensures ConfigReady(c) <==> Api.RetrieveAccepts(RetrieveRequest(c))
  {
  }

  /** The message a failed retrieval reports: its own when it has one, else the default text. */
  function FailureMessage(message: Option<string>): (r: string)
    ensures r != ""
    ensures Present(message) ==> r == message.value
    ensures !Present(message) ==> r == FetchFailedMessage
  {
    if Present(message) then message.value else FetchFailedMessage
  }

  /**
   * A failed retrieval whose error body is `null` shows the `TypeError`'s
   * own text, not the default message: that text is truthy.
   */
  lemma NullBodyMessageShown(status: nat)
    ensures Api.ApiCallResult(false, status, Some(JNull)).Failure?
    ensures FailureMessage(Some(Api.ReportedMessage(Api.ApiCallResult(false, status, Some(JNull)).error)))
            == Api.NullBodyTypeErrorText
  {
  }

  /** The awaited outcome of a retrieval: the response, or an error with its (possibly undefined) message. */
  datatype FetchOutcome = Fetched(response: Response) | FetchFailed(message: Option<string>)

  /** The awaited outcome of `resolveEmailComplaint`: the `resolution` field of the response, or an error message. */
  datatype ResolveOutcome = Resolved(resolution: Option<Json>) | Rejected(message: Option<string>)

  /** The body of the complaint-resolution request for a selected email. */
  function ComplaintRequest(e: Email): (r: JsonObject)
    ensures r.Keys == {"email_content", "customer_info", "agentId"}
    ensures r["email_content"] == JStr(e.preview)
    ensures r["customer_info"] == JObj(map["email" := JStr(e.from), "subject" := JStr(e.subject)])
    ensures r["agentId"] == JStr(Api.DefaultAgentId)
  {
    // A formatted email has no `body`, so `preview || body || ''` is the preview.
    Api.ResolveComplaintBody(e.preview, Some(JObj(map["email" := JStr(e.from), "subject" := JStr(e.subject)])),
                             Some(Api.DefaultAgentId))
  }

  class InboxPage {
    var emails: seq<Email>
    var loading: bool
    var error: Option<string>
    var searchQuery: string
    var toneFilter: string
    var selectedEmail: Option<Email>
    var showComplaintModal: bool
    var aiResponse: Option<Json>
    var loadingResponse: bool
    var responseError: Option<string>
    var emailConfig: EmailConfig

    /** The modal is open exactly when an email is selected, and only complaints are ever selected. */
    predicate Valid()
      reads this
    {
      (showComplaintModal <==> selectedEmail.Some?) &&
      (selectedEmail.Some? ==> selectedEmail.value.tone == ComplaintTone)
    }

    constructor ()
      ensures Valid()
      ensures emails == [] && !loading && error.None? && searchQuery == "" && toneFilter == "all"
      ensures selectedEmail.None? && !showComplaintModal && aiResponse.None? && !loadingResponse && responseError.None?
      ensures emailConfig == InitialConfig
    {
      emails := [];
      loading := false;
      error := None;
      searchQuery := "";
      toneFilter := "all";
      selectedEmail := None;
      showComplaintModal := false;
      aiResponse := None;
      loadingResponse := false;
      responseError := None;
      emailConfig := InitialConfig;
    }

    /** The emails listed under the current search and tone filter. */
    function Visible(): (r: seq<Email>)
      reads this
      ensures |r| <= |emails|
      ensures forall i :: 0 <= i < |r| ==> Matches(r[i], searchQuery, toneFilter)
    {
      FilteredEmails(emails, searchQuery, toneFilter)
    }

    /** Which complaint-ratio banner is shown. */
    function Banner(): (r: ComplaintFlags)
      reads this
      ensures r.Shown() ==> |emails| > 0
    {
      ComplaintRatioFlags(emails)
    }

    /** Saves edited retrieval settings (the configuration form). */
    method EditConfig(c: EmailConfig)
      modifies this
      ensures emailConfig == c
      ensures emails == old(emails) && error == old(error) && loading == old(loading)
      ensures selectedEmail == old(selectedEmail) && showComplaintModal == old(showComplaintModal)
      ensures aiResponse == old(aiResponse) && responseError == old(responseError) && loadingResponse == old(loadingResponse)
      ensures searchQuery == old(searchQuery) && toneFilter == old(toneFilter)
    {
      emailConfig := c;
    }

    /**
     * `fetchEmails`. Outside mock mode an incomplete configuration only sets
     * the "configure first" error. Otherwise the error is cleared and, once
     * the retrieval settles, the inbox is replaced by the formatted list the
     * response carries, or the error is set to the failure's message (or a
     * default text when it has none); loading ends either way.
     */
    method FetchEmails(useMockApi: bool, outcome: FetchOutcome, now: string)
      modifies this
      ensures !useMockApi && !ConfigReady(old(emailConfig)) ==>
                error == Some(ConfigureFirst) && emails == old(emails) && loading == old(loading)
      ensures (useMockApi || ConfigReady(old(emailConfig))) ==> !loading
      ensures (useMockApi || ConfigReady(old(emailConfig))) && outcome.Fetched? ==>
                emails == FormatEmailData(EmailsList(outcome.response), now) && error.None?
      ensures (useMockApi || ConfigReady(old(emailConfig))) && outcome.FetchFailed? ==>
                emails == old(emails) &&
                error == Some(FailureMessage(outcome.message))
      ensures error.Some? ==> error.value != ""
      ensures emailConfig == old(emailConfig) && searchQuery == old(searchQuery) && toneFilter == old(toneFilter)
      ensures selectedEmail == old(selectedEmail) && showComplaintModal == old(showComplaintModal)
      ensures aiResponse == old(aiResponse) && responseError == old(responseError) && loadingResponse == old(loadingResponse)
      ensures old(Valid()) ==> Valid()
    {
      if !useMockApi {
        if !ConfigReady(emailConfig) {
          error := Some(ConfigureFirst);
          return;
        }
      }
      loading := true;
      error := None;
      match outcome {
        case Fetched(response) =>
          var formatted := FormatEmailData(EmailsList(response), now);
          emails := formatted;
        case FetchFailed(message) =>
          error := Some(FailureMessage(message));
      }
      loading := false;
    }

    /** `handleEmailClick`: a complaint opens the modal with a fresh reply state; any other email is ignored. */
    method HandleEmailClick(email: Email)
      modifies this
      ensures email.tone != ComplaintTone ==>
                selectedEmail == old(selectedEmail) && showComplaintModal == old(showComplaintModal) &&
                aiResponse == old(aiResponse) && responseError == old(responseError)
      ensures email.tone == ComplaintTone ==>
                selectedEmail == Some(email) && showComplaintModal && aiResponse.None? && responseError.None?
      ensures emails == old(emails) && loading == old(loading) && error == old(error) && loadingResponse == old(loadingResponse)
      ensures searchQuery == old(searchQuery) && toneFilter == old(toneFilter) && emailConfig == old(emailConfig)
      ensures old(Valid()) ==> Valid()
    {
      if email.tone == ComplaintTone {
        selectedEmail := Some(email);
        showComplaintModal := true;
        aiResponse := None;
        responseError := None;
      }
    }

    /** `closeComplaintModal`: closes the modal and forgets the selection, the reply and its error. */
    method CloseComplaintModal()
      modifies this
      ensures !showComplaintModal && selectedEmail.None? && aiResponse.None? && responseError.None?
      ensures emails == old(emails) && loading == old(loading) && error == old(error) && loadingResponse == old(loadingResponse)
      ensures searchQuery == old(searchQuery) && toneFilter == old(toneFilter) && emailConfig == old(emailConfig)
      ensures Valid()
    {
      showComplaintModal := false;
      selectedEmail := None;
      aiResponse := None;
      responseError := None;
    }

    /** The modal's Regenerate button: clears the reply and its error, leaving the modal open on the same email. */
    method Regenerate()
      modifies this
      ensures aiResponse.None? && responseError.None?
      ensures selectedEmail == old(selectedEmail) && showComplaintModal == old(showComplaintModal)
      ensures loadingResponse == old(loadingResponse)
      ensures emails == old(emails) && loading == old(loading) && error == old(error)
      ensures searchQuery == old(searchQuery) && toneFilter == old(toneFilter) && emailConfig == old(emailConfig)
      ensures old(Valid()) ==> Valid()
    {
      aiResponse := None;
      responseError := None;
    }

    /**
     * `handleGenerateResponse`. Without a selected email nothing happens and
     * no request is made. Otherwise the request for the selected email is
     * returned, and once it settles the reply holds the response's
     * `resolution` or the error holds the failure's message.
     */
    method HandleGenerateResponse(outcome: ResolveOutcome) returns (request: Option<JsonObject>)
      modifies this
      ensures old(selectedEmail).None? ==>
                request.None? && aiResponse == old(aiResponse) && responseError == old(responseError) &&
                loadingResponse == old(loadingResponse)
      ensures old(selectedEmail).Some? ==>
                request == Some(ComplaintRequest(old(selectedEmail).value)) && !loadingResponse
      ensures old(selectedEmail).Some? && outcome.Resolved? ==> aiResponse == outcome.resolution && responseError.None?
      ensures old(selectedEmail).Some? && outcome.Rejected? ==> aiResponse.None? && responseError == outcome.message
      ensures selectedEmail == old(selectedEmail) && showComplaintModal == old(showComplaintModal)
      ensures emails == old(emails) && loading == old(loading) && error == old(error)
      ensures searchQuery == old(searchQuery) && toneFilter == old(toneFilter) && emailConfig == old(emailConfig)
      ensures old(Valid()) ==> Valid()
    {
      if selectedEmail.None? {
        return None;
      }
      loadingResponse := true;
      responseError := None;
      aiResponse := None;
      request := Some(ComplaintRequest(selectedEmail.value));
      match outcome {
        case Resolved(resolution) =>
          aiResponse := resolution;
        case Rejected(message) =>
          responseError := message;
      }
      loadingResponse := false;
    }
  }
}
