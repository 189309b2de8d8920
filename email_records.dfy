/**
 * Turning the backend's loosely shaped email records into the inbox's
 * canonical records, the search and tone filter over them, and the
 * complaint-ratio flags the inbox header derives from them.
 */
module EmailRecords {
  import opened Wrappers
  import opened JsValues
  import opened Text
  import opened Lists
  import opened Tones

  /** An email id as the backend supplies it: a string or a number. */
  datatype EmailId = StrId(s: string) | NumId(n: int)

  /** Truthiness of an id: the empty string and the number 0 are falsy. */
  predicate IdTruthy(id: EmailId) {
    match id
    case StrId(s) => s != ""
    case NumId(n) => n != 0
  }

  /** An email record as the backend returns it: every attribute may arrive under one of several names, or be missing. */
  datatype RawEmail = RawEmail(
    id: Option<EmailId>, messageId: Option<EmailId>, uid: Option<EmailId>,
    from: Option<string>, sender: Option<string>, emailAddress: Option<string>, fromAddress: Option<string>,
    subject: Option<string>,
    body: Option<string>, snippet: Option<string>, preview: Option<string>, text: Option<string>, content: Option<string>,
    timestamp: Option<string>, date: Option<string>, receivedAt: Option<string>, sentDate: Option<string>,
    tone: Option<string>, toneCategory: Option<string>, sentiment: Option<string>,
    campaign: Option<string>, folder: Option<string>)

  /** A record with no attribute at all. */
  const EmptyRaw := RawEmail(None, None, None, None, None, None, None, None, None, None, None, None, None,
                             None, None, None, None, None, None, None, None, None)

  /** The canonical record the inbox shows. */
  datatype Email = Email(id: EmailId, from: string, subject: string, preview: string,
                         timestamp: string, tone: string, campaign: string)

  const UnknownSender := "unknown@example.com"
  const NoSubject := "(No Subject)"
  const DefaultCampaign := "Inbox"

  /** The tone label the backend supplied, under any of its three names (`tone || tone_category || sentiment`). */
  function SuppliedTone(e: RawEmail): Option<string> {
    FirstTruthy([e.tone, e.toneCategory, e.sentiment], NonEmpty)
  }

  /** The tone of a record: its supplied label, normalised, or else the one its subject and body suggest. */
  function EmailTone(e: RawEmail): (r: string)
    ensures r in ValidTones
  {
    var supplied := SuppliedTone(e);
    if supplied.Some? then NormalizeTone(supplied)
    else DetectToneFromContent(Or([e.subject], ""), Or([e.body, e.snippet], ""))
  }

  /** The supplied label is the first present of `tone`, `tone_category` and `sentiment`. */
  lemma SuppliedToneOrder(e: RawEmail)
    ensures Present(e.tone) ==> SuppliedTone(e) == e.tone
    ensures !Present(e.tone) && Present(e.toneCategory) ==> SuppliedTone(e) == e.toneCategory
    ensures !Present(e.tone) && !Present(e.toneCategory) && Present(e.sentiment) ==> SuppliedTone(e) == e.sentiment
    ensures !Present(e.tone) && !Present(e.toneCategory) && !Present(e.sentiment) ==> SuppliedTone(e).None?
  {
    var alts := [e.tone, e.toneCategory, e.sentiment];
    assert HoldsAt(alts, NonEmpty, 0) <==> Present(e.tone);
    assert HoldsAt(alts, NonEmpty, 1) <==> Present(e.toneCategory);
    assert HoldsAt(alts, NonEmpty, 2) <==> Present(e.sentiment);
  }

  /** The id of the record at position `index`: the first truthy of `id`, `message_id` and `uid`, else `index + 1`. */
  function EmailIdOf(e: RawEmail, index: nat): (r: EmailId)
    ensures IdTruthy(r)
  {
    FirstTruthy([e.id, e.messageId, e.uid], IdTruthy).GetOr(NumId(index + 1))
  }

  /**
   * The canonical form of the record at position `index`; `now` stands for
   * the current time, used when the record carries no timestamp.
   */
  function FormatEmail(e: RawEmail, index: nat, now: string): (r: Email)
    ensures r.tone in ValidTones
    ensures r.from != "" && r.subject != "" && r.campaign != ""
    ensures IdTruthy(r.id)
  {
    OrNonEmpty([e.from, e.sender, e.emailAddress, e.fromAddress], UnknownSender);
    OrNonEmpty([e.subject], NoSubject);
    OrNonEmpty([e.campaign, e.folder], DefaultCampaign);
    Email(
      id := EmailIdOf(e, index),
      from := Or([e.from, e.sender, e.emailAddress, e.fromAddress], UnknownSender),
      subject := Or([e.subject], NoSubject),
      preview := Or([e.body, e.snippet, e.preview, e.text, e.content], ""),
      timestamp := Or([e.timestamp, e.date, e.receivedAt, e.sentDate], now),
      tone := EmailTone(e),
      campaign := Or([e.campaign, e.folder], DefaultCampaign))
  }

  /**
   * The tone of a formatted record: a supplied label wins, in the order
   * `tone`, `tone_category`, `sentiment`, and is normalised; the keyword
   * classifier runs only when all three are falsy, on the subject and on the
   * body (or else the snippet).
   */
  lemma FormatEmailTone(e: RawEmail, index: nat, now: string)
    ensures Present(e.tone) ==> FormatEmail(e, index, now).tone == NormalizeTone(e.tone)
    ensures !Present(e.tone) && Present(e.toneCategory) ==> FormatEmail(e, index, now).tone == NormalizeTone(e.toneCategory)
    ensures !Present(e.tone) && !Present(e.toneCategory) && Present(e.sentiment) ==>
              FormatEmail(e, index, now).tone == NormalizeTone(e.sentiment)
    ensures !Present(e.tone) && !Present(e.toneCategory) && !Present(e.sentiment) ==>
              FormatEmail(e, index, now).tone == DetectToneFromContent(Or([e.subject], ""), Or([e.body, e.snippet], ""))
  {
    assert FormatEmail(e, index, now).tone == EmailTone(e);
    SuppliedToneOrder(e);
  }

  /**
   * The id of a formatted record is the first truthy of `id`, `message_id`
   * and `uid`, else the position plus one; an id of 0 or "" counts as missing.
   */
  lemma FormatEmailId(e: RawEmail, index: nat, now: string)
    ensures IdGiven(e.id) ==> FormatEmail(e, index, now).id == e.id.value
    ensures !IdGiven(e.id) && IdGiven(e.messageId) ==> FormatEmail(e, index, now).id == e.messageId.value
    ensures !IdGiven(e.id) && !IdGiven(e.messageId) && IdGiven(e.uid) ==> FormatEmail(e, index, now).id == e.uid.value
    ensures !IdGiven(e.id) && !IdGiven(e.messageId) && !IdGiven(e.uid) ==> FormatEmail(e, index, now).id == NumId(index + 1)
  {
    assert FormatEmail(e, index, now).id == EmailIdOf(e, index);
    var alts := [e.id, e.messageId, e.uid];
    assert HoldsAt(alts, IdTruthy, 0) <==> IdGiven(e.id);
    assert HoldsAt(alts, IdTruthy, 1) <==> IdGiven(e.messageId);
    assert HoldsAt(alts, IdTruthy, 2) <==> IdGiven(e.uid);
  }

  /** An id attribute that is present and truthy. */
  predicate IdGiven(id: Option<EmailId>) {
    id.Some? && IdTruthy(id.value)
  }

  /** A record without tone fields whose subject names a failure is a complaint. */
  lemma FormatEmailDetectsComplaint(now: string)
    ensures FormatEmail(EmptyRaw.(subject := Some("Product not working")), 0, now).tone == ComplaintTone
  {
    var e := EmptyRaw.(subject := Some("Product not working"));
    assert FormatEmail(e, 0, now).tone == EmailTone(e);
    SuppliedToneOrder(e);
    OrFirstPresent([e.subject], "", 0);
    OrAllAbsent([e.body, e.snippet], "");
    DetectComplaintExample();
  }

  /** A record without tone fields whose subject says thanks is an appreciation. */
  lemma FormatEmailDetectsAppreciation(now: string)
    ensures FormatEmail(EmptyRaw.(subject := Some("Thank you so much")), 0, now).tone == AppreciationTone
  {
    var e := EmptyRaw.(subject := Some("Thank you so much"));
    assert FormatEmail(e, 0, now).tone == EmailTone(e);
    SuppliedToneOrder(e);
    OrFirstPresent([e.subject], "", 0);
    OrAllAbsent([e.body, e.snippet], "");
    DetectAppreciationExample();
  }

  /** The value found under one key of the backend's response. */
  datatype Listing =
    | Absent                    // the key is missing
    | Records(items: seq<RawEmail>)
    | NotAList(truthy: bool)    // a string, number, boolean, object or null

  /** Arrays are truthy even when empty. */
  predicate ListingTruthy(v: Listing) {
    v.Records? || (v.NotAList? && v.truthy)
  }

  /**
   * Formats a listing: a missing or non-array value gives no records;
   * otherwise one record per input, in input order, record `i` depending
   * only on input `i` and on `i`.
   */
  function FormatEmailData(v: Listing, now: string): (r: seq<Email>)
    ensures !v.Records? ==> r == []
    ensures v.Records? ==> |r| == |v.items|
    ensures v.Records? ==> forall i :: 0 <= i < |r| ==> r[i] == FormatEmail(v.items[i], i, now)
  {
    match v
    case Records(items) => seq(|items|, i requires 0 <= i < |items| => FormatEmail(items[i], i, now))
    case _ => []
  }

  /** A response of the email-retrieval call: an object with list-bearing keys, or a bare array. */
  datatype Response =
    | ResponseObject(emails: Listing, data: Listing, messages: Listing)
    | ResponseArray(items: seq<RawEmail>)

  /** The list of emails in a response: under `emails`, then `data`, then the response itself if it is an array, then `messages`, otherwise empty. */
  function EmailsList(resp: Response): (r: Listing)
    ensures resp.ResponseArray? ==> r == Records(resp.items)
    ensures resp.ResponseObject? && ListingTruthy(resp.emails) ==> r == resp.emails
    ensures resp.ResponseObject? && !ListingTruthy(resp.emails) && ListingTruthy(resp.data) ==> r == resp.data
    ensures resp.ResponseObject? && !ListingTruthy(resp.emails) && !ListingTruthy(resp.data) && ListingTruthy(resp.messages) ==>
              r == resp.messages
    ensures resp.ResponseObject? && !ListingTruthy(resp.emails) && !ListingTruthy(resp.data) && !ListingTruthy(resp.messages) ==>
              r == Records([])
  {
    match resp
    case ResponseArray(items) => Records(items)
    case ResponseObject(emails, data, messages) =>
      if ListingTruthy(emails) then emails
      else if ListingTruthy(data) then data
      else if ListingTruthy(messages) then messages
      else Records([])
  }

  /**
   * Only the first truthy key counts: a truthy value that is not an array
   * under `emails` hides the records under `data` and `messages`, and the
   * inbox comes out empty.
   */
  lemma FirstTruthyKeyShadows(data: Listing, messages: Listing, now: string)
    ensures FormatEmailData(EmailsList(ResponseObject(NotAList(true), data, messages)), now) == []
  {
  }

  /** The search and tone filter: the query occurs in the sender, subject or preview (ignoring case), and the tone filter is `all` or the tone. */
  predicate Matches(e: Email, query: string, toneFilter: string) {
    (Includes(Lower(e.from), Lower(query)) || Includes(Lower(e.subject), Lower(query)) || Includes(Lower(e.preview), Lower(query)))
    && (toneFilter == "all" || e.tone == toneFilter)
  }

  /**
   * The emails on show: an order-preserving subsequence of `emails` that
   * holds exactly the matching ones, each as often as `emails` does; an
   * empty query with the `all` filter shows everything.
   */
  function FilteredEmails(emails: seq<Email>, query: string, toneFilter: string): (r: seq<Email>)
    ensures IsSubsequence(r, emails)
    ensures forall i :: 0 <= i < |r| ==> Matches(r[i], query, toneFilter)
    ensures forall e :: multiset(r)[e] == if Matches(e, query, toneFilter) then multiset(emails)[e] else 0
    ensures query == "" && toneFilter == "all" ==> r == emails
  {
    var keep := (e: Email) => Matches(e, query, toneFilter);
    FilterSpec(emails, keep);
    if query == "" && toneFilter == "all" then
      EmptyQueryMatchesAll(emails);
      FilterKeepsAll(emails, keep);
      Filter(emails, keep)
    else
      Filter(emails, keep)
  }

  /** The empty string occurs in every sender, so an empty query with the `all` filter matches every email. */
  lemma EmptyQueryMatchesAll(emails: seq<Email>)
    ensures forall i :: 0 <= i < |emails| ==> Matches(emails[i], "", "all")
  {
    forall i | 0 <= i < |emails| ensures Matches(emails[i], "", "all") {
      assert OccursAt(Lower(emails[i].from), Lower(""), 0);
    }
  }

  /** The number of complaints among `emails` (`emails.filter(e => e.tone === '#Complaint').length`). */
  function ComplaintCount(emails: seq<Email>): (c: nat)
    ensures c <= |emails|
  {
    |Filter(emails, (e: Email) => e.tone == ComplaintTone)|
  }

  /** The three complaint-ratio flags of the inbox header. */
  datatype ComplaintFlags = ComplaintFlags(high: bool, medium: bool, low: bool) {
    predicate Shown() { high || medium || low }
  }

  /** The complaint percentage `c / t * 100` (0 when `t` is 0) is at least `p`, decided exactly. */
  predicate PercentAtLeast(c: nat, t: nat, p: nat) {
    if t > 0 then 100 * c >= p * t else 0 >= p
  }

  /** The complaint percentage is at most `p`. */
  predicate PercentAtMost(c: nat, t: nat, p: nat) {
    if t > 0 then 100 * c <= p * t else 0 <= p
  }

  /**
   * The flags: high for a percentage in [75, 100], medium in [50, 75), low
   * in [25, 50). They exclude each other, are all off without emails, and
   * some flag is on exactly when at least a quarter of the emails are
   * complaints.
   */
  function ComplaintRatioFlags(emails: seq<Email>): (r: ComplaintFlags)
    ensures !(r.high && r.medium) && !(r.high && r.low) && !(r.medium && r.low)
    ensures emails == [] ==> !r.Shown()
    ensures r.high <==> |emails| > 0 && 4 * ComplaintCount(emails) >= 3 * |emails|
    ensures r.medium <==> |emails| > 0 && 2 * ComplaintCount(emails) >= |emails| && 4 * ComplaintCount(emails) < 3 * |emails|
    ensures r.low <==> |emails| > 0 && 4 * ComplaintCount(emails) >= |emails| && 2 * ComplaintCount(emails) < |emails|
    ensures r.Shown() <==> |emails| > 0 && 4 * ComplaintCount(emails) >= |emails|
  {
    var c, t := ComplaintCount(emails), |emails|;
    ComplaintFlags(
      high := PercentAtLeast(c, t, 75) && PercentAtMost(c, t, 100),
      medium := PercentAtLeast(c, t, 50) && !PercentAtLeast(c, t, 75),
      low := PercentAtLeast(c, t, 25) && !PercentAtLeast(c, t, 50))
  }
}
