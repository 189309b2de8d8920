/**
 * The campaigns page: the built-in campaign table, its search and status
 * filter, the progress shown per campaign, and the lead-enrichment panel.
 */
module Campaigns {
  import opened Wrappers
  import opened JsValues
  import opened Text
  import opened Lists
  import Api

  datatype Campaign = Campaign(
    id: nat, name: string, kind: string, status: string,
    prospects: nat, contacted: nat, responses: nat, meetings: nat,
    channels: seq<string>, startDate: string)

  /** The campaign table the page renders (`campaignsData`). */
  const CampaignsData: seq<Campaign> := [
    Campaign(1, "Q4 Enterprise Outreach", "Multi-channel", "active", 1250, 890, 234, 45,
             ["email", "linkedin", "phone"], "Oct 15, 2024"),
    Campaign(2, "SaaS Decision Makers", "Email Sequence", "active", 2500, 1820, 456, 78,
             ["email"], "Nov 1, 2024"),
    Campaign(3, "Healthcare Industry Push", "LinkedIn Outreach", "paused", 800, 420, 89, 12,
             ["linkedin"], "Sep 20, 2024"),
    Campaign(4, "Startup Founders Series", "Cold Call Campaign", "active", 350, 280, 95, 32,
             ["phone", "email"], "Nov 10, 2024"),
    Campaign(5, "Retail Expansion 2025", "Multi-channel", "draft", 1800, 0, 0, 0,
             ["email", "linkedin", "phone"], "Not started"),
    Campaign(6, "FinTech C-Suite", "Email Sequence", "active", 450, 380, 112, 28,
             ["email", "linkedin"], "Oct 28, 2024")
  ]

  // ---------------------------------------------------------------- filter

  /** A campaign matches when its name contains the query (ignoring case) and the status filter is `all` or its status. */
  predicate CampaignMatches(c: Campaign, query: string, statusFilter: string) {
    Includes(Lower(c.name), Lower(query)) && (statusFilter == "all" || c.status == statusFilter)
  }

  /**
   * The campaigns on show: an order-preserving subsequence holding exactly
   * the matching campaigns, each as often as the input holds it.
   */
  function FilteredCampaigns(campaigns: seq<Campaign>, query: string, statusFilter: string): (r: seq<Campaign>)
    ensures IsSubsequence(r, campaigns)
    ensures forall i :: 0 <= i < |r| ==> CampaignMatches(r[i], query, statusFilter)
    ensures forall c :: multiset(r)[c] == if CampaignMatches(c, query, statusFilter) then multiset(campaigns)[c] else 0
  {
    var keep := (c: Campaign) => CampaignMatches(c, query, statusFilter);
    FilterSpec(campaigns, keep);
    Filter(campaigns, keep)
  }

  /** With an empty query the status filter alone decides. */
  lemma EmptyQueryMatchesName(c: Campaign, statusFilter: string)
    ensures CampaignMatches(c, "", statusFilter) <==> (statusFilter == "all" || c.status == statusFilter)
  {
    assert OccursAt(Lower(c.name), Lower(""), 0);
  }

  /** An empty query with the `all` filter shows every campaign, in order. */
  lemma AllCampaignsShown(campaigns: seq<Campaign>)
    ensures FilteredCampaigns(campaigns, "", "all") == campaigns
  {
    forall i | 0 <= i < |campaigns| ensures CampaignMatches(campaigns[i], "", "all") {
      EmptyQueryMatchesName(campaigns[i], "all");
    }
    FilterKeepsAll(campaigns, (c: Campaign) => CampaignMatches(c, "", "all"));
  }

  /** The campaigns of the table that are active sit at positions 0, 1, 3 and 5. */
  lemma ActiveStatuses()
    ensures |CampaignsData| == 6
    ensures forall i :: 0 <= i < 6 ==> (CampaignsData[i].status == "active" <==> i in [0, 1, 3, 5])
  {
  }

  /** A query and status filter matching exactly the positions `pos` shows those campaigns, in order. */
  lemma FilteredAtPositions(campaigns: seq<Campaign>, query: string, statusFilter: string, pos: seq<nat>)
    requires IncreasingPositions(pos, |campaigns|)
    requires forall i :: 0 <= i < |campaigns| ==> (CampaignMatches(campaigns[i], query, statusFilter) <==> i in pos)
    ensures |FilteredCampaigns(campaigns, query, statusFilter)| == |pos|
    ensures forall j :: 0 <= j < |pos| ==> FilteredCampaigns(campaigns, query, statusFilter)[j] == campaigns[pos[j]]
  {
    FilterPositions(campaigns, (c: Campaign) => CampaignMatches(c, query, statusFilter), pos);
  }

  /** With an empty query, a status filter shows exactly the campaigns with that status, in order. */
  lemma StatusAtPositions(campaigns: seq<Campaign>, status: string, pos: seq<nat>)
    requires status != "all" && IncreasingPositions(pos, |campaigns|)
    requires forall i :: 0 <= i < |campaigns| ==> (campaigns[i].status == status <==> i in pos)
    ensures |FilteredCampaigns(campaigns, "", status)| == |pos|
    ensures forall j :: 0 <= j < |pos| ==> FilteredCampaigns(campaigns, "", status)[j] == campaigns[pos[j]]
  {
    forall i | 0 <= i < |campaigns| {
      EmptyQueryMatchesName(campaigns[i], status);
    }
    FilteredAtPositions(campaigns, "", status, pos);
  }

  /** The `active` filter shows campaigns 1, 2, 4 and 6, in that order. */
  lemma ActiveCampaigns()
    ensures |FilteredCampaigns(CampaignsData, "", "active")| == 4
    ensures var r := FilteredCampaigns(CampaignsData, "", "active");
            r[0].id == 1 && r[1].id == 2 && r[2].id == 4 && r[3].id == 6
  {
    var pos: seq<nat> := [0, 1, 3, 5];
    ActiveStatuses();
    StatusAtPositions(CampaignsData, "active", pos);
    var r := FilteredCampaigns(CampaignsData, "", "active");
    assert r[0] == CampaignsData[pos[0]] && r[1] == CampaignsData[pos[1]];
    assert r[2] == CampaignsData[pos[2]] && r[3] == CampaignsData[pos[3]];
  }

  // ---------------------------------------------------------------- summary cards

  function TotalProspects(cs: seq<Campaign>): nat {
    if cs == [] then 0 else TotalProspects(cs[..|cs| - 1]) + cs[|cs| - 1].prospects
  }

  function TotalMeetings(cs: seq<Campaign>): nat {
    if cs == [] then 0 else TotalMeetings(cs[..|cs| - 1]) + cs[|cs| - 1].meetings
  }

  /** The prospects of the table's first `k` campaigns. */
  lemma ProspectPrefixes()
    ensures TotalProspects(CampaignsData[..0]) == 0
    ensures TotalProspects(CampaignsData[..1]) == 1250
    ensures TotalProspects(CampaignsData[..2]) == 3750
    ensures TotalProspects(CampaignsData[..3]) == 4550
    ensures TotalProspects(CampaignsData[..4]) == 4900
    ensures TotalProspects(CampaignsData[..5]) == 6700
    ensures TotalProspects(CampaignsData[..6]) == 7150
  {
    var d := CampaignsData;
    assert d[..1][..0] == d[..0];
    assert d[..2][..1] == d[..1];
    assert d[..3][..2] == d[..2];
    assert d[..4][..3] == d[..3];
    assert d[..5][..4] == d[..4];
    assert d[..6][..5] == d[..5];
  }

  /** The meetings of the table's first `k` campaigns. */
  lemma MeetingPrefixes()
    ensures TotalMeetings(CampaignsData[..0]) == 0
    ensures TotalMeetings(CampaignsData[..1]) == 45
    ensures TotalMeetings(CampaignsData[..2]) == 123
    ensures TotalMeetings(CampaignsData[..3]) == 135
    ensures TotalMeetings(CampaignsData[..4]) == 167
    ensures TotalMeetings(CampaignsData[..5]) == 167
    ensures TotalMeetings(CampaignsData[..6]) == 195
  {
    var d := CampaignsData;
    assert d[..1][..0] == d[..0];
    assert d[..2][..1] == d[..1];
    assert d[..3][..2] == d[..2];
    assert d[..4][..3] == d[..3];
    assert d[..5][..4] == d[..4];
    assert d[..6][..5] == d[..5];
  }

  /**
   * The four summary cards, written as literals on the page, agree with the
   * table: 6 campaigns, 4 active, 7,150 prospects and 195 meetings.
   */
  lemma SummaryCardsMatchTable()
    ensures |CampaignsData| == 6 && |FilteredCampaigns(CampaignsData, "", "active")| == 4
    ensures TotalProspects(CampaignsData) == 7150
    ensures TotalMeetings(CampaignsData) == 195
  {
    ProspectPrefixes();
    MeetingPrefixes();
    assert CampaignsData[..6] == CampaignsData;
    ActiveCampaigns();
  }

  // ---------------------------------------------------------------- progress

  /**
   * The progress percentage of a campaign: contacted over prospects, times
   * 100, rounded to the nearest integer with halves rounded up; 0 when the
   * campaign has no prospects.
   */
  function ProgressPercent(c: Campaign): (r: nat)
    ensures c.prospects == 0 ==> r == 0
    ensures c.prospects > 0 ==> 2 * c.prospects * r <= 200 * c.contacted + c.prospects < 2 * c.prospects * (r + 1)
    ensures c.contacted <= c.prospects ==> r <= 100
  {
    if c.prospects > 0 then
      var r := (200 * c.contacted + c.prospects) / (2 * c.prospects);
      RoundedQuotient(c.contacted, c.prospects, r);
      r
    else 0
  }

  /** The bounds of the quotient behind `ProgressPercent`. */
  lemma RoundedQuotient(contacted: nat, prospects: nat, r: int)
    requires prospects > 0 && r == (200 * contacted + prospects) / (2 * prospects)
    ensures r >= 0
    ensures 2 * prospects * r <= 200 * contacted + prospects < 2 * prospects * (r + 1)
    ensures contacted <= prospects ==> r <= 100
  {
    var a, b := 200 * contacted + prospects, 2 * prospects;
    assert b * (a / b) <= a < b * (a / b) + b;
    assert 2 * prospects * (r + 1) == b * r + b;
    if contacted <= prospects {
      assert b * r < b * 101;
      CancelLeft(b, r, 101);
    }
  }

  lemma CancelLeft(b: nat, x: int, y: int)
    requires b > 0 && b * x < b * y
    ensures x < y
  {
    assert b * y - b * x == b * (y - x);
  }

  /** Every campaign in the table has contacted no more than its prospects, so no progress exceeds 100 %. */
  lemma TableProgressBounded()
    ensures forall i :: 0 <= i < |CampaignsData| ==> CampaignsData[i].contacted <= CampaignsData[i].prospects
    ensures forall i :: 0 <= i < |CampaignsData| ==> ProgressPercent(CampaignsData[i]) <= 100
  {
  }

  // ---------------------------------------------------------------- lead enrichment

  /** The enrich-lead form (`enrichForm`). */
  datatype LeadForm = LeadForm(email: string, name: string, company: string, title: string)

  const EmptyForm := LeadForm("", "", "", "")
  const EmailRequired := "Email is required"

  /**
   * The lead sent for enrichment: the email as typed, and each optional
   * field only when filled in (an empty field is sent as `undefined`, which
   * the JSON body leaves out).
   */
  function LeadData(form: LeadForm): (r: JsonObject)
    ensures "email" in r && r["email"] == JStr(form.email)
    ensures ("name" in r <==> form.name != "") && ("name" in r ==> r["name"] == JStr(form.name))
    ensures ("company" in r <==> form.company != "") && ("company" in r ==> r["company"] == JStr(form.company))
    ensures ("title" in r <==> form.title != "") && ("title" in r ==> r["title"] == JStr(form.title))
    ensures r.Keys <= {"email", "name", "company", "title"}
  {
    map["email" := JStr(form.email)]
      + (if form.name != "" then map["name" := JStr(form.name)] else map[])
      + (if form.company != "" then map["company" := JStr(form.company)] else map[])
      + (if form.title != "" then map["title" := JStr(form.title)] else map[])
  }

  /** The awaited outcome of `enrichLead`: the `enriched_lead` field of the response, or an error message. */
  datatype EnrichOutcome = Enriched(lead: Option<Json>) | EnrichFailed(message: Option<string>)

  class EnrichPanel {
    var showEnrichModal: bool
    var enrichForm: LeadForm
    var enrichLoading: bool
    var enrichResult: Option<Json>
    var enrichError: Option<string>

    constructor ()
      ensures !showEnrichModal && enrichForm == EmptyForm && !enrichLoading
      ensures enrichResult.None? && enrichError.None?
    {
      showEnrichModal := false;
      enrichForm := EmptyForm;
      enrichLoading := false;
      enrichResult := None;
      enrichError := None;
    }

    /**
     * `handleEnrichLead`. Without an email only the "Email is required"
     * error is set and no request is made. Otherwise the lead is sent, and
     * once the call settles the result holds the enriched lead or the error
     * holds the failure's message.
     */
    method HandleEnrichLead(outcome: EnrichOutcome) returns (request: Option<JsonObject>)
      modifies this
      ensures old(enrichForm.email) == "" ==>
                request.None? && enrichError == Some(EmailRequired) &&
                enrichLoading == old(enrichLoading) && enrichResult == old(enrichResult)
      ensures old(enrichForm.email) != "" ==>
                request == Some(Api.EnrichLeadBody(LeadData(old(enrichForm)), None)) && !enrichLoading
      ensures old(enrichForm.email) != "" && outcome.Enriched? ==> enrichResult == outcome.lead && enrichError.None?
      ensures old(enrichForm.email) != "" && outcome.EnrichFailed? ==> enrichResult.None? && enrichError == outcome.message
      ensures enrichForm == old(enrichForm) && showEnrichModal == old(showEnrichModal)
    {
      if enrichForm.email == "" {
        enrichError := Some(EmailRequired);
        return None;
      }
      enrichLoading := true;
      enrichError := None;
      enrichResult := None;
      request := Some(Api.EnrichLeadBody(LeadData(enrichForm), None));
      match outcome {
        case Enriched(lead) =>
          enrichResult := lead;
        case EnrichFailed(message) =>
          enrichError := message;
      }
      enrichLoading := false;
    }

    /** `openEnrichModal`. */
    method OpenEnrichModal()
      modifies this
      ensures showEnrichModal
      ensures enrichForm == old(enrichForm) && enrichLoading == old(enrichLoading)
      ensures enrichResult == old(enrichResult) && enrichError == old(enrichError)
    {
      showEnrichModal := true;
    }

    /** `resetEnrichModal`: closes the panel and clears the form, the result and the error. */
    method ResetEnrichModal()
      modifies this
      ensures !showEnrichModal && enrichForm == EmptyForm && enrichResult.None? && enrichError.None?
      ensures enrichLoading == old(enrichLoading)
    {
      showEnrichModal := false;
      enrichForm := EmptyForm;
      enrichResult := None;
      enrichError := None;
    }

    /** "Enrich Another Lead": clears the result and the form, leaving the panel open and any error as it was. */
    method EnrichAnother()
      modifies this
      ensures enrichResult.None? && enrichForm == EmptyForm
      ensures showEnrichModal == old(showEnrichModal) && enrichError == old(enrichError) && enrichLoading == old(enrichLoading)
    {
      enrichResult := None;
      enrichForm := EmptyForm;
    }
  }
}
