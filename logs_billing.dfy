/**
 * The activity-log and billing page: the built-in log table with its search
 * and type filter, and the billing plans with the plan-button rule.
 */
module LogsBilling {
  import opened Text
  import opened Lists

  datatype Log = Log(id: nat, kind: string, action: string, campaign: string, timestamp: string, status: string)

  /** The activity log the page renders (`logsData`). */
  const LogsData: seq<Log> := [
    Log(1, "email", "Email sent to John Smith", "Q4 Enterprise", "2024-11-28 14:32:15", "success"),
    Log(2, "linkedin", "Connection request sent to Sarah Johnson", "SaaS Decision Makers", "2024-11-28 14:28:42", "success"),
    Log(3, "email", "Follow-up email sent to Mike Chen", "Q4 Enterprise", "2024-11-28 14:15:08", "success"),
    Log(4, "system", "Campaign \"Healthcare Push\" paused due to rate limit", "Healthcare Push", "2024-11-28 13:45:22", "warning"),
    Log(5, "call", "Voicemail left for David Wilson", "Startup Founders", "2024-11-28 13:30:11", "success"),
    Log(6, "email", "Email bounced - invalid address", "FinTech C-Suite", "2024-11-28 13:22:45", "error"),
    Log(7, "linkedin", "Message sent to Emily Brown", "SaaS Decision Makers", "2024-11-28 13:15:33", "success"),
    Log(8, "system", "AI response generated for incoming reply", "Q4 Enterprise", "2024-11-28 12:58:19", "success"),
    Log(9, "email", "Meeting invitation sent to Lisa Anderson", "Q4 Enterprise", "2024-11-28 12:45:07", "success"),
    Log(10, "call", "Call completed with Robert Taylor (3m 24s)", "Startup Founders", "2024-11-28 12:30:00", "success")
  ]

  /** Entries are numbered from 1 in table order. */
  lemma LogIds()
    ensures |LogsData| == 10
    ensures forall i :: 0 <= i < |LogsData| ==> LogsData[i].id == i + 1
  {
  }

  // ---------------------------------------------------------------- filter

  /** A log matches when the query occurs in its action or campaign (ignoring case) and the type filter is `all` or its type. */
  predicate LogMatches(l: Log, query: string, typeFilter: string) {
    (Includes(Lower(l.action), Lower(query)) || Includes(Lower(l.campaign), Lower(query)))
    && (typeFilter == "all" || l.kind == typeFilter)
  }

  /**
   * The log entries on show: an order-preserving subsequence holding
   * exactly the matching entries, each as often as the input holds it.
   */
  function FilteredLogs(logs: seq<Log>, query: string, typeFilter: string): (r: seq<Log>)
    ensures IsSubsequence(r, logs)
    ensures forall i :: 0 <= i < |r| ==> LogMatches(r[i], query, typeFilter)
    ensures forall l :: multiset(r)[l] == if LogMatches(l, query, typeFilter) then multiset(logs)[l] else 0
  {
    var keep := (l: Log) => LogMatches(l, query, typeFilter);
    FilterSpec(logs, keep);
    Filter(logs, keep)
  }

  /** A query and type filter matching exactly the positions `pos` shows those entries, in order. */
  lemma FilteredLogsAtPositions(logs: seq<Log>, query: string, typeFilter: string, pos: seq<nat>)
    requires IncreasingPositions(pos, |logs|)
    requires forall i :: 0 <= i < |logs| ==> (LogMatches(logs[i], query, typeFilter) <==> i in pos)
    ensures |FilteredLogs(logs, query, typeFilter)| == |pos|
    ensures forall j :: 0 <= j < |pos| ==> FilteredLogs(logs, query, typeFilter)[j] == logs[pos[j]]
  {
    FilterPositions(logs, (l: Log) => LogMatches(l, query, typeFilter), pos);
  }

  /** With an empty query the type filter alone decides. */
  lemma EmptyQueryMatchesAction(l: Log, typeFilter: string)
    ensures LogMatches(l, "", typeFilter) <==> (typeFilter == "all" || l.kind == typeFilter)
  {
    assert OccursAt(Lower(l.action), Lower(""), 0);
  }

  /** An empty query with the `all` filter shows every entry, in order. */
  lemma AllLogsShown(logs: seq<Log>)
    ensures FilteredLogs(logs, "", "all") == logs
  {
    forall i | 0 <= i < |logs| ensures LogMatches(logs[i], "", "all") {
      EmptyQueryMatchesAction(logs[i], "all");
    }
    FilterKeepsAll(logs, (l: Log) => LogMatches(l, "", "all"));
  }

  /** The table holds ten entries, so the unfiltered view shows all ten. */
  lemma AllTenLogsShown()
    ensures |FilteredLogs(LogsData, "", "all")| == 10
  {
    AllLogsShown(LogsData);
  }

  /** The positions of the email entries in the table. */
  const EmailAt: seq<nat> := [0, 2, 5, 8]

  /** The email positions increase and lie inside the table. */
  lemma EmailAtIncreasing()
    ensures IncreasingPositions(EmailAt, 10)
  {
  }

  /** The email entries of the table sit at positions 0, 2, 5 and 8. */
  lemma EmailKinds()
    ensures |LogsData| == 10
    ensures forall i :: 0 <= i < 10 ==> (LogsData[i].kind == "email" <==> i in EmailAt)
  {
  }

  /** With an empty query, a type filter matching exactly the positions `pos` shows those entries, in order. */
  lemma KindAtPositions(logs: seq<Log>, typeFilter: string, pos: seq<nat>)
    requires typeFilter != "all" && IncreasingPositions(pos, |logs|)
    requires forall i :: 0 <= i < |logs| ==> (logs[i].kind == typeFilter <==> i in pos)
    ensures |FilteredLogs(logs, "", typeFilter)| == |pos|
    ensures forall j :: 0 <= j < |pos| ==> FilteredLogs(logs, "", typeFilter)[j] == logs[pos[j]]
  {
    forall i | 0 <= i < |logs| {
      EmptyQueryMatchesAction(logs[i], typeFilter);
    }
    FilteredLogsAtPositions(logs, "", typeFilter, pos);
  }

  /** Ten entries whose email entries sit at positions 0, 2, 5 and 8 show those four under the `email` filter. */
  lemma EmailPositions(logs: seq<Log>)
    requires |logs| == 10
    requires forall i :: 0 <= i < |logs| ==> (logs[i].kind == "email" <==> i in EmailAt)
    ensures FilteredLogs(logs, "", "email") == [logs[0], logs[2], logs[5], logs[8]]
  {
    EmailAtIncreasing();
    KindAtPositions(logs, "email", EmailAt);
    var r := FilteredLogs(logs, "", "email");
    assert EmailAt[0] == 0 && EmailAt[1] == 2 && EmailAt[2] == 5 && EmailAt[3] == 8;
    assert r[0] == logs[0] && r[1] == logs[2];
    assert r[2] == logs[5] && r[3] == logs[8];
  }

  /** The `email` type filter shows entries 1, 3, 6 and 9, in that order. */
  lemma EmailLogs()
    ensures |FilteredLogs(LogsData, "", "email")| == 4
    ensures var r := FilteredLogs(LogsData, "", "email");
            r[0].id == 1 && r[1].id == 3 && r[2].id == 6 && r[3].id == 9
  {
    EmailKinds();
    EmailPositions(LogsData);
    var r := FilteredLogs(LogsData, "", "email");
    assert r[0] == LogsData[0] && r[1] == LogsData[2] && r[2] == LogsData[5] && r[3] == LogsData[8];
    LogIds();
    assert LogsData[2].id == 3 && LogsData[5].id == 6 && LogsData[8].id == 9;
  }

  // ---------------------------------------------------------------- the query "startup"

  const Startup := "startup"

  /** A text that holds some letter of "startup" in neither case does not include "startup", whatever its case. */
  lemma LacksStartupLetter(text: string, c: char)
    requires c in Startup && c !in text && (c as int - 32) as char !in text
    ensures !Includes(Lower(text), Startup)
  {
    LowerLacks(text, c);
    IncludedCharsOccur(Lower(text), Startup, c);
  }

  /** An entry whose action and campaign both lack "startup" does not match that query. */
  lemma UnmatchedByTexts(l: Log)
    requires !Includes(Lower(l.action), Startup) && !Includes(Lower(l.campaign), Startup)
    ensures !LogMatches(l, Startup, "all")
  {
    assert Lower(Startup) == Startup;
  }

  lemma NoEmailSent()
    ensures !Includes(Lower("Email sent to John Smith"), Startup)
  {
    LacksStartupLetter("Email sent to John Smith", 'u');
  }

  lemma NoConnection()
    ensures !Includes(Lower("Connection request sent to Sarah Johnson"), Startup)
  {
    LacksStartupLetter("Connection request sent to Sarah Johnson", 'p');
  }

  lemma NoFollowUp()
    ensures !Includes(Lower("Follow-up email sent to Mike Chen"), Startup)
  {
    LacksStartupLetter("Follow-up email sent to Mike Chen", 'r');
  }

  lemma NoBounced()
    ensures !Includes(Lower("Email bounced - invalid address"), Startup)
  {
    LacksStartupLetter("Email bounced - invalid address", 'p');
  }

  lemma NoMessage()
    ensures !Includes(Lower("Message sent to Emily Brown"), Startup)
  {
    LacksStartupLetter("Message sent to Emily Brown", 'u');
  }

  lemma NoReply()
    ensures !Includes(Lower("AI response generated for incoming reply"), Startup)
  {
    LacksStartupLetter("AI response generated for incoming reply", 'u');
  }

  lemma NoInvitation()
    ensures !Includes(Lower("Meeting invitation sent to Lisa Anderson"), Startup)
  {
    LacksStartupLetter("Meeting invitation sent to Lisa Anderson", 'u');
  }

  lemma NoEnterprise()
    ensures !Includes(Lower("Q4 Enterprise"), Startup)
  {
    LacksStartupLetter("Q4 Enterprise", 'u');
  }

  lemma NoSaas()
    ensures !Includes(Lower("SaaS Decision Makers"), Startup)
  {
    LacksStartupLetter("SaaS Decision Makers", 'u');
  }

  lemma NoFinTech()
    ensures !Includes(Lower("FinTech C-Suite"), Startup)
  {
    LacksStartupLetter("FinTech C-Suite", 'p');
  }

  /** Entry 1 does not mention "startup". */
  lemma Log1Unmatched()
    ensures !LogMatches(LogsData[0], Startup, "all")
  {
    assert LogsData[0].action == "Email sent to John Smith" && LogsData[0].campaign == "Q4 Enterprise";
    NoEmailSent();
    NoEnterprise();
    UnmatchedByTexts(LogsData[0]);
  }

  /** Entry 2 does not mention "startup". */
  lemma Log2Unmatched()
    ensures !LogMatches(LogsData[1], Startup, "all")
  {
    assert LogsData[1].action == "Connection request sent to Sarah Johnson" && LogsData[1].campaign == "SaaS Decision Makers";
    NoConnection();
    NoSaas();
    UnmatchedByTexts(LogsData[1]);
  }

  /** Entry 3 does not mention "startup". */
  lemma Log3Unmatched()
    ensures !LogMatches(LogsData[2], Startup, "all")
  {
    assert LogsData[2].action == "Follow-up email sent to Mike Chen" && LogsData[2].campaign == "Q4 Enterprise";
    NoFollowUp();
    NoEnterprise();
    UnmatchedByTexts(LogsData[2]);
  }

  /** Entry 6 does not mention "startup". */
  lemma Log6Unmatched()
    ensures !LogMatches(LogsData[5], Startup, "all")
  {
    assert LogsData[5].action == "Email bounced - invalid address" && LogsData[5].campaign == "FinTech C-Suite";
    NoBounced();
    NoFinTech();
    UnmatchedByTexts(LogsData[5]);
  }

  /** Entry 7 does not mention "startup". */
  lemma Log7Unmatched()
    ensures !LogMatches(LogsData[6], Startup, "all")
  {
    assert LogsData[6].action == "Message sent to Emily Brown" && LogsData[6].campaign == "SaaS Decision Makers";
    NoMessage();
    NoSaas();
    UnmatchedByTexts(LogsData[6]);
  }

  /** Entry 8 does not mention "startup". */
  lemma Log8Unmatched()
    ensures !LogMatches(LogsData[7], Startup, "all")
  {
    assert LogsData[7].action == "AI response generated for incoming reply" && LogsData[7].campaign == "Q4 Enterprise";
    NoReply();
    NoEnterprise();
    UnmatchedByTexts(LogsData[7]);
  }

  /** Entry 9 does not mention "startup". */
  lemma Log9Unmatched()
    ensures !LogMatches(LogsData[8], Startup, "all")
  {
    assert LogsData[8].action == "Meeting invitation sent to Lisa Anderson" && LogsData[8].campaign == "Q4 Enterprise";
    NoInvitation();
    NoEnterprise();
    UnmatchedByTexts(LogsData[8]);
  }

  /**
   * A text whose only two "s" letters are followed by "h" and "e" does not
   * include "startup", whatever its case.
   */
  lemma EssesNotFollowedByT(a1: string, a2: string, a3: string)
    requires 's' !in a1 && 'S' !in a1 && 's' !in a2 && 'S' !in a2 && 's' !in a3 && 'S' !in a3
    requires a2 != [] && a2[0] == 'h' && a3 != [] && a3[0] == 'e'
    ensures !Includes(Lower(a1 + "s" + a2 + "s" + a3), Startup)
  {
    LowerConcat(a1 + "s" + a2 + "s", a3);
    LowerConcat(a1 + "s" + a2, "s");
    LowerConcat(a1 + "s", a2);
    LowerConcat(a1, "s");
    LowerLacks(a1, 's');
    LowerLacks(a2, 's');
    LowerLacks(a3, 's');
    var tail := Lower(a2) + "s" + Lower(a3);
    assert Lower(a1 + "s" + a2 + "s" + a3) == Lower(a1) + ['s'] + tail;
    assert tail[0] == LowerChar('h');
    IncludesPastFirstChar(Lower(a1), 's', tail, Startup);
    assert tail == Lower(a2) + ['s'] + Lower(a3);
    assert Lower(a3)[0] == LowerChar('e');
    IncludesPastFirstChar(Lower(a2), 's', Lower(a3), Startup);
    IncludedCharsOccur(Lower(a3), Startup, 's');
  }

  const PushHead := "Campaign \"Healthcare Pu"
  const PushMiddle := "h\" pau"
  const PushEnd := "ed due to rate limit"

  /** The action of entry 4 split at its two "s" letters. */
  lemma HealthcareActionPieces()
    ensures "Campaign \"Healthcare Push\" paused due to rate limit" == PushHead + "s" + PushMiddle + "s" + PushEnd
    ensures PushMiddle[0] == 'h' && PushEnd[0] == 'e'
  {
  }

  /** The first piece of entry 4's action holds no "s". */
  lemma PushHeadLacksS()
    ensures 's' !in PushHead && 'S' !in PushHead
  {
  }

  /** The other two pieces of entry 4's action hold no "s". */
  lemma PushRestLacksS()
    ensures 's' !in PushMiddle && 'S' !in PushMiddle && 's' !in PushEnd && 'S' !in PushEnd
  {
  }

  /** Every letter of "startup" occurs in the lower-cased action of entry 4. */
  lemma HealthcareActionLetters()
    ensures forall c :: c in Startup ==> c in Lower("Campaign \"Healthcare Push\" paused due to rate limit")
  {
    var action := "Campaign \"Healthcare Push\" paused due to rate limit";
    var low := Lower(action);
    assert action[12] == 'a' && action[27] == 'p' && action[14] == 't';
    assert action[18] == 'r' && action[22] == 'u' && action[23] == 's';
    assert low[12] == 'a' && low[27] == 'p' && low[14] == 't';
    assert low[18] == 'r' && low[22] == 'u' && low[23] == 's';
  }

  /** The action of entry 4 holds every letter of "startup", but each "s" in it is followed by something other than "t". */
  lemma HealthcareActionUnmatched()
    ensures forall c :: c in Startup ==> c in Lower("Campaign \"Healthcare Push\" paused due to rate limit")
    ensures !Includes(Lower("Campaign \"Healthcare Push\" paused due to rate limit"), Startup)
  {
    HealthcareActionLetters();
    HealthcareActionPieces();
    PushHeadLacksS();
    PushRestLacksS();
    EssesNotFollowedByT(PushHead, PushMiddle, PushEnd);
  }

  /** The campaign of entry 4 ends in "push", the only "s" in it. */
  lemma HealthcareCampaignUnmatched()
    ensures !Includes(Lower("Healthcare Push"), Startup)
  {
    var c1 := "Healthcare Pu";
    assert "Healthcare Push" == c1 + "s" + "h";
    LowerConcat(c1 + "s", "h");
    LowerConcat(c1, "s");
    LowerLacks(c1, 's');
    assert Lower("Healthcare Push") == Lower(c1) + ['s'] + Lower("h");
    assert Lower("h") == "h";
    IncludesPastFirstChar(Lower(c1), 's', "h", Startup);
  }

  /** Entry 4 does not mention "startup". */
  lemma Log4Unmatched()
    ensures !LogMatches(LogsData[3], Startup, "all")
  {
    assert LogsData[3].action == "Campaign \"Healthcare Push\" paused due to rate limit";
    assert LogsData[3].campaign == "Healthcare Push";
    HealthcareActionUnmatched();
    HealthcareCampaignUnmatched();
    UnmatchedByTexts(LogsData[3]);
  }

  /** Entries 5 and 10 belong to the "Startup Founders" campaign. */
  lemma StartupFoundersMatched()
    ensures LogMatches(LogsData[4], Startup, "all") && LogMatches(LogsData[9], Startup, "all")
  {
    assert Lower(Startup) == Startup;
    assert OccursAt(Lower(LogsData[4].campaign), Startup, 0);
    assert OccursAt(Lower(LogsData[9].campaign), Startup, 0);
  }

  /** The query "startup" matches the entries at positions 4 and 9 only. */
  lemma StartupMatches()
    ensures forall i :: 0 <= i < |LogsData| ==> (LogMatches(LogsData[i], Startup, "all") <==> i in [4, 9])
  {
    assert |LogsData| == 10;
    forall i | 0 <= i < |LogsData|
      ensures LogMatches(LogsData[i], Startup, "all") <==> i in [4, 9]
    {
      if i == 0 { Log1Unmatched(); }
      else if i == 1 { Log2Unmatched(); }
      else if i == 2 { Log3Unmatched(); }
      else if i == 3 { Log4Unmatched(); }
      else if i == 4 || i == 9 { StartupFoundersMatched(); }
      else if i == 5 { Log6Unmatched(); }
      else if i == 6 { Log7Unmatched(); }
      else if i == 7 { Log8Unmatched(); }
      else { Log9Unmatched(); }
    }
  }

  /** The query "startup" shows entries 5 and 10, found through their campaign. */
  lemma StartupLogs()
    ensures |FilteredLogs(LogsData, Startup, "all")| == 2
    ensures var r := FilteredLogs(LogsData, Startup, "all");
            r[0].id == 5 && r[1].id == 10
  {
    var pos: seq<nat> := [4, 9];
    StartupMatches();
    FilteredLogsAtPositions(LogsData, Startup, "all", pos);
    var r := FilteredLogs(LogsData, Startup, "all");
    assert r[0] == LogsData[pos[0]] && r[1] == LogsData[pos[1]];
  }

  // ---------------------------------------------------------------- billing

  datatype Plan = Plan(name: string, price: nat, features: seq<string>, popular: bool)

  /** The plans the billing tab offers (`billingPlans`). */
  const BillingPlans: seq<Plan> := [
    Plan("Starter", 49, ["500 AI-powered emails/month", "100 LinkedIn messages/month", "Basic analytics",
                         "Email support", "1 user seat"], false),
    Plan("Growth", 149, ["2,500 AI-powered emails/month", "500 LinkedIn messages/month", "100 AI voice calls/month",
                         "Advanced analytics & reporting", "Priority support", "5 user seats", "A/B testing"], true),
    Plan("Enterprise", 399, ["Unlimited AI-powered emails", "Unlimited LinkedIn messages", "500 AI voice calls/month",
                             "Custom integrations", "Dedicated success manager", "Unlimited users",
                             "Custom AI training", "SLA guarantee"], false)
  ]

  /** The label of a plan's button: the Growth plan is the current one, every other plan offers an upgrade. */
  function PlanButtonLabel(p: Plan): (r: string)
    ensures r == "Current Plan" <==> p.name == "Growth"
    ensures r == "Upgrade" <==> p.name != "Growth"
  {
    if p.name == "Growth" then "Current Plan" else "Upgrade"
  }

  /**
   * Exactly one plan, Growth, is marked popular, and it is the one whose
   * button reads "Current Plan"; the plans are listed in increasing price.
   */
  lemma PopularPlanIsCurrent()
    ensures |BillingPlans| == 3
    ensures forall i :: 0 <= i < 3 ==> (BillingPlans[i].popular <==> i == 1)
    ensures BillingPlans[1].name == "Growth"
    ensures forall i :: 0 <= i < 3 ==> (PlanButtonLabel(BillingPlans[i]) == "Current Plan" <==> BillingPlans[i].popular)
    ensures forall i, j :: 0 <= i < j < 3 ==> BillingPlans[i].price < BillingPlans[j].price
  {
  }
}
