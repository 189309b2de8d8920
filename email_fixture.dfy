/**
 * The mock retrieval response the inbox shows while the backend is not
 * connected: fifteen records, each carrying an explicit tone, five of them
 * complaints. It is the concrete test vector for the formatting and
 * complaint-ratio rules.
 */
module EmailFixture {
  import opened Wrappers
  import opened JsValues
  import opened Tones
  import opened EmailRecords

  /** A mock record: the twelve fields every fixture entry sets, the others undefined. */
  function MockRecord(id: int, messageId: string, from: string, sender: string, subject: string, body: string,
                      snippet: string, timestamp: string, date: string, tone: string, folder: string,
                      campaign: string): RawEmail
  {
    RawEmail(id := Some(NumId(id)), messageId := Some(StrId(messageId)), uid := None,
             from := Some(from), sender := Some(sender), emailAddress := None, fromAddress := None,
             subject := Some(subject), body := Some(body), snippet := Some(snippet), preview := None,
             text := None, content := None, timestamp := Some(timestamp), date := Some(date),
             receivedAt := None, sentDate := None, tone := Some(tone), toneCategory := None,
             sentiment := None, campaign := Some(campaign), folder := Some(folder))
  }

  const MockEmails: seq<RawEmail> := [
      MockRecord(1, "msg_001", "john.smith@acmecorp.com",
                 "John Smith <john.smith@acmecorp.com>",
                 "Product not working as expected",
                 "I purchased your product last week and it has been malfunctioning since day one. The dashboard keeps crashing and I cannot access my data. This is extremely frustrating and I need a resolution immediately. Please refund my money or fix this issue.",
                 "I purchased your product last week and it has been malfunctioning...",
                 "2024-11-28T14:32:15Z", "2024-11-28 14:32:15", "#Complaint", "INBOX", "Q4 Enterprise"),
      MockRecord(2, "msg_002", "sarah.johnson@techstart.io",
                 "Sarah Johnson <sarah.johnson@techstart.io>",
                 "Thank you for the excellent service!",
                 "I wanted to reach out and express my gratitude for the outstanding customer support I received yesterday. Your team was incredibly helpful and resolved my issue within minutes. I am very impressed with the quality of service.",
                 "I wanted to reach out and express my gratitude for the outstanding...",
                 "2024-11-28T14:28:42Z", "2024-11-28 14:28:42", "#Appreciation", "INBOX", "SaaS Decision Makers"),
      MockRecord(3, "msg_003", "mike.chen@startup.com",
                 "Mike Chen <mike.chen@startup.com>",
                 "Feature request for dashboard",
                 "I have been using your platform for a few months now and would like to suggest adding a dark mode feature to the dashboard. This would greatly improve the user experience, especially for those who work late hours. What do you think?",
                 "I have been using your platform for a few months now and would like...",
                 "2024-11-28T14:15:08Z", "2024-11-28 14:15:08", "#Feedback", "INBOX", "Q4 Enterprise"),
      MockRecord(4, "msg_004", "david.wilson@company.com",
                 "David Wilson <david.wilson@company.com>",
                 "Re: Meeting follow-up",
                 "Following up on our conversation from last week regarding the integration project. I wanted to confirm the timeline and discuss the next steps. When would be a good time to schedule a follow-up call?",
                 "Following up on our conversation from last week regarding...",
                 "2024-11-28T13:30:11Z", "2024-11-28 13:30:11", "#Generic", "INBOX", "Startup Founders"),
      MockRecord(5, "msg_005", "lisa.anderson@business.com",
                 "Lisa Anderson <lisa.anderson@business.com>",
                 "Very disappointed with recent update",
                 "The latest update has completely broken my workflow. I cannot export my reports anymore and the new interface is confusing. I have been a loyal customer for 2 years, but this is unacceptable. I need this fixed immediately or I will cancel my subscription.",
                 "The latest update has completely broken my workflow. I cannot...",
                 "2024-11-28T13:22:45Z", "2024-11-28 13:22:45", "#Complaint", "INBOX", "FinTech C-Suite"),
      MockRecord(6, "msg_006", "emily.brown@enterprise.com",
                 "Emily Brown <emily.brown@enterprise.com>",
                 "Amazing customer support experience",
                 "I just wanted to share how impressed I am with your support team. They went above and beyond to help me set up the integration, and the documentation was crystal clear. Thank you for such a wonderful experience!",
                 "I just wanted to share how impressed I am with your support team...",
                 "2024-11-28T13:15:33Z", "2024-11-28 13:15:33", "#Appreciation", "INBOX", "SaaS Decision Makers"),
      MockRecord(7, "msg_007", "robert.taylor@corp.com",
                 "Robert Taylor <robert.taylor@corp.com>",
                 "Suggestion for improvement",
                 "I think it would be great if you could add a feature that allows bulk export of data. This would save a lot of time for users who need to process large datasets. Just a thought!",
                 "I think it would be great if you could add a feature that allows...",
                 "2024-11-28T12:58:19Z", "2024-11-28 12:58:19", "#Feedback", "INBOX", "Q4 Enterprise"),
      MockRecord(8, "msg_008", "jennifer.martinez@company.io",
                 "Jennifer Martinez <jennifer.martinez@company.io>",
                 "Question about pricing",
                 "I am interested in upgrading my plan and would like to know more about the enterprise pricing. Could you please send me a quote? Also, are there any discounts for annual subscriptions?",
                 "I am interested in upgrading my plan and would like to know...",
                 "2024-11-28T12:45:07Z", "2024-11-28 12:45:07", "#Generic", "INBOX", "Q4 Enterprise"),
      MockRecord(9, "msg_009", "thomas.lee@business.com",
                 "Thomas Lee <thomas.lee@business.com>",
                 "Billing issue - charged twice",
                 "I noticed that I was charged twice this month for my subscription. I have already paid on the 1st, but I see another charge on the 15th. This is a billing error and I need a refund for the duplicate charge immediately.",
                 "I noticed that I was charged twice this month for my subscription...",
                 "2024-11-28T12:30:00Z", "2024-11-28 12:30:00", "#Complaint", "INBOX", "Startup Founders"),
      MockRecord(10, "msg_010", "amanda.white@startup.io",
                 "Amanda White <amanda.white@startup.io>",
                 "Love the new features!",
                 "Just wanted to say how much I appreciate the recent updates. The new analytics dashboard is fantastic and the performance improvements are noticeable. Keep up the great work!",
                 "Just wanted to say how much I appreciate the recent updates...",
                 "2024-11-28T12:15:00Z", "2024-11-28 12:15:00", "#Appreciation", "INBOX", "Healthcare Push"),
      MockRecord(11, "msg_011", "chris.moore@techcorp.com",
                 "Chris Moore <chris.moore@techcorp.com>",
                 "System is down - urgent!",
                 "Your system has been down for the past 3 hours and I cannot access any of my data. This is affecting my business operations and I need immediate assistance. When will this be resolved?",
                 "Your system has been down for the past 3 hours and I cannot...",
                 "2024-11-28T11:45:00Z", "2024-11-28 11:45:00", "#Complaint", "INBOX", "Q4 Enterprise"),
      MockRecord(12, "msg_012", "jessica.davis@enterprise.io",
                 "Jessica Davis <jessica.davis@enterprise.io>",
                 "Thank you for the quick response",
                 "Thank you so much for resolving my issue so quickly yesterday. Your team's responsiveness and professionalism is outstanding. I will definitely recommend your service to others.",
                 "Thank you so much for resolving my issue so quickly yesterday...",
                 "2024-11-28T11:20:00Z", "2024-11-28 11:20:00", "#Appreciation", "INBOX", "SaaS Decision Makers"),
      MockRecord(13, "msg_013", "daniel.garcia@company.com",
                 "Daniel Garcia <daniel.garcia@company.com>",
                 "Feature recommendation",
                 "I would like to recommend adding a mobile app for iOS and Android. This would make it much easier to access the platform on the go. Many of our team members have requested this feature.",
                 "I would like to recommend adding a mobile app for iOS and Android...",
                 "2024-11-28T10:55:00Z", "2024-11-28 10:55:00", "#Feedback", "INBOX", "Q4 Enterprise"),
      MockRecord(14, "msg_014", "maria.rodriguez@business.io",
                 "Maria Rodriguez <maria.rodriguez@business.io>",
                 "Re: Project update",
                 "Hi, just checking in on the status of our integration project. Can you provide an update on the timeline? Looking forward to your response.",
                 "Hi, just checking in on the status of our integration project...",
                 "2024-11-28T10:30:00Z", "2024-11-28 10:30:00", "#Generic", "INBOX", "Startup Founders"),
      MockRecord(15, "msg_015", "james.wilson@corp.com",
                 "James Wilson <james.wilson@corp.com>",
                 "Extremely frustrated with service",
                 "I have been trying to contact support for 2 days with no response. My account is locked and I cannot access any of my work. This is completely unacceptable. I demand immediate action.",
                 "I have been trying to contact support for 2 days with no response...",
                 "2024-11-28T10:00:00Z", "2024-11-28 10:00:00", "#Complaint", "INBOX", "FinTech C-Suite")
  ]

  /** The mock response object: the records under `emails`, no `data` or `messages`. */
  const MockResponse := ResponseObject(Records(MockEmails), Absent, Absent)

  /** Where the complaints sit among the mock records (0-based). */
  predicate MockComplaintAt(i: int) {
    i == 0 || i == 4 || i == 8 || i == 10 || i == 14
  }

  /** The number of mock complaints at positions `k` and after. */
  function MockComplaintsFrom(k: nat): nat {
    if k == 0 then 5 else if k <= 4 then 4 else if k <= 8 then 3 else if k <= 10 then 2 else if k <= 14 then 1 else 0
  }

  /** Every mock record carries one of the four valid tones, complaints exactly at the listed positions. */
  lemma MockTones()
    ensures |MockEmails| == 15
    ensures forall i :: 0 <= i < 15 ==> Present(MockEmails[i].tone) && MockEmails[i].tone.value in ValidTones
    ensures forall i :: 0 <= i < 15 ==> (MockEmails[i].tone.value == ComplaintTone <==> MockComplaintAt(i))
  {
  }

  /** Removing the first email lowers the complaint count by one exactly when that email is a complaint. */
  lemma ComplaintCountStep(emails: seq<Email>)
    requires emails != []
    ensures ComplaintCount(emails) == (if emails[0].tone == ComplaintTone then 1 else 0) + ComplaintCount(emails[1..])
  {
  }

  /** Any fifteen emails with complaints exactly at the mock positions hold five complaints. */
  lemma {:induction false} ComplaintsAtMockPositions(f: seq<Email>)
    requires |f| == 15
    requires forall i :: 0 <= i < 15 ==> (f[i].tone == ComplaintTone <==> MockComplaintAt(i))
    ensures ComplaintCount(f) == 5
  {
    var k := 15;
    while k > 0
      invariant 0 <= k <= 15
      invariant ComplaintCount(f[k..]) == MockComplaintsFrom(k)
    {
      k := k - 1;
      ComplaintCountStep(f[k..]);
      assert f[k..][1..] == f[k + 1..];
    }
    assert f[0..] == f;
  }

  /** A record that carries a valid tone keeps it when formatted. */
  lemma FormatKeepsValidTone(e: RawEmail, index: nat, now: string)
    requires Present(e.tone) && e.tone.value in ValidTones
    ensures FormatEmail(e, index, now).tone == e.tone.value
  {
    FormatEmailTone(e, index, now);
    NormalizeValidTone(e.tone.value);
  }

  /** Position `i` of a formatted list keeps the valid tone its record carries. */
  lemma FormattedKeepsValidTone(items: seq<RawEmail>, f: seq<Email>, now: string, i: nat)
    requires f == FormatEmailData(Records(items), now)
    requires i < |items|
    requires Present(items[i].tone) && items[i].tone.value in ValidTones
    ensures f[i].tone == items[i].tone.value
  {
    FormatKeepsValidTone(items[i], i, now);
  }

  /** Records that all carry a valid tone keep exactly that tone when formatted. */
  lemma FormatKeepsValidTones(items: seq<RawEmail>, f: seq<Email>, now: string)
    requires f == FormatEmailData(Records(items), now)
    requires forall i :: 0 <= i < |items| ==> Present(items[i].tone) && items[i].tone.value in ValidTones
    ensures forall i :: 0 <= i < |items| ==> Present(items[i].tone) && f[i].tone == items[i].tone.value
  {
    forall i | 0 <= i < |items|
      ensures Present(items[i].tone) && f[i].tone == items[i].tone.value
    {
      FormattedKeepsValidTone(items, f, now, i);
    }
  }

  /**
   * Five of the fifteen formatted mock emails are complaints, a third of
   * the inbox, so only the low complaint banner shows.
   */
  lemma MockInbox(now: string)
    ensures ComplaintCount(FormatEmailData(EmailsList(MockResponse), now)) == 5
    ensures ComplaintRatioFlags(FormatEmailData(EmailsList(MockResponse), now)) == ComplaintFlags(high := false, medium := false, low := true)
  {
    var f := FormatEmailData(EmailsList(MockResponse), now);
    MockTones();
    FormatKeepsValidTones(MockEmails, f, now);
    ComplaintsAtMockPositions(f);
  }
}
