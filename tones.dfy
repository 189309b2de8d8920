/**
 * Tone labels of inbound emails: normalisation of a label supplied by the
 * backend, and the keyword classifier used when no label is supplied.
 */
module Tones {
  import opened Wrappers
  import opened Text
  import opened JsValues

  const ComplaintTone := "#Complaint"
  const AppreciationTone := "#Appreciation"
  const FeedbackTone := "#Feedback"
  const GenericTone := "#Generic"

  /** The four valid tones, in the order the label lookup tries them. */
  const ValidTones: seq<string> := [ComplaintTone, AppreciationTone, FeedbackTone, GenericTone]

  /** The first candidate whose lower-cased form is `lowered` (`Array.prototype.find`). */
  function FindTone(candidates: seq<string>, lowered: string): (r: Option<string>)
    ensures r.Some? ==> r.value in candidates && Lower(r.value) == lowered
    ensures r.None? ==> forall i :: 0 <= i < |candidates| ==> Lower(candidates[i]) != lowered
  {
    if candidates == [] then None
    else if Lower(candidates[0]) == lowered then Some(candidates[0])
    else FindTone(candidates[1..], lowered)
  }

  /** `s` with a `#` put in front unless it already starts with one. */
  function WithHash(s: string): (r: string)
    ensures StartsWith(r, "#")
  {
    if StartsWith(s, "#") then s else "#" + s
  }

  /**
   * Maps a raw tone label onto one of the four valid tones: a falsy label is
   * generic; otherwise the label is trimmed, given a leading `#` and matched
   * case-insensitively, and an unknown label is generic.
   */
  function NormalizeTone(tone: Option<string>): (r: string)
    ensures r in ValidTones
    ensures !Present(tone) ==> r == GenericTone
    ensures r != GenericTone ==> Present(tone) && Lower(WithHash(Trim(tone.value))) == Lower(r)
  {
    if !Present(tone) then GenericTone
    else FindTone(ValidTones, Lower(WithHash(Trim(tone.value)))).GetOr(GenericTone)
  }

  /** The four valid tones differ in length, so their lower-cased forms are distinct. */
  lemma ValidTonesDistinctLengths(u: string, v: string)
    requires u in ValidTones && v in ValidTones && |u| == |v|
    ensures u == v
  {
  }

  /** A label whose trimmed, `#`-prefixed form matches a valid tone case-insensitively normalises to that tone. */
  lemma NormalizeToneMatches(v: string, s: string)
    requires v in ValidTones && s != ""
    requires Lower(WithHash(Trim(s))) == Lower(v)
    ensures NormalizeTone(Some(s)) == v
  {
    var lowered := Lower(WithHash(Trim(s)));
    var r := FindTone(ValidTones, lowered);
    ValidTonesDistinctLengths(r.value, v);
  }

  /**
   * Every spelling of a valid tone is accepted: any letter case, with or
   * without the leading `#`, with spaces around it (`" complaint "`,
   * `"#COMPLAINT"`).
   */
  lemma NormalizeToneAcceptsVariants(v: string, pre: string, core: string, post: string)
    requires v in ValidTones
    requires IsBlank(pre) && IsBlank(post)
    requires core != [] && !IsSpace(core[0]) && !IsSpace(core[|core| - 1])
    requires (StartsWith(core, "#") && Lower(core) == Lower(v)) || (!StartsWith(core, "#") && Lower("#" + core) == Lower(v))
    ensures NormalizeTone(Some(pre + core + post)) == v
  {
    TrimPadded(pre, core, post);
    NormalizeToneMatches(v, pre + core + post);
  }

  /** A valid tone is its own normal form. */
  lemma NormalizeValidTone(v: string)
    requires v in ValidTones
    ensures NormalizeTone(Some(v)) == v
  {
    assert StartsWith(v, "#") && !IsSpace(v[0]) && !IsSpace(v[|v| - 1]);
    TrimPadded([], v, []);
    assert [] + v + [] == v;
    NormalizeToneMatches(v, v);
  }

  /** Normalising an already normalised tone changes nothing. */
  lemma NormalizeToneIdempotent(tone: Option<string>)
    ensures NormalizeTone(Some(NormalizeTone(tone))) == NormalizeTone(tone)
  {
    NormalizeValidTone(NormalizeTone(tone));
  }

  /** Spaces around a label and its letter case do not matter, and the `#` is optional. */
  lemma NormalizeTonePaddedLowerCase()
    ensures NormalizeTone(Some(" " + "complaint" + " ")) == ComplaintTone
  {
    var core := "complaint";
    assert core[0] == 'c' && core[|core| - 1] == 't';
    assert IsBlank(" ");
    assert !StartsWith(core, "#") by { assert core[..1][0] == 'c'; }
    assert Lower("#" + core) == Lower(ComplaintTone) by {
      assert "#" + core == "#complaint";
      assert Lower("#complaint") == "#complaint" == Lower(ComplaintTone);
    }
    NormalizeToneAcceptsVariants(ComplaintTone, " ", core, " ");

  }

  lemma NormalizeToneUpperCase()
    ensures NormalizeTone(Some("#COMPLAINT")) == ComplaintTone
  {
    assert Lower("#COMPLAINT") == Lower(ComplaintTone);
    NormalizeToneAcceptsVariants(ComplaintTone, "", "#COMPLAINT", "");
    assert "" + "#COMPLAINT" + "" == "#COMPLAINT";
  }

  /** A label whose trimmed, `#`-prefixed form is as long as no valid tone is generic. */
  lemma NormalizeToneLengthMismatch(s: string)
    requires s != ""
    requires forall v :: v in ValidTones ==> |WithHash(Trim(s))| != |v|
    ensures NormalizeTone(Some(s)) == GenericTone
  {
    var lowered := Lower(WithHash(Trim(s)));
    assert forall v :: v in ValidTones ==> |Lower(v)| != |lowered|;
  }

  /** A word that is not a tone is generic. */
  lemma NormalizeToneUnknown()
    ensures NormalizeTone(Some("urgent")) == GenericTone
  {
    TrimPadded("", "urgent", "");
    assert "" + "urgent" + "" == "urgent";
    assert |WithHash("urgent")| == 7;
    NormalizeToneLengthMismatch("urgent");
  }

  const ComplaintKeywords: seq<string> := [
    "not working", "broken", "issue", "problem", "error", "bug", "disappointed",
    "complaint", "refund", "cancel", "unhappy", "dissatisfied", "terrible",
    "worst", "horrible", "frustrated", "angry", "upset", "failed", "failure"
  ]

  const AppreciationKeywords: seq<string> := [
    "thank", "thanks", "appreciate", "grateful", "great", "excellent", "amazing",
    "love", "wonderful", "fantastic", "awesome", "perfect", "brilliant",
    "outstanding", "impressed", "pleased", "satisfied", "happy"
  ]

  const FeedbackKeywords: seq<string> := [
    "suggestion", "feedback", "improve", "improvement", "feature", "recommend",
    "recommendation", "idea", "thought", "opinion", "consider", "should",
    "could", "would be nice", "wish", "hope"
  ]

  /** `keywords.some(k => text.includes(k))`. */
  function AnyIncluded(text: string, keywords: seq<string>): (r: bool)
    ensures r <==> exists i :: 0 <= i < |keywords| && Includes(text, keywords[i])
  {
    if keywords == [] then false
    else Includes(text, keywords[0]) || AnyIncluded(text, keywords[1..])
  }

  /** The text the classifier searches: subject and body joined by a space, lower-cased. */
  function ContentText(subject: string, body: string): string {
    Lower(subject + " " + body)
  }

  /**
   * Classifies an email by exact-substring keyword search, in priority
   * order: complaint, then appreciation, then feedback, then generic.
   */
  function DetectToneFromContent(subject: string, body: string): (r: string)
    ensures r in ValidTones
    ensures r == ComplaintTone <==> AnyIncluded(ContentText(subject, body), ComplaintKeywords)
    ensures r == AppreciationTone <==>
              !AnyIncluded(ContentText(subject, body), ComplaintKeywords)
              && AnyIncluded(ContentText(subject, body), AppreciationKeywords)
    ensures r == FeedbackTone <==>
              !AnyIncluded(ContentText(subject, body), ComplaintKeywords)
              && !AnyIncluded(ContentText(subject, body), AppreciationKeywords)
              && AnyIncluded(ContentText(subject, body), FeedbackKeywords)
    ensures r == GenericTone <==>
              !AnyIncluded(ContentText(subject, body), ComplaintKeywords)
              && !AnyIncluded(ContentText(subject, body), AppreciationKeywords)
              && !AnyIncluded(ContentText(subject, body), FeedbackKeywords)
  {
    var text := ContentText(subject, body);
    if AnyIncluded(text, ComplaintKeywords) then ComplaintTone
    else if AnyIncluded(text, AppreciationKeywords) then AppreciationTone
    else if AnyIncluded(text, FeedbackKeywords) then FeedbackTone
    else GenericTone
  }

  /** The priority of a tone in the classifier: complaint highest, generic lowest. */
  function Priority(tone: string): nat {
    if tone == ComplaintTone then 3
    else if tone == AppreciationTone then 2
    else if tone == FeedbackTone then 1
    else 0
  }

  /** A keyword found in a text is still found once more text surrounds it. */
  lemma AnyIncludedExtended(pre: string, text: string, post: string, keywords: seq<string>)
    requires AnyIncluded(text, keywords)
    ensures AnyIncluded(pre + text + post, keywords)
  {
    var i :| 0 <= i < |keywords| && Includes(text, keywords[i]);
    IncludesExtended(pre, text, post, keywords[i]);
  }

  /**
   * Adding text before the subject or after the body never lowers the
   * classification in the priority order: a complaint stays a complaint,
   * whatever else is added.
   */
  lemma DetectToneMonotone(subject: string, body: string, pre: string, post: string)
    ensures Priority(DetectToneFromContent(subject, body)) <= Priority(DetectToneFromContent(pre + subject, body + post))
  {
    var text := ContentText(subject, body);
    assert (pre + subject) + " " + (body + post) == pre + (subject + " " + body) + post;
    LowerConcat(pre + (subject + " " + body), post);
    LowerConcat(pre, subject + " " + body);
    assert ContentText(pre + subject, body + post) == Lower(pre) + text + Lower(post);
    if AnyIncluded(text, ComplaintKeywords) {
      AnyIncludedExtended(Lower(pre), text, Lower(post), ComplaintKeywords);
    } else if AnyIncluded(text, AppreciationKeywords) {
      AnyIncludedExtended(Lower(pre), text, Lower(post), AppreciationKeywords);
    } else if AnyIncluded(text, FeedbackKeywords) {
      AnyIncludedExtended(Lower(pre), text, Lower(post), FeedbackKeywords);
    }
  }

  /** No keyword occurs in a text that lacks, for each keyword, one of its characters. */
  lemma NoneIncluded(text: string, keywords: seq<string>, missing: seq<char>)
    requires |missing| == |keywords|
    requires forall i :: 0 <= i < |keywords| ==> missing[i] in keywords[i] && missing[i] !in text
    ensures !AnyIncluded(text, keywords)
  {
    forall i | 0 <= i < |keywords| ensures !Includes(text, keywords[i]) {
      IncludedCharsOccur(text, keywords[i], missing[i]);
    }
  }

  /** A keyword that occurs somewhere in a text is found by the keyword search. */
  lemma KeywordFound(text: string, keywords: seq<string>, k: int, i: int)
    requires 0 <= k < |keywords| && OccursAt(text, keywords[k], i)
    ensures AnyIncluded(text, keywords)
  {
    assert Includes(text, keywords[k]);
  }

  /** The text searched for the subject "Product not working" and an empty body. */
  lemma ProductNotWorkingText()
    ensures ContentText("Product not working", "") == "product not working "
  {
  }

  /** A complaint keyword decides the tone. */
  lemma DetectComplaintExample()
    ensures DetectToneFromContent("Product not working", "") == ComplaintTone
  {
    ProductNotWorkingText();
    assert ComplaintKeywords[0] == "not working";
    KeywordFound("product not working ", ComplaintKeywords, 0, 8);
  }

  /** The text searched for the subject "Thank you for fixing the issue" and an empty body. */
  lemma FixingTheIssueText()
    ensures ContentText("Thank you for fixing the issue", "") == "thank you for fixing the issue "
  {
  }

  /** Complaint beats appreciation: thanks do not outweigh a complaint keyword. */
  lemma DetectComplaintBeatsThanks()
    ensures DetectToneFromContent("Thank you for fixing the issue", "") == ComplaintTone
  {
    FixingTheIssueText();
    assert ComplaintKeywords[2] == "issue";
    KeywordFound("thank you for fixing the issue ", ComplaintKeywords, 2, 25);
  }

  /** The text searched for an empty subject and the body "I am unhappy". */
  lemma UnhappyText()
    ensures ContentText("", "I am unhappy") == " i am unhappy"
  {
  }

  /** The search is by substring, not by word: "unhappy" is a complaint although it contains "happy". */
  lemma DetectSubstringNotWord()
    ensures DetectToneFromContent("", "I am unhappy") == ComplaintTone
  {
    UnhappyText();
    assert ComplaintKeywords[10] == "unhappy";
    KeywordFound(" i am unhappy", ComplaintKeywords, 10, 6);
  }

  /** The text searched for the subject "Thank you so much" and an empty body. */
  lemma ThankYouText()
    ensures ContentText("Thank you so much", "") == "thank you so much "
  {
  }

  /** No complaint keyword occurs in "thank you so much ": each has a letter the text lacks. */
  lemma ThankYouNoComplaint()
    ensures !AnyIncluded(ContentText("Thank you so much", ""), ComplaintKeywords)
  {
    ThankYouLetters();
    ThanksLackComplaintLetters(ContentText("Thank you so much", ""));
  }

  /** The searched text of "Thank you so much" has none of the letters of "wbipedrfg". */
  lemma ThankYouLetters()
    ensures forall c :: c in "wbipedrfg" ==> c !in ContentText("Thank you so much", "")
  {
    ThankYouText();
  }

  /** A text without the letters of "wbipedrfg" holds no complaint keyword. */
  lemma ThanksLackComplaintLetters(text: string)
    requires forall c :: c in "wbipedrfg" ==> c !in text
    ensures !AnyIncluded(text, ComplaintKeywords)
  {
    NoneIncluded(text, ComplaintKeywords, "wbipebdprepdewrfgpff");
  }

  /** "thank" opens "thank you so much ". */
  lemma ThankYouAppreciation()
    ensures AnyIncluded(ContentText("Thank you so much", ""), AppreciationKeywords)
  {
    ThankYouText();
    assert AppreciationKeywords[0] == "thank";
    KeywordFound("thank you so much ", AppreciationKeywords, 0, 0);
  }

  /** Without a complaint keyword, a word of thanks makes the email an appreciation. */
  lemma DetectAppreciationExample()
    ensures DetectToneFromContent("Thank you so much", "") == AppreciationTone
  {
    ThankYouNoComplaint();
    ThankYouAppreciation();
  }
}
