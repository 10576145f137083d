/**
  Reply synthesis: the sender's display name, the choice of one of four
  reply templates by priority and sentiment, the extra sentence for thanks
  or escalation, and the filled-in reply, including the fallback reply and
  the crash when the sender itself is missing.
*/
module ResponseSynthesizer {
  import opened Wrappers
  import opened Strings
  import opened SentimentClassifier
  import opened UrgencyScorer
  import opened KnowledgeMatcher

  // ---------------------------------------------------------------------
  // Sender name

  /** `sender.split('@')[0]`: everything before the first '@'. */
  function LocalPart(sender: string): string
  {
    Split(sender, "@")[0]
  }

  lemma LocalPartSpec(sender: string)
    ensures var l := LocalPart(sender);
      |l| <= |sender| && l == sender[..|l|] && '@' !in l
      && (|l| < |sender| ==> sender[|l|] == '@')
  {
    match FindFrom(sender, "@", 0)
    case None =>
      forall k | 0 <= k < |sender| ensures sender[k] != '@' {
        assert !OccursAt(sender, "@", k);
        assert sender[k..k + 1] == [sender[k]];
      }
    case Some(i) =>
      var l := sender[..i];
      forall k | 0 <= k < i ensures l[k] != '@' {
        assert !OccursAt(sender, "@", k);
        assert sender[k..k + 1] == [sender[k]];
      }
      assert sender[i..i + 1] == "@";
  }

  /** `s.replace(from, to)` for single characters. */
  function ReplaceChar(s: string, from: char, to: char): string
  {
    seq(|s|, i requires 0 <= i < |s| => if s[i] == from then to else s[i])
  }

  /** `str.title()` over ASCII, scanning left to right: a letter that
      follows a cased letter is lowered, any other character is raised. */
  function TitleFrom(s: string, previousIsCased: bool): string
    decreases |s|
  {
    if |s| == 0 then ""
    else
      var c := if previousIsCased then ToLower(s[0]) else ToUpper(s[0]);
      [c] + TitleFrom(s[1..], IsCased(s[0]))
  }

  function Title(s: string): string
  {
    TitleFrom(s, false)
  }

  /** Title case position by position: a character is lowered exactly when
      the character before it has case, and raised otherwise. */
  predicate IsTitleOf(t: string, s: string)
  {
    |t| == |s| && forall i :: 0 <= i < |s| ==> t[i] == TitleCharAt(s, i)
  }

  function TitleCharAt(s: string, i: nat): char
    requires i < |s|
  {
    if i > 0 && IsCased(s[i - 1]) then ToLower(s[i]) else ToUpper(s[i])
  }

  lemma TitleChar(t: string, s: string, i: nat)
    requires IsTitleOf(t, s) && i < |s|
    ensures t[i] == ToLower(s[i]) || t[i] == ToUpper(s[i])
  {
    assert t[i] == TitleCharAt(s, i);
  }

  lemma {:induction false} TitleFromSpec(s: string, previousIsCased: bool)
    decreases |s|
    ensures var t := TitleFrom(s, previousIsCased);
      |t| == |s|
      && (|s| > 0 ==> t[0] == (if previousIsCased then ToLower(s[0]) else ToUpper(s[0])))
      && forall i :: 0 < i < |s| ==>
           t[i] == (if IsCased(s[i - 1]) then ToLower(s[i]) else ToUpper(s[i]))
  {
    if |s| > 0 {
      TitleFromSpec(s[1..], IsCased(s[0]));
      var t := TitleFrom(s, previousIsCased);
      forall i | 0 < i < |s|
        ensures t[i] == (if IsCased(s[i - 1]) then ToLower(s[i]) else ToUpper(s[i]))
      {
        assert t[i] == TitleFrom(s[1..], IsCased(s[0]))[i - 1];
        assert s[1..][i - 1] == s[i];
        if i > 1 { assert s[1..][i - 2] == s[i - 1]; }
      }
    }
  }

  lemma TitleSpec(s: string)
    ensures IsTitleOf(Title(s), s)
  {
    TitleFromSpec(s, false);
  }

  lemma CaseKeepsCasedness(c: char)
    ensures IsCased(ToLower(c)) == IsCased(c) && IsCased(ToUpper(c)) == IsCased(c)
    ensures ToLower(ToLower(c)) == ToLower(c) && ToLower(ToUpper(c)) == ToLower(c)
    ensures ToUpper(ToLower(c)) == ToUpper(c) && ToUpper(ToUpper(c)) == ToUpper(c)
  {
  }

  /** Title-casing a title-cased string changes nothing. */
  lemma TitleIdempotent(s: string)
    ensures Title(Title(s)) == Title(s)
  {
    var t := Title(s);
    TitleSpec(s);
    TitleSpec(t);
    var u := Title(t);
    forall i | 0 <= i < |s| ensures u[i] == t[i] {
      CaseKeepsCasedness(s[i]);
      if i > 0 {
        CaseKeepsCasedness(s[i - 1]);
        TitleChar(t, s, i - 1);
        assert IsCased(t[i - 1]) == IsCased(s[i - 1]);
      }
    }
  }

  /** The display name: the part of the sender address before the first
      '@', with every dot turned into a space, then title-cased. */
  function SenderName(sender: string): string
  {
    Title(ReplaceChar(LocalPart(sender), '.', ' '))
  }

  /** The display name has one character per character of the local part:
      dots become spaces and letters are title-cased; no '@' and no '.'
      survive. */
  lemma SenderNameSpec(sender: string)
    ensures var l := LocalPart(sender);
      var name := SenderName(sender);
      |name| == |l| && '@' !in name && '.' !in name
      && IsTitleOf(name, ReplaceChar(l, '.', ' '))
  {
    var l := LocalPart(sender);
    LocalPartSpec(sender);
    var r := ReplaceChar(l, '.', ' ');
    TitleSpec(r);
    var name := SenderName(sender);
    forall i | 0 <= i < |name| ensures name[i] != '@' && name[i] != '.' {
      assert r[i] != '@' && r[i] != '.';
      TitleChar(name, r, i);
    }
  }

  // ---------------------------------------------------------------------
  // Templates

  /** The four named fields a template may refer to. */
  datatype Placeholder = SenderNameField | SolutionField | TicketIdField | AdditionalInfoField

  /** The literal passages of the four templates. Each passage is named
      so that a template is a short list of names and placeholders. */
  datatype Passage =
    | DearGreeting | HelloGreeting | ParagraphBreak
    | UrgentNegativeOpening | UrgentNegativeTicketLine | UrgentNegativeClosing
    | UrgentNeutralOpening | UrgentNeutralTicketLine | UrgentNeutralClosing
    | NormalPositiveOpening | NormalPositiveClosing
    | NormalNeutralOpening | NormalNeutralClosing

  function PassageText(p: Passage): string
  {
    match p
    case DearGreeting => "Dear "
    case HelloGreeting => "Hello "
    case ParagraphBreak => "\n\n"
    case UrgentNegativeOpening =>
      ",\n\nThank you for reaching out, and I sincerely apologize for the urgent issue you're experiencing. I understand how critical this situation is for you.\n\nI'm prioritizing your request and escalating it to our specialized team immediately. Here's what we're doing to resolve this:\n\n"
    case UrgentNegativeTicketLine => "\n\nExpected resolution time: Within 2 hours\nTicket reference: #"
    case UrgentNegativeClosing =>
      "\n\nI'll personally monitor this case and update you every 30 minutes until resolved. You can also reach our emergency support line at +1-800-SUPPORT.\n\nWe truly appreciate your patience during this critical situation.\n\nBest regards,\nAI Support Assistant\nCustomer Success Team"
    case UrgentNeutralOpening =>
      ",\n\nThank you for your urgent request. I understand the importance of resolving this quickly.\n\nI'm prioritizing your case and here's how we can address this:\n\n"
    case UrgentNeutralTicketLine => "\n\nExpected resolution time: Within 4 hours\nPriority ticket: #"
    case UrgentNeutralClosing =>
      "\n\nI'll keep you updated on our progress. For immediate assistance, please call our priority support line.\n\nBest regards,\nAI Support Assistant\nCustomer Success Team"
    case NormalPositiveOpening =>
      ",\n\nThank you for your message! We're delighted to hear from you and appreciate your continued trust in our services.\n\n"
    case NormalPositiveClosing =>
      "\n\nIf you need any further assistance or have additional questions, please don't hesitate to reach out. We're here to ensure you have the best possible experience.\n\nBest regards,\nAI Support Assistant\nCustomer Success Team"
    case NormalNeutralOpening =>
      ",\n\nThank you for contacting us. We're here to help with your inquiry.\n\n"
    case NormalNeutralClosing =>
      "\n\nIf this doesn't resolve your issue or if you have any other questions, please let us know. We're committed to providing you with the support you need.\n\nBest regards,\nAI Support Assistant\nCustomer Success Team"
  }

  /** A reply template as literal passages interleaved with placeholders. */
  datatype Segment = Lit(passage: Passage) | Hole(field: Placeholder)

  type Template = seq<Segment>

  /** The keyword arguments passed to `str.format`. */
  datatype FormatArgs = FormatArgs(
    senderName: string, solution: string, ticketId: string, additionalInfo: string)

  function ValueOf(args: FormatArgs, p: Placeholder): string
  {
    match p
    case SenderNameField => args.senderName
    case SolutionField => args.solution
    case TicketIdField => args.ticketId
    case AdditionalInfoField => args.additionalInfo
  }

  function SegmentText(s: Segment, args: FormatArgs): string
  {
    match s
    case Lit(p) => PassageText(p)
    case Hole(p) => ValueOf(args, p)
  }

  /** The template with every placeholder replaced by its value, in order. */
  function Fill(t: Template, args: FormatArgs): string
    decreases |t|
  {
    if |t| == 0 then "" else SegmentText(t[0], args) + Fill(t[1..], args)
  }

  lemma {:induction false} FillAppend(t1: Template, t2: Template, args: FormatArgs)
    decreases |t1|
    ensures Fill(t1 + t2, args) == Fill(t1, args) + Fill(t2, args)
  {
    if |t1| == 0 {
      assert t1 + t2 == t2;
    } else {
      assert (t1 + t2)[1..] == t1[1..] + t2;
      FillAppend(t1[1..], t2, args);
    }
  }

  /** A field the template refers to shows up in the filled text. */
  lemma FillShowsField(t: Template, args: FormatArgs, p: Placeholder)
    requires Hole(p) in t
    ensures Contains(Fill(t, args), ValueOf(args, p))
  {
    var j :| 0 <= j < |t| && t[j] == Hole(p);
    assert t == t[..j] + ([t[j]] + t[j + 1..]);
    FillAppend(t[..j], [t[j]] + t[j + 1..], args);
    FillAppend([t[j]], t[j + 1..], args);
    assert Fill([t[j]], args) == ValueOf(args, p);
    assert Fill(t, args) == Fill(t[..j], args) + ValueOf(args, p) + Fill(t[j + 1..], args);
    ContainsMiddle(Fill(t[..j], args), ValueOf(args, p), Fill(t[j + 1..], args));
  }

  /** A field the template does not refer to has no effect on the text. */
  lemma {:induction false} FillIgnoresAbsentFields(t: Template, args: FormatArgs, other: FormatArgs)
    requires forall p :: Hole(p) in t ==> ValueOf(args, p) == ValueOf(other, p)
    decreases |t|
    ensures Fill(t, args) == Fill(t, other)
  {
    if |t| > 0 {
      assert forall s :: s in t[1..] ==> s in t;
      FillIgnoresAbsentFields(t[1..], args, other);
      if t[0].Hole? {
        assert Hole(t[0].field) in t;
      }
    }
  }

  const UrgentNegativeTemplate: Template := [
    Lit(DearGreeting), Hole(SenderNameField), Lit(UrgentNegativeOpening), Hole(SolutionField),
    Lit(UrgentNegativeTicketLine), Hole(TicketIdField), Lit(UrgentNegativeClosing)]

  const NormalPositiveTemplate: Template := [
    Lit(HelloGreeting), Hole(SenderNameField), Lit(NormalPositiveOpening), Hole(SolutionField),
    Lit(ParagraphBreak), Hole(AdditionalInfoField), Lit(NormalPositiveClosing)]

  const NormalNeutralTemplate: Template := [
    Lit(HelloGreeting), Hole(SenderNameField), Lit(NormalNeutralOpening), Hole(SolutionField),
    Lit(ParagraphBreak), Hole(AdditionalInfoField), Lit(NormalNeutralClosing)]

  const UrgentNeutralTemplate: Template := [
    Lit(DearGreeting), Hole(SenderNameField), Lit(UrgentNeutralOpening), Hole(SolutionField),
    Lit(UrgentNeutralTicketLine), Hole(TicketIdField), Lit(UrgentNeutralClosing)]

  /** The template table, keyed by `priority_sentiment`. */
  const ResponseTemplates: map<string, Template> := map[
    "urgent_negative" := UrgentNegativeTemplate,
    "normal_positive" := NormalPositiveTemplate,
    "normal_neutral" := NormalNeutralTemplate,
    "urgent_neutral" := UrgentNeutralTemplate]

  const FallbackTemplateKey: string := "normal_neutral"

  /** `f"{priority}_{sentiment}"`, or `normal_neutral` when no template has
      that key. */
  function SelectTemplateKey(priority: string, sentiment: string): (key: string)
    ensures key in ResponseTemplates
  {
    var candidate := priority + "_" + sentiment;
    if candidate in ResponseTemplates then candidate else FallbackTemplateKey
  }

  /** Every template greets the sender and states the solution; the urgent
      ones quote the ticket and have no place for the additional sentence,
      the normal ones the other way round. */
  lemma TemplateFields(key: string)
    requires key in ResponseTemplates
    ensures Hole(SenderNameField) in ResponseTemplates[key]
    ensures Hole(SolutionField) in ResponseTemplates[key]
    ensures Hole(TicketIdField) in ResponseTemplates[key] <==> key == "urgent_negative" || key == "urgent_neutral"
    ensures Hole(AdditionalInfoField) in ResponseTemplates[key] <==> key == "normal_positive" || key == "normal_neutral"
  {
    var t := ResponseTemplates[key];
    assert t[1] == Hole(SenderNameField) && t[3] == Hole(SolutionField);
    if key == "urgent_negative" || key == "urgent_neutral" {
      assert t[5] == Hole(TicketIdField);
    } else {
      assert t[5] == Hole(AdditionalInfoField);
    }
  }

  /** For the labels the classifiers produce: four combinations have their
      own template, while an urgent positive and a normal negative email
      both fall back to the normal neutral template. */
  lemma TemplateKeyForLabels(priority: Priority, sentiment: Sentiment)
    ensures SelectTemplateKey(priority.Name(), sentiment.Name()) ==
      match (priority, sentiment)
      case (Urgent, Negative) => "urgent_negative"
      case (Urgent, Neutral) => "urgent_neutral"
      case (Normal, Positive) => "normal_positive"
      case (Normal, Neutral) => "normal_neutral"
      case (Urgent, Positive) => "normal_neutral"
      case (Normal, Negative) => "normal_neutral"
  {
    var candidate := priority.Name() + "_" + sentiment.Name();
    match (priority, sentiment)
    case (Urgent, Negative) => assert candidate == "urgent_negative";
    case (Urgent, Neutral) => assert candidate == "urgent_neutral";
    case (Normal, Positive) => assert candidate == "normal_positive";
    case (Normal, Neutral) => assert candidate == "normal_neutral";
    case (Urgent, Positive) =>
      assert candidate[0] == 'u' && candidate[7] == 'p' && |candidate| == 15;
    case (Normal, Negative) =>
      assert candidate[0] == 'n' && candidate[7] == 'n' && |candidate| == 15;
  }

  // ---------------------------------------------------------------------
  // Additional sentence and the reply

  const GratitudeNote: string := "We truly appreciate your positive feedback!"
  const EscalationPrefix: string := "This case has been escalated. "

  /** The sentence for `{additional_info}`: thanks take precedence over
      escalation, and a normal email without thanks gets nothing. */
  function AdditionalInfo(body: string, priority: string, escalation: string): string
  {
    if Contains(Lower(body), "thank") then GratitudeNote
    else if priority == "urgent" then EscalationPrefix + escalation
    else ""
  }

  /** The reply built from a chosen solution and ticket id. */
  function ReplyFor(senderName: string, sentiment: string, priority: string, body: string,
                    solution: Solution, ticketId: string): string
  {
    var key := SelectTemplateKey(priority, sentiment);
    var info := AdditionalInfo(body, priority, solution.escalation);
    Fill(ResponseTemplates[key], FormatArgs(senderName, solution.text, ticketId, info))
  }

  /** Every reply greets the sender by name and states the solution. */
  lemma ReplyShowsNameAndSolution(senderName: string, sentiment: string, priority: string,
                                  body: string, solution: Solution, ticketId: string)
    ensures Contains(ReplyFor(senderName, sentiment, priority, body, solution, ticketId), senderName)
    ensures Contains(ReplyFor(senderName, sentiment, priority, body, solution, ticketId), solution.text)
  {
    var key := SelectTemplateKey(priority, sentiment);
    var args := FormatArgs(senderName, solution.text, ticketId, AdditionalInfo(body, priority, solution.escalation));
    TemplateFields(key);
    FillShowsField(ResponseTemplates[key], args, SenderNameField);
    FillShowsField(ResponseTemplates[key], args, SolutionField);
  }

  /** An urgent negative or urgent neutral email gets a reply that quotes
      the ticket but does not depend on the body or the escalation note:
      its template has no place for the additional sentence. */
  lemma UrgentReplyOmitsAdditionalInfo(senderName: string, sentiment: string, body: string,
                                       solution: Solution, ticketId: string,
                                       otherBody: string, otherEscalation: string)
    requires sentiment == "negative" || sentiment == "neutral"
    ensures ReplyFor(senderName, sentiment, "urgent", body, solution, ticketId)
      == ReplyFor(senderName, sentiment, "urgent", otherBody, Solution(solution.text, otherEscalation), ticketId)
    ensures Contains(ReplyFor(senderName, sentiment, "urgent", body, solution, ticketId), ticketId)
  {
    var key := SelectTemplateKey("urgent", sentiment);
    if sentiment == "negative" {
      TemplateKeyForLabels(Urgent, Negative);
    } else {
      TemplateKeyForLabels(Urgent, Neutral);
    }
    var args := FormatArgs(senderName, solution.text, ticketId,
                           AdditionalInfo(body, "urgent", solution.escalation));
    var other := FormatArgs(senderName, solution.text, ticketId,
                            AdditionalInfo(otherBody, "urgent", otherEscalation));
    if sentiment == "negative" {
      UrgentNegativeIgnoresAdditionalInfo(args, other);
    } else {
      UrgentNeutralIgnoresAdditionalInfo(args, other);
    }
  }

  lemma UrgentNegativeIgnoresAdditionalInfo(args: FormatArgs, other: FormatArgs)
    requires args.(additionalInfo := other.additionalInfo) == other
    ensures Fill(ResponseTemplates["urgent_negative"], args) == Fill(ResponseTemplates["urgent_negative"], other)
    ensures Contains(Fill(ResponseTemplates["urgent_negative"], args), args.ticketId)
  {
    var t := UrgentNegativeTemplate;
    assert ResponseTemplates["urgent_negative"] == t;
    assert Hole(AdditionalInfoField) !in t && t[5] == Hole(TicketIdField);
    FillIgnoresAbsentFields(t, args, other);
    FillShowsField(t, args, TicketIdField);
  }

  lemma UrgentNeutralIgnoresAdditionalInfo(args: FormatArgs, other: FormatArgs)
    requires args.(additionalInfo := other.additionalInfo) == other
    ensures Fill(ResponseTemplates["urgent_neutral"], args) == Fill(ResponseTemplates["urgent_neutral"], other)
    ensures Contains(Fill(ResponseTemplates["urgent_neutral"], args), args.ticketId)
  {
    var t := UrgentNeutralTemplate;
    assert ResponseTemplates["urgent_neutral"] == t;
    assert Hole(AdditionalInfoField) !in t && t[5] == Hole(TicketIdField);
    FillIgnoresAbsentFields(t, args, other);
    FillShowsField(t, args, TicketIdField);
  }

  /** The only way the escalation note reaches a reply: an urgent email
      classified positive falls back to the normal neutral template, which
      does carry the additional sentence. */
  lemma UrgentPositiveReplyShowsEscalation(senderName: string, body: string,
                                           solution: Solution, ticketId: string)
    requires !Contains(Lower(body), "thank")
    ensures Contains(ReplyFor(senderName, "positive", "urgent", body, solution, ticketId),
                     EscalationPrefix + solution.escalation)
  {
    var key := SelectTemplateKey("urgent", "positive");
    TemplateKeyForLabels(Urgent, Positive);
    var args := FormatArgs(senderName, solution.text, ticketId,
                           AdditionalInfo(body, "urgent", solution.escalation));
    NormalNeutralShowsAdditionalInfo(args);
  }

  lemma NormalNeutralShowsAdditionalInfo(args: FormatArgs)
    ensures Contains(Fill(ResponseTemplates["normal_neutral"], args), args.additionalInfo)
  {
    var t := NormalNeutralTemplate;
    assert ResponseTemplates["normal_neutral"] == t;
    assert t[5] == Hole(AdditionalInfoField);
    FillShowsField(t, args, AdditionalInfoField);
  }

  lemma NormalPositiveShowsAdditionalInfo(args: FormatArgs)
    ensures Contains(Fill(ResponseTemplates["normal_positive"], args), args.additionalInfo)
  {
    var t := NormalPositiveTemplate;
    assert ResponseTemplates["normal_positive"] == t;
    assert t[5] == Hole(AdditionalInfoField);
    FillShowsField(t, args, AdditionalInfoField);
  }

  /** Thanks in the body put the gratitude sentence into any reply whose
      template has room for it, whatever the priority. */
  lemma ThankfulReplyShowsGratitude(senderName: string, sentiment: string, priority: string,
                                    body: string, solution: Solution, ticketId: string)
    requires Contains(Lower(body), "thank")
    requires SelectTemplateKey(priority, sentiment) in {"normal_positive", "normal_neutral"}
    ensures Contains(ReplyFor(senderName, sentiment, priority, body, solution, ticketId), GratitudeNote)
  {
    var key := SelectTemplateKey(priority, sentiment);
    var args := FormatArgs(senderName, solution.text, ticketId,
                           AdditionalInfo(body, priority, solution.escalation));
    if key == "normal_neutral" {
      NormalNeutralShowsAdditionalInfo(args);
    } else {
      NormalPositiveShowsAdditionalInfo(args);
    }
  }

  /** A normal-priority email without thanks gets an empty additional
      sentence, so its reply does not depend on the escalation note. */
  lemma NormalReplyIgnoresEscalation(senderName: string, sentiment: string, body: string,
                                     solution: Solution, ticketId: string, otherEscalation: string)
    requires !Contains(Lower(body), "thank")
    ensures ReplyFor(senderName, sentiment, "normal", body, solution, ticketId)
      == ReplyFor(senderName, sentiment, "normal", body, Solution(solution.text, otherEscalation), ticketId)
  {
  }

  /** The reply to an email whose fields are all present. */
  function ComposeReply(senderName: string, sentiment: string, priority: string,
                        keywords: seq<string>, subject: string, body: string,
                        kb: seq<KnowledgeEntry>, timestamp: string): string
  {
    ReplyFor(senderName, sentiment, priority, body, BestSolution(keywords, subject, body, kb), "SUP" + timestamp)
  }

  /** The stored keyword field back as a list: no keywords for the empty
      field, otherwise the pieces between the ", " separators. */
  function ParseKeywordField(field: string): seq<string>
  {
    if field == "" then [] else Split(field, ", ")
  }

  /** The reply when a field other than the sender is missing. */
  function FallbackReply(senderName: string): string
  {
    "Dear " + senderName + FallbackBody
  }

  const FallbackBody: string :=
    ",\n\nThank you for contacting us. We've received your message and will respond within 24 hours.\n\nBest regards,\nSupport Team"

  /** The outcome of `generate_ai_response`: a reply, or the error the
      exception handler itself raises when the sender name was never bound. */
  datatype Outcome = Reply(text: string) | Raised

  const RequiredFields: set<string> := {"sentiment", "priority", "keywords", "subject", "body"}

  /** What the reply writer produces for one dictionary of email fields:
      the crash, the fixed acknowledgement, or the template reply. */
  function ResponseOf(emailData: map<string, string>, kb: seq<KnowledgeEntry>, timestamp: string): Outcome
  {
    if "sender" !in emailData then Raised
    else
      var name := SenderName(emailData["sender"]);
      if !(RequiredFields <= emailData.Keys) then Reply(FallbackReply(name))
      else Reply(ComposeReply(name, emailData["sentiment"], emailData["priority"],
                              ParseKeywordField(emailData["keywords"]),
                              emailData["subject"], emailData["body"], kb, timestamp))
  }

  /** The handler crashes exactly when the sender is missing, and every
      reply it does produce greets the sender by the derived name. */
  lemma ResponseOutcomes(emailData: map<string, string>, kb: seq<KnowledgeEntry>, timestamp: string)
    ensures ResponseOf(emailData, kb, timestamp).Raised? <==> "sender" !in emailData
    ensures ResponseOf(emailData, kb, timestamp).Reply? ==>
      Contains(ResponseOf(emailData, kb, timestamp).text, SenderName(emailData["sender"]))
    ensures ResponseOf(emailData, kb, timestamp).Reply? && !(RequiredFields <= emailData.Keys) ==>
      ResponseOf(emailData, kb, timestamp).text == FallbackReply(SenderName(emailData["sender"]))
  {
    if "sender" in emailData {
      var name := SenderName(emailData["sender"]);
      if !(RequiredFields <= emailData.Keys) {
        ContainsMiddle("Dear ", name, FallbackBody);
      } else {
        var solution := BestSolution(ParseKeywordField(emailData["keywords"]),
                                     emailData["subject"], emailData["body"], kb);
        ReplyShowsNameAndSolution(name, emailData["sentiment"], emailData["priority"],
                                  emailData["body"], solution, "SUP" + timestamp);
      }
    }
  }

  method GenerateAiResponse(emailData: map<string, string>, kb: seq<KnowledgeEntry>, timestamp: string)
    returns (outcome: Outcome)
    ensures outcome == ResponseOf(emailData, kb, timestamp)
  {
    if "sender" !in emailData {
      return Raised;
    }
    var senderName := SenderName(emailData["sender"]);
    if !(RequiredFields <= emailData.Keys) {
      return Reply(FallbackReply(senderName));
    }
    var sentiment := emailData["sentiment"];
    var priority := emailData["priority"];
    var keywords := ParseKeywordField(emailData["keywords"]);
    var solution := FindBestSolution(keywords, emailData["subject"], emailData["body"], kb);
    var templateKey := priority + "_" + sentiment;
    if templateKey !in ResponseTemplates {
      templateKey := FallbackTemplateKey;
    }
    var template := ResponseTemplates[templateKey];
    var ticketId := "SUP" + timestamp;
    var additionalInfo := "";
    if Contains(Lower(emailData["body"]), "thank") {
      additionalInfo := GratitudeNote;
    } else if priority == "urgent" {
      additionalInfo := EscalationPrefix + solution.escalation;
    }
    var response := Fill(template, FormatArgs(senderName, solution.text, ticketId, additionalInfo));
    return Reply(response);
  }
}
