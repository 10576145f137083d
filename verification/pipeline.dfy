/**
  The analysis part of processing one incoming email: classify, score,
  extract, then write the reply from the assembled record. Storing the
  record is not part of this model.
*/
module Pipeline {
  import opened Strings
  import opened SentimentClassifier
  import opened UrgencyScorer
  import opened SignalExtractor
  import opened KnowledgeMatcher
  import opened ResponseSynthesizer

  /** The analysed email as it is handed to storage. */
  datatype EmailRecord = EmailRecord(
    sender: string, subject: string, body: string,
    priority: string, sentiment: string, keywords: string,
    contactInfo: string, requirements: string, dateReceived: string,
    aiResponse: string)

  /** The dictionary `process_email` passes to the reply writer. */
  function EmailData(sender: string, subject: string, body: string, priority: string,
                     sentiment: string, keywords: string, contactInfo: string,
                     requirements: string, dateReceived: string): map<string, string>
  {
    map["sender" := sender, "subject" := subject, "body" := body,
        "priority" := priority, "sentiment" := sentiment, "keywords" := keywords,
        "contact_info" := contactInfo, "requirements" := requirements,
        "date_received" := dateReceived]
  }

  /** The keywords survive being stored as one `", "`-joined string and
      split again by the reply writer. */
  lemma KeywordFieldRoundTrip(text: string)
    ensures ParseKeywordField(Join(KeywordsOf(text), ", ")) == KeywordsOf(text)
  {
    var keywords := KeywordsOf(text);
    KeywordsOfShape(text);
    if |keywords| > 0 {
      assert keywords[0] in keywords;
      JoinStartsWithFirst(keywords, ", ");
      SplitJoin(keywords, ", ");
    }
  }

  /** The reply writer, given the assembled dictionary, finds every field
      and answers with the template reply for the extracted keywords. */
  lemma ReplyForEmailData(sender: string, subject: string, body: string, priority: string,
                          sentiment: string, contactInfo: string, requirements: string,
                          dateReceived: string, kb: seq<KnowledgeEntry>, timestamp: string)
    ensures var keywords := KeywordsOf(subject + " " + body);
      var data := EmailData(sender, subject, body, priority, sentiment, Join(keywords, ", "),
                            contactInfo, requirements, dateReceived);
      ResponseOf(data, kb, timestamp) == Reply(ReplyFor(SenderName(sender), sentiment, priority, body,
                                                         BestSolution(keywords, subject, body, kb),
                                                         "SUP" + timestamp))
  {
    var keywords := KeywordsOf(subject + " " + body);
    var data := EmailData(sender, subject, body, priority, sentiment, Join(keywords, ", "),
                          contactInfo, requirements, dateReceived);
    assert "sender" in data && data["sender"] == sender;
    assert data["sentiment"] == sentiment && data["priority"] == priority;
    assert data["subject"] == subject && data["body"] == body;
    assert data["keywords"] == Join(keywords, ", ");
    assert RequiredFields <= data.Keys;
    KeywordFieldRoundTrip(subject + " " + body);
  }

  method ProcessEmail(sender: string, subject: string, body: string,
                      run: ModelRun, kb: seq<KnowledgeEntry>, finders: ContactFinders,
                      timestamp: string, dateReceived: string)
    returns (record: EmailRecord)
    ensures record.sentiment == AnalyzeSentiment(body, run).sentiment.Name()
    ensures record.priority == DeterminePriority(subject, body).Name()
    ensures record.keywords == Join(KeywordsOf(subject + " " + body), ", ")
    ensures record.contactInfo == JoinOr(ContactParts(body, finders), NoContactInfo)
    ensures record.requirements == JoinOr(Requirements(subject, body), GeneralInquiry)
    ensures record.aiResponse ==
      ReplyFor(SenderName(sender), record.sentiment, record.priority, body,
               BestSolution(KeywordsOf(subject + " " + body), subject, body, kb), "SUP" + timestamp)
    ensures record.sender == sender && record.subject == subject && record.body == body
      && record.dateReceived == dateReceived
    ensures Contains(record.aiResponse, SenderName(sender))
  {
    var classification := AnalyzeSentiment(body, run);
    var sentiment := classification.sentiment.Name();
    var priority := DeterminePriority(subject, body).Name();
    var keywords := ExtractKeywords(subject + " " + body);
    var contactInfo := ExtractContactInfo(body, finders);
    var requirements := ExtractRequirements(subject, body);
    var keywordField := Join(keywords, ", ");
    var emailData := EmailData(sender, subject, body, priority, sentiment, keywordField,
                               contactInfo, requirements, dateReceived);
    var outcome := GenerateAiResponse(emailData, kb, timestamp);
    ReplyForEmailData(sender, subject, body, priority, sentiment, contactInfo, requirements,
                      dateReceived, kb, timestamp);
    ReplyShowsNameAndSolution(SenderName(sender), sentiment, priority, body,
                              BestSolution(keywords, subject, body, kb), "SUP" + timestamp);
    match outcome
    case Raised =>
      assert false;
    case Reply(aiResponse) =>
      record := EmailRecord(sender, subject, body, priority, sentiment, keywordField,
                            contactInfo, requirements, dateReceived, aiResponse);
  }
}
