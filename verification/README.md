# Email support assistant: analysis and reply core

This project models the analysis pipeline of a customer-support email assistant
(`EmailAssistant` in `email_assistant.py`). For each incoming email (sender, subject,
body) the assistant does the following:

- classifies the sentiment: an external classifier, or a lexicon fallback;
- scores urgency from a keyword list and time-pressure words;
- extracts technical keywords, contact details and the customer's stated requirements;
- picks the best-matching solution from a small knowledge base;
- fills one of four reply templates with the sender's display name, the solution, a
  ticket id and an extra sentence (thanks or escalation).

The modules follow that structure:

| module | file | what it holds |
|---|---|---|
| `Strings` | `strings.dfy` | ASCII case folding, substring search, `split`/`join`/`strip`, counting and de-duplication |
| `SentimentClassifier` | `sentiment.dfy` | the lexicon fallback, the label map, the choice of the classifier's top label |
| `UrgencyScorer` | `urgency.dfy` | urgent keywords, whole-word time patterns, the priority decision |
| `SignalExtractor` | `signals.dfy` | keyword, contact-info and requirement extraction |
| `KnowledgeMatcher` | `knowledge.dfy` | the five knowledge rows, entry scoring, first-best selection |
| `ResponseSynthesizer` | `response.dfy` | sender name, templates, the extra sentence, the reply and its failure paths |
| `Pipeline` | `pipeline.dfy` | `process_email` without storage |

Where the source builds lists in loops, the model has methods with loop invariants:
`ExtractKeywords`, `ExtractRequirements` (with `KeepRequirements` for its inner loop) and
`FindBestSolution`. `ExtractContactInfo`, `GenerateAiResponse` and `ProcessEmail` have no
loops in the source; they are straight-line methods. Each method is proved equal to a
specification function, and the properties are proved about those functions as lemmas.

The source holds no state that the core updates: the configuration tables are only read,
and the only mutable object is the database connection, which is not modelled. So the
tables are module constants, and the knowledge-base rows are a `seq<KnowledgeEntry>`
parameter. `KnowledgeEntries` holds the five rows inserted at start-up, and
`Reinserted(KnowledgeEntries, n)` is the table after `n` restarts, each of which inserts
the rows again.

Where the code's behaviour is surprising, the model follows the code:

- The reply writer crashes when the `sender` field is missing. Its exception handler reads
  the still-unbound `sender_name`, so it does not always return a string. This is modelled
  as the `Raised` outcome.
- The display name replaces only `.` with a space, not every separator character.
- An urgent email classified negative or neutral never shows the escalation note: those
  two templates have no `{additional_info}` field. `UrgentReplyOmitsAdditionalInfo`
  states this. The note reaches a reply only through the urgent-positive fallback to
  `normal_neutral` (see `UrgentPositiveReplyShowsEscalation`).
- `list(set(keywords))` has no defined order in Python. The model keeps the first-seen
  order, which is one of the orders Python may produce.

## Model

| member | source | states |
|---|---|---|
| SentimentClassifier.RuleBasedSentiment | email_assistant.py:249-263 | positive with 0.7 iff more positive than negative lexicon words occur in the lowercased text; negative with 0.7 iff more negative ones; otherwise neutral with 0.6 |
| SentimentClassifier.RuleBasedCountsDistinctWords | email_assistant.py:251-256 | each count is the number of distinct lexicon words present, however often each occurs, so at most 7 positive and 8 negative |
| SentimentClassifier.RuleBasedIgnoresCase | email_assistant.py:254 | the fallback classification of a text equals that of its lowercase form |
| SentimentClassifier.TopResult | email_assistant.py:226 | the index chosen by `max` holds a score no entry exceeds and that every earlier entry falls short of, so ties go to the first |
| SentimentClassifier.MapLabel | email_assistant.py:229-238 | negative iff the label is LABEL_0 or negative; positive iff LABEL_2 or positive; neutral for every other label, both directions |
| SentimentClassifier.AnalyzeSentiment | email_assistant.py:220-247 | with a non-empty score list, the label and score are those of the first top-scoring entry (no entry scores higher, every earlier one scores lower), mapped by the label map; when the model is not loaded, raises, or returns nothing, the result is the lexicon fallback |
| UrgencyScorer.DeterminePriority | email_assistant.py:265-281 | urgent iff urgent-keyword hits plus whole-word time-pattern hits in the lowercased `subject + " " + body` reach 2 |
| UrgencyScorer.UrgencyScoreIsDistinctHits | email_assistant.py:267-279 | the score is the number of distinct urgent keywords present plus the number of distinct time words present as whole words |
| UrgencyScorer.CountWholeWordsIsDistinctHits | email_assistant.py:272-277 | the time-pattern count equals the size of the set of time words found with a word boundary on each side |
| UrgencyScorer.DoubleCountedWordIsUrgent | email_assistant.py:35-39 | a whole-word occurrence of any of the six words that are both urgent keywords and time patterns makes the email urgent on its own |
| UrgencyScorer.PriorityIgnoresCase | email_assistant.py:267 | lowercasing subject and body first does not change the priority |
| UrgencyScorer.UrgentKeywordsDistinct | email_assistant.py:35-39 | the urgent keyword list has no repeated entry |
| UrgencyScorer.TimeWordsDistinct | email_assistant.py:272-275 | the eight time-pattern words are distinct |
| SignalExtractor.FirstWordAlternative | email_assistant.py:289-297 | a chosen alternative is one of the pattern's alternatives and matches there, ignoring case, between word boundaries |
| SignalExtractor.FirstWordAlternativeSpec | email_assistant.py:289-297 | the chosen alternative is the first one, in pattern order, that matches at that position; when none is chosen, no alternative matches there |
| SignalExtractor.FindAllWordsSound | email_assistant.py:297 | every match `findall` returns is, lowercased, one of the pattern's alternatives, and stands in the text exactly as returned, as a whole word at or after the scan start |
| SignalExtractor.FindAllWordsAtMatch | email_assistant.py:297 | an alternative matching at the scan position is reported there, as written in the text, and the scan resumes after it |
| SignalExtractor.FindAllWordsEmpty | email_assistant.py:297 | the scan finds nothing iff no alternative matches between word boundaries at any position from the start on |
| SignalExtractor.TechMatchesEmpty | email_assistant.py:296-298 | the technical patterns collect nothing iff no technical alternative matches anywhere in the text |
| SignalExtractor.TechMatchesSound | email_assistant.py:296-298 | every collected technical match is a technical term up to letter case and occurs in the text, exactly as collected, as a whole word |
| SignalExtractor.UrgentFoundSound | email_assistant.py:301-303 | every appended urgent keyword is an urgent keyword that occurs in the lowercased text |
| SignalExtractor.UrgentFoundComplete | email_assistant.py:301-303 | every urgent keyword that occurs in the lowercased text is appended |
| SignalExtractor.CollectedSound | email_assistant.py:286-303 | everything collected before de-duplication is a technical term occurring as a whole word in the text exactly as collected, or an urgent keyword present in the lowercased text |
| SignalExtractor.KeywordShape | email_assistant.py:289-303 | every collectable keyword is non-empty and has no comma |
| SignalExtractor.KeywordsOfShape | email_assistant.py:305 | the keyword list has no duplicates, at most ten entries, and only technical terms found as whole words in the text and present urgent keywords, none empty or containing a comma |
| SignalExtractor.KeywordsKeepAllWhenFew | email_assistant.py:305 | when at most ten distinct keywords were collected, every collected keyword is kept |
| SignalExtractor.KeywordsEmpty | email_assistant.py:283-305 | the keyword list is empty iff no technical term matches anywhere and no urgent keyword occurs in the lowercased text |
| SignalExtractor.PresentUrgentKeywordKept | email_assistant.py:301-305 | an urgent keyword occurring in the lowercased text is among the keywords when at most ten distinct keywords were collected |
| SignalExtractor.ExtractKeywords | email_assistant.py:283-305 | the result is the de-duplicated first-seen list of the technical matches (pattern by pattern, left to right) followed by the present urgent keywords, cut to ten, with the shape above |
| SignalExtractor.ExtractContactInfo | email_assistant.py:307-329 | the result is the `"; "`-joined labelled first phone, e-mail and social match, in that order; it is the sentinel text iff no finder matched |
| SignalExtractor.FirstTrigger | email_assistant.py:335-343 | a chosen trigger phrase is one of the pattern's phrases and occurs at that position, ignoring case, followed by a space |
| SignalExtractor.FirstTriggerSpec | email_assistant.py:335-343 | the chosen phrase is the first, in pattern order, that matches at that position followed by a space; when none is chosen, no phrase matches there |
| SignalExtractor.ClauseEndSpec | email_assistant.py:336-338 | the clause after a trigger runs up to the first `.`, `!` or `?`, or to the end of the text |
| SignalExtractor.FindAllRequestsSound | email_assistant.py:343 | every requirement match's trigger, lowercased, is one of the pattern's phrases |
| SignalExtractor.FindAllRequestsAtTrigger | email_assistant.py:336-343 | a phrase matching at the scan position is reported there (`MatchAt`: the phrase as written and the clause up to the next `.`, `!` or `?`), and the scan resumes where the clause stops |
| SignalExtractor.FindAllRequestsEmpty | email_assistant.py:343 | the scan finds no request iff no trigger phrase followed by a space occurs at any position from the start on |
| SignalExtractor.KeptOf | email_assistant.py:344-347 | at most one requirement is kept per match |
| SignalExtractor.RequirementStartsWithTrigger | email_assistant.py:345 | a requirement built from a match begins with the trigger as written |
| SignalExtractor.KeptOfShape | email_assistant.py:344-347 | every kept requirement is longer than ten characters and begins with a trigger phrase in some letter case |
| SignalExtractor.RequirementsShape | email_assistant.py:342-347 | across all patterns, every kept requirement has that shape; each pattern adds at most three requirements to those of the patterns before it, so at most three per pattern in total |
| SignalExtractor.RequirementsOrPlaceholder | email_assistant.py:349 | the joined requirements equal the "General support inquiry" placeholder iff nothing was kept |
| SignalExtractor.KeepRequirements | email_assistant.py:344-347 | the stripped `trigger + " " + clause` of each of the top matches, in order, when longer than ten characters |
| SignalExtractor.ExtractRequirements | email_assistant.py:331-349 | the result is the `"; "`-joined requirements of the three patterns in order, or the placeholder, and the placeholder iff none was kept |
| KnowledgeMatcher.FirstBestSpec | email_assistant.py:359-376 | the running maximum with strict improvement from zero finds nothing iff every score is zero, and otherwise the first entry holding the highest score |
| KnowledgeMatcher.BestSolutionSpec | email_assistant.py:351-382 | with all scores zero the generic solution and escalation come back; otherwise the solution and escalation of the first highest-scoring entry |
| KnowledgeMatcher.EntryScoreZero | email_assistant.py:364-372 | an entry scores zero iff none of its stripped keywords was extracted and none occurs, ignoring case, in `subject + " " + body` |
| KnowledgeMatcher.FirstBestIgnoresRepeats | email_assistant.py:374-376 | appending scores that already occur does not change the chosen index |
| KnowledgeMatcher.BestSolutionIgnoresRepeatedEntries | email_assistant.py:66-75 | appending copies of rows already in the table, as the start-up insert does on every restart, leaves the chosen solution unchanged |
| KnowledgeMatcher.Reinserted | email_assistant.py:142-146 | the table after `n` further inserts of the same rows is `n + 1` times as long and holds exactly the same rows |
| KnowledgeMatcher.ReinsertionsDoNotChangeSolution | email_assistant.py:142-146 | repeating the insert of the same rows any number of times leaves the chosen solution unchanged |
| KnowledgeMatcher.RestartsDoNotChangeSolution | email_assistant.py:109-146 | with the five start-up rows, however many restarts have re-inserted them, every email gets the solution the rows inserted once give |
| KnowledgeMatcher.FindBestSolution | email_assistant.py:351-382 | the loop returns exactly the first-best solution, or the generic one |
| ResponseSynthesizer.LocalPartSpec | email_assistant.py:387 | the local part is the sender up to its first `@`, and has no `@` |
| ResponseSynthesizer.TitleSpec | email_assistant.py:387 | `title()` keeps the length, lowers each character that follows a cased letter and raises every other one |
| ResponseSynthesizer.TitleIdempotent | email_assistant.py:387 | title-casing twice equals title-casing once |
| ResponseSynthesizer.SenderNameSpec | email_assistant.py:387 | the display name is as long as the local part, contains no `@` and no `.`, and is the title-cased local part with dots as spaces |
| ResponseSynthesizer.FillAppend | email_assistant.py:413-418 | filling a concatenation of template pieces concatenates the filled pieces |
| ResponseSynthesizer.FillShowsField | email_assistant.py:413-418 | a field the template names appears in the filled text |
| ResponseSynthesizer.FillIgnoresAbsentFields | email_assistant.py:413-418 | values of fields the template does not name have no effect on the filled text |
| ResponseSynthesizer.SelectTemplateKey | email_assistant.py:396-400 | the chosen key always names one of the four templates |
| ResponseSynthesizer.TemplateFields | email_assistant.py:152-218 | every template names the sender and the solution; exactly the urgent ones name the ticket id, and exactly the normal ones the additional sentence |
| ResponseSynthesizer.TemplateKeyForLabels | email_assistant.py:396-398 | for the six label pairs, four select their own template, and urgent-positive and normal-negative fall back to normal_neutral |
| ResponseSynthesizer.ReplyShowsNameAndSolution | email_assistant.py:396-418 | every template reply contains the sender name and the solution text |
| ResponseSynthesizer.UrgentReplyOmitsAdditionalInfo | email_assistant.py:155-172 | an urgent negative or neutral reply contains the ticket id and does not depend on the body or the escalation note |
| ResponseSynthesizer.UrgentNegativeIgnoresAdditionalInfo | email_assistant.py:155-172 | the urgent_negative text ignores the additional sentence and shows the ticket id |
| ResponseSynthesizer.UrgentNeutralIgnoresAdditionalInfo | email_assistant.py:202-217 | the urgent_neutral text ignores the additional sentence and shows the ticket id |
| ResponseSynthesizer.NormalPositiveShowsAdditionalInfo | email_assistant.py:174-186 | the normal_positive text shows the additional sentence |
| ResponseSynthesizer.NormalNeutralShowsAdditionalInfo | email_assistant.py:188-200 | the normal_neutral text shows the additional sentence |
| ResponseSynthesizer.UrgentPositiveReplyShowsEscalation | email_assistant.py:396-410 | an urgent positive email without thanks gets a reply that carries "This case has been escalated. " and the escalation note |
| ResponseSynthesizer.ThankfulReplyShowsGratitude | email_assistant.py:406-408 | thanks in the body put the gratitude sentence into every reply whose template has room for it, whatever the priority |
| ResponseSynthesizer.NormalReplyIgnoresEscalation | email_assistant.py:406-411 | a normal-priority reply to a body without thanks does not depend on the escalation note |
| ResponseSynthesizer.ResponseOutcomes | email_assistant.py:384-424 | the reply writer raises iff the sender field is missing; every reply contains the display name; a missing other field gives the fixed 24-hour acknowledgement |
| ResponseSynthesizer.GenerateAiResponse | email_assistant.py:384-424 | the method's outcome is the modelled reply, the fallback acknowledgement or the crash, as above |
| Pipeline.KeywordFieldRoundTrip | email_assistant.py:390 | the keywords joined with `", "` for the dictionary split back into the same list |
| Pipeline.ReplyForEmailData | email_assistant.py:437-450 | the dictionary built by `process_email` has every field, so the reply is the template reply for the extracted keywords and never the fallback or the crash |
| Pipeline.ProcessEmail | email_assistant.py:426-451 | the record holds the classified sentiment, the priority, the joined keywords, the contact text, the requirements and the template reply, which contains the sender's display name |
| Strings.CountPresentIsDistinctHits | email_assistant.py:255-256 | a substring count over a duplicate-free word list is the number of distinct words present |
| Strings.CountPresentZero | email_assistant.py:255-256 | a substring count is zero iff no listed word occurs |
| Strings.SplitJoin | email_assistant.py:390 | splitting a join on the same separator gives the parts back when no part contains the separator's first character |
| Strings.TrimEndSpec | email_assistant.py:345 | `rstrip` removes exactly the trailing whitespace and keeps the prefix |
| Strings.TrimStartSpec | email_assistant.py:345 | `lstrip` removes exactly the leading whitespace and keeps the suffix |
| Strings.Dedup | email_assistant.py:305 | the de-duplicated list has no repeats and the same members |

## Left out

- Storage: the SQLite tables, the `INSERT` of the analysed email, and the `SELECT` of the
  knowledge rows. The rows are a `seq` parameter, in table order.
- The web layer and every operation outside the analysis of one email.
- The sentiment classifier and the sentence model are external models. One run of the
  classifier is the `ModelRun` parameter: not loaded, raised, or the scores it returned.
  Confidence values are `real`.
- The clock: the ticket-id timestamp and the received date are string parameters.
- The phone, e-mail and social-handle regular expressions. Each is a finder parameter that
  returns its matches in order.
- Letter case and `\w` cover ASCII only. Python's Unicode `lower()`, `title()` and word
  characters are not modelled. Whitespace for `strip()` is Python's full `isspace` set.
- Logging, and the exception paths inside the classifier call, the database cursor and
  `process_email`'s own handler. A missing dictionary field is modelled; other exceptions
  are not.
- An `escalation_info` of SQL `NULL` is out of scope: the rows hold strings.
- SignalExtractor.ExtractKeywords: the model keeps the first ten distinct keywords in
  first-seen order. Python's `list(set(...))[:10]` follows hash order. With more than ten
  distinct keywords it may keep a different ten, not only a different order. The overlap
  score in `find_best_solution` depends on which keywords are kept, so
  KnowledgeMatcher.BestSolution and the reply of Pipeline.ProcessEmail may differ then too.
  With at most ten, the same keywords are kept (KeywordsKeepAllWhenFew).
