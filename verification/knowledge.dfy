/**
  Knowledge-base matching: every stored entry is scored against the
  extracted keywords and the email text, and the first entry with the
  highest positive score supplies the solution and the escalation note.
*/
module KnowledgeMatcher {
  import opened Wrappers
  import opened Strings

  /** One row of the `knowledge_base` table; `keywords` is the raw
      comma-separated list as stored. */
  datatype KnowledgeEntry = KnowledgeEntry(
    category: string, keywords: string, solution: string, escalation: string)

  /** The `(solution, escalation_info)` pair handed to the reply writer. */
  datatype Solution = Solution(text: string, escalation: string)

  /** The five rows inserted at start-up, in insertion order. */
  const KnowledgeEntries: seq<KnowledgeEntry> := [
    KnowledgeEntry(
      "account_access",
      "login, password, access, account, locked, authentication, signin, credentials",
      "For account access issues: 1) Try clearing browser cache and cookies 2) Reset password using \"Forgot Password\" link 3) Check if caps lock is on 4) Try different browser or incognito mode",
      "If issue persists after basic troubleshooting, escalate to security team for account unlock"),
    KnowledgeEntry(
      "technical_issues",
      "error, bug, broken, not working, technical, system, crash, freeze, slow",
      "For technical issues: 1) Check internet connection 2) Clear browser cache 3) Update browser to latest version 4) Try different device 5) Check system status page",
      "Complex technical issues should be forwarded to technical support team"),
    KnowledgeEntry(
      "billing_payment",
      "billing, payment, invoice, charge, refund, subscription, price, cost, money",
      "For billing inquiries: 1) Check your billing portal for invoice details 2) Verify payment method is valid 3) Contact billing support for refund requests",
      "Billing disputes require finance team approval"),
    KnowledgeEntry(
      "feature_request",
      "feature, request, suggestion, enhancement, improvement, new, add, update",
      "Thank you for your feature suggestion! We appreciate your feedback. Please visit our feature request portal to submit detailed requirements.",
      "Feature requests should be logged with product team for roadmap consideration"),
    KnowledgeEntry(
      "integration_api",
      "api, integration, webhook, developer, code, sdk, documentation, endpoint",
      "For API/integration support: 1) Check our developer documentation 2) Verify API key is valid 3) Ensure proper authentication headers 4) Check rate limits",
      "Complex integration issues require developer support team assistance")]

  /** The answer when no entry scores above zero. */
  const GenericSolution: Solution := Solution(
    "I'll look into your inquiry and get back to you with a detailed response shortly.",
    "General inquiry - route to appropriate team based on content")

  /** The entry's keywords: its stored list cut at every comma, each piece
      with surrounding whitespace removed. */
  function EntryKeywords(e: KnowledgeEntry): seq<string>
  {
    var parts := Split(e.keywords, ",");
    seq(|parts|, i requires 0 <= i < |parts| => Strip(parts[i]))
  }

  function LowerAll(words: seq<string>): seq<string>
  {
    seq(|words|, i requires 0 <= i < |words| => Lower(words[i]))
  }

  /** How many distinct strings are both an extracted keyword and one of
      the entry's keywords. */
  function Overlap(keywords: seq<string>, entryKeywords: seq<string>): nat
  {
    |(set k | k in keywords) * (set k | k in entryKeywords)|
  }

  /** How many entry keywords occur, ignoring case, anywhere in the text. */
  function TextHits(entryKeywords: seq<string>, text: string): nat
  {
    CountPresent(LowerAll(entryKeywords), Lower(text))
  }

  /** An entry's score: two points per shared keyword plus one per entry
      keyword found in the text. */
  function EntryScore(keywords: seq<string>, text: string, e: KnowledgeEntry): nat
  {
    var kws := EntryKeywords(e);
    2 * Overlap(keywords, kws) + TextHits(kws, text)
  }

  function Scores(keywords: seq<string>, text: string, kb: seq<KnowledgeEntry>): seq<nat>
  {
    seq(|kb|, i requires 0 <= i < |kb| => EntryScore(keywords, text, kb[i]))
  }

  /** `k` holds a positive score that no entry beats and that every earlier
      entry falls short of. */
  predicate IsFirstBest(scores: seq<nat>, k: nat)
  {
    k < |scores| && scores[k] > 0
    && (forall j :: 0 <= j < |scores| ==> scores[j] <= scores[k])
    && (forall j :: 0 <= j < k ==> scores[j] < scores[k])
  }

  /** The entry a running maximum with strict improvement settles on,
      starting from a best score of zero. */
  function FirstBest(scores: seq<nat>): (r: Option<nat>)
    decreases |scores|
    ensures r.Some? ==> r.value < |scores|
  {
    if |scores| == 0 then None
    else
      var last := |scores| - 1;
      match FirstBest(scores[..last])
      case None => if scores[last] > 0 then Some(last) else None
      case Some(k) => if scores[last] > scores[k] then Some(last) else Some(k)
  }

  /** The running maximum finds nothing exactly when every score is zero,
      and otherwise finds the first entry with the highest score. */
  lemma {:induction false} FirstBestSpec(scores: seq<nat>)
    decreases |scores|
    ensures FirstBest(scores).None? <==> forall j :: 0 <= j < |scores| ==> scores[j] == 0
    ensures FirstBest(scores).Some? ==> IsFirstBest(scores, FirstBest(scores).value)
  {
    if |scores| > 0 {
      var last := |scores| - 1;
      var init := scores[..last];
      FirstBestSpec(init);
      assert forall j :: 0 <= j < last ==> scores[j] == init[j];
    }
  }

  /** `find_best_solution` as a value: the first best entry's solution, or
      the generic answer. */
  function BestSolution(keywords: seq<string>, subject: string, body: string,
                        kb: seq<KnowledgeEntry>): Solution
  {
    var scores := Scores(keywords, subject + " " + body, kb);
    match FirstBest(scores)
    case None => GenericSolution
    case Some(k) => Solution(kb[k].solution, kb[k].escalation)
  }

  /** The generic answer comes back exactly when no entry scores; otherwise
      the answer is that of the first entry with the highest score. */
  lemma BestSolutionSpec(keywords: seq<string>, subject: string, body: string,
                         kb: seq<KnowledgeEntry>)
    ensures var scores := Scores(keywords, subject + " " + body, kb);
      (forall j :: 0 <= j < |kb| ==> scores[j] == 0) ==>
        BestSolution(keywords, subject, body, kb) == GenericSolution
    ensures var scores := Scores(keywords, subject + " " + body, kb);
      (exists j :: 0 <= j < |kb| && scores[j] > 0) ==>
        exists k: nat :: IsFirstBest(scores, k)
          && BestSolution(keywords, subject, body, kb) == Solution(kb[k].solution, kb[k].escalation)
  {
    FirstBestSpec(Scores(keywords, subject + " " + body, kb));
  }

  /** Scores that only repeat scores already present change nothing: the
      strict comparison keeps the earlier holder of a tied maximum. */
  lemma {:induction false} FirstBestIgnoresRepeats(s: seq<nat>, t: seq<nat>)
    requires forall j :: 0 <= j < |t| ==> t[j] in s
    decreases |t|
    ensures FirstBest(s + t) == FirstBest(s)
  {
    if |t| > 0 {
      var t' := t[..|t| - 1];
      assert (s + t)[..|s + t| - 1] == s + t';
      FirstBestIgnoresRepeats(s, t');
      FirstBestSpec(s);
      var x := t[|t| - 1];
      assert x in s;
      var i :| 0 <= i < |s| && s[i] == x;
      assert (s + t)[|s + t| - 1] == x;
    } else {
      assert s + t == s;
    }
  }

  /** The start-up insert runs again on every restart and the table has
      no uniqueness constraint, so rows pile up as copies; copies of rows
      already present never change the chosen solution. */
  lemma BestSolutionIgnoresRepeatedEntries(keywords: seq<string>, subject: string, body: string,
                                           kb: seq<KnowledgeEntry>, extra: seq<KnowledgeEntry>)
    requires forall e :: e in extra ==> e in kb
    ensures BestSolution(keywords, subject, body, kb + extra) == BestSolution(keywords, subject, body, kb)
  {
    var text := subject + " " + body;
    var s := Scores(keywords, text, kb);
    var t := Scores(keywords, text, extra);
    assert Scores(keywords, text, kb + extra) == s + t;
    forall j | 0 <= j < |t| ensures t[j] in s {
      assert extra[j] in kb;
      var i :| 0 <= i < |kb| && kb[i] == extra[j];
      assert s[i] == t[j];
    }
    FirstBestIgnoresRepeats(s, t);
    FirstBestSpec(s);
  }

  /** The table after the start-up insert of `kb` has run `n` more times:
      each run appends all of its rows again. */
  function Reinserted(kb: seq<KnowledgeEntry>, n: nat): (t: seq<KnowledgeEntry>)
    ensures |t| == (n + 1) * |kb|
    ensures forall e :: e in t <==> e in kb
  {
    if n == 0 then kb else Reinserted(kb, n - 1) + kb
  }

  lemma {:induction false} ReinsertedStartsWithRows(kb: seq<KnowledgeEntry>, n: nat)
    ensures Reinserted(kb, n)[..|kb|] == kb
  {
    if n > 0 {
      ReinsertedStartsWithRows(kb, n - 1);
      assert Reinserted(kb, n)[..|kb|] == Reinserted(kb, n - 1)[..|kb|];
    }
  }

  /** Repeated inserts of the same rows never change the chosen solution. */
  lemma ReinsertionsDoNotChangeSolution(keywords: seq<string>, subject: string, body: string,
                                        kb: seq<KnowledgeEntry>, n: nat)
    ensures BestSolution(keywords, subject, body, Reinserted(kb, n))
      == BestSolution(keywords, subject, body, kb)
  {
    if n > 0 {
      var t := Reinserted(kb, n);
      var extra := t[|kb|..];
      ReinsertedStartsWithRows(kb, n);
      assert t == kb + extra;
      forall e | e in extra ensures e in kb {
        assert e in t;
      }
      BestSolutionIgnoresRepeatedEntries(keywords, subject, body, kb, extra);
    }
  }

  /** However often the assistant has been restarted, every email gets the
      solution it would get from the five rows inserted once. */
  lemma RestartsDoNotChangeSolution(keywords: seq<string>, subject: string, body: string, n: nat)
    ensures BestSolution(keywords, subject, body, Reinserted(KnowledgeEntries, n))
      == BestSolution(keywords, subject, body, KnowledgeEntries)
  {
    ReinsertionsDoNotChangeSolution(keywords, subject, body, KnowledgeEntries, n);
  }

  /** An entry scores zero exactly when none of its keywords was extracted
      and none occurs in the text. */
  lemma EntryScoreZero(keywords: seq<string>, text: string, e: KnowledgeEntry)
    ensures var kws := EntryKeywords(e);
      EntryScore(keywords, text, e) == 0 <==>
        (forall k :: k in kws ==> k !in keywords && !Contains(Lower(text), Lower(k)))
  {
    var kws := EntryKeywords(e);
    var lowered := LowerAll(kws);
    CountPresentZero(lowered, Lower(text));
    var both := (set k | k in keywords) * (set k | k in kws);
    if Overlap(keywords, kws) == 0 {
      assert both == {};
      forall k | k in kws ensures k !in keywords {
        assert k !in both;
      }
    } else {
      var k :| k in both;
      assert k in kws && k in keywords;
    }
    forall k | k in kws ensures Lower(k) in lowered {
      var i :| 0 <= i < |kws| && kws[i] == k;
      assert lowered[i] == Lower(k);
    }
    forall w | w in lowered ensures exists k :: k in kws && w == Lower(k) {
      var i :| 0 <= i < |lowered| && lowered[i] == w;
      assert kws[i] in kws;
    }
  }

  method FindBestSolution(keywords: seq<string>, subject: string, body: string,
                          kb: seq<KnowledgeEntry>) returns (result: Solution)
    ensures result == BestSolution(keywords, subject, body, kb)
  {
    var text := subject + " " + body;
    ghost var scores := Scores(keywords, text, kb);
    var bestMatch: Option<Solution> := None;
    var bestScore: nat := 0;
    for i := 0 to |kb|
      invariant match FirstBest(scores[..i])
        case None => bestMatch == None && bestScore == 0
        case Some(k) => (k < i && bestScore == scores[k]
          && bestMatch == Some(Solution(kb[k].solution, kb[k].escalation)))
    {
      var entry := kb[i];
      var kbKeywordsList := EntryKeywords(entry);
      var overlap := Overlap(keywords, kbKeywordsList);
      var textSimilarity := TextHits(kbKeywordsList, text);
      var totalScore := overlap * 2 + textSimilarity;
      assert scores[..i + 1][..i] == scores[..i];
      FirstBestSpec(scores[..i]);
      if totalScore > bestScore {
        bestScore := totalScore;
        bestMatch := Some(Solution(entry.solution, entry.escalation));
      }
    }
    assert scores[..|kb|] == scores;
    match bestMatch
    case Some(m) => result := m;
    case None => result := GenericSolution;
  }
}
