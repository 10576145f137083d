/**
  Signal extraction: keywords, contact details and stated requirements,
  each taken from the email text by a fixed list of patterns.
*/
module SignalExtractor {
  import opened Wrappers
  import opened Strings
  import opened UrgencyScorer

  // ---------------------------------------------------------------------
  // Keywords

  /** The alternatives of the four technical patterns
      `\b(api|sdk|...)\b`, `\b(error code|bug|...)\b`, ... (all lowercase). */
  const TechPatterns: seq<seq<string>> := [
    ["api", "sdk", "webhook", "integration", "database", "server", "application"],
    ["error code", "bug", "crash", "timeout", "connection"],
    ["account", "login", "password", "authentication", "access"],
    ["billing", "payment", "invoice", "subscription", "refund"]]

  predicate IsTechTerm(w: string)
  {
    exists p :: 0 <= p < |TechPatterns| && w in TechPatterns[p]
  }

  /** A pattern alternative: non-empty and free of commas, so that the
      keywords survive being joined with ", " and split again. */
  predicate PlainAlternative(a: string) { a != "" && ',' !in a }

  lemma TechPatternWellFormed(p: nat)
    requires p < |TechPatterns|
    ensures forall a :: a in TechPatterns[p] ==> PlainAlternative(a)
  {
  }

  lemma UrgentKeywordsWellFormed()
    ensures forall a :: a in UrgentKeywords ==> PlainAlternative(a)
  {
  }

  /** The lowercase alternative `a` matches at `i`, ignoring case, with a
      word boundary on each side. */
  predicate WordAtIgnoringCase(s: string, a: string, i: nat)
  {
    i + |a| <= |s| && Boundary(s, i) && Lower(s[i..i + |a|]) == a && Boundary(s, i + |a|)
  }

  /** The alternative the regular-expression engine settles on at `i`: the
      first one, in pattern order, that matches there. */
  function FirstWordAlternative(s: string, alts: seq<string>, i: nat): (r: Option<string>)
    ensures r.Some? ==> r.value in alts && WordAtIgnoringCase(s, r.value, i)
  {
    if |alts| == 0 then None
    else if WordAtIgnoringCase(s, alts[0], i) then Some(alts[0])
    else FirstWordAlternative(s, alts[1..], i)
  }

  /** The alternative chosen matches there and no earlier one does; when
      none is chosen, none matches. */
  lemma {:induction false} FirstWordAlternativeSpec(s: string, alts: seq<string>, i: nat)
    ensures match FirstWordAlternative(s, alts, i)
      case Some(a) =>
        exists j :: 0 <= j < |alts| && alts[j] == a && WordAtIgnoringCase(s, a, i)
          && forall k :: 0 <= k < j ==> !WordAtIgnoringCase(s, alts[k], i)
      case None => forall a :: a in alts ==> !WordAtIgnoringCase(s, a, i)
  {
    if |alts| > 0 && !WordAtIgnoringCase(s, alts[0], i) {
      FirstWordAlternativeSpec(s, alts[1..], i);
      match FirstWordAlternative(s, alts[1..], i)
      case Some(a) =>
        var j :| 0 <= j < |alts[1..]| && alts[1..][j] == a && WordAtIgnoringCase(s, a, i)
          && forall k :: 0 <= k < j ==> !WordAtIgnoringCase(s, alts[1..][k], i);
        assert alts[j + 1] == a;
        forall k | 0 <= k < j + 1 ensures !WordAtIgnoringCase(s, alts[k], i) {
          if k > 0 { assert alts[k] == alts[1..][k - 1]; }
        }
      case None =>
        forall a | a in alts ensures !WordAtIgnoringCase(s, a, i) {
          if a != alts[0] { assert a in alts[1..]; }
        }
    } else if |alts| > 0 {
      assert alts[0] == alts[0];
    }
  }

  /** `re.findall(r'\b(a1|a2|...)\b', s, re.IGNORECASE)` scanning from `i`:
      the matches, left to right and without overlap, as written in `s`. */
  function FindAllWords(s: string, alts: seq<string>, i: nat): seq<string>
    requires i <= |s|
    requires forall a :: a in alts ==> |a| > 0
    decreases |s| - i
  {
    if i == |s| then []
    else
      match FirstWordAlternative(s, alts, i)
      case None => FindAllWords(s, alts, i + 1)
      case Some(a) => [s[i..i + |a|]] + FindAllWords(s, alts, i + |a|)
  }

  /** `m` stands in `s` at `j`, exactly as written, and matches there as a
      whole word, ignoring case. */
  predicate WrittenAt(s: string, m: string, j: nat)
  {
    j + |m| <= |s| && s[j..j + |m|] == m && WordAtIgnoringCase(s, Lower(m), j)
  }

  /** Every match is one of the alternatives, up to letter case, and is
      text found as a whole word at or after `i`. */
  lemma {:induction false} FindAllWordsSound(s: string, alts: seq<string>, i: nat)
    requires i <= |s|
    requires forall a :: a in alts ==> |a| > 0
    decreases |s| - i
    ensures forall m :: m in FindAllWords(s, alts, i) ==>
      Lower(m) in alts && exists j :: i <= j && WrittenAt(s, m, j)
  {
    if i < |s| {
      match FirstWordAlternative(s, alts, i)
      case None => FindAllWordsSound(s, alts, i + 1);
      case Some(a) =>
        FindAllWordsSound(s, alts, i + |a|);
        var m := s[i..i + |a|];
        assert Lower(m) == a;
        assert WrittenAt(s, m, i);
    }
  }

  /** An alternative matching at the scan position is reported there, as
      written in the text, and the scan resumes after it. */
  lemma FindAllWordsAtMatch(s: string, alts: seq<string>, i: nat, a: string)
    requires i < |s|
    requires forall b :: b in alts ==> |b| > 0
    requires FirstWordAlternative(s, alts, i) == Some(a)
    ensures FindAllWords(s, alts, i) == [s[i..i + |a|]] + FindAllWords(s, alts, i + |a|)
  {
  }

  /** The scan finds nothing exactly when no alternative matches at any
      position from `i` on. */
  lemma {:induction false} FindAllWordsEmpty(s: string, alts: seq<string>, i: nat)
    requires i <= |s|
    requires forall a :: a in alts ==> |a| > 0
    decreases |s| - i
    ensures FindAllWords(s, alts, i) == [] <==>
      forall j, a :: i <= j < |s| && a in alts ==> !WordAtIgnoringCase(s, a, j)
  {
    if i < |s| {
      FirstWordAlternativeSpec(s, alts, i);
      match FirstWordAlternative(s, alts, i)
      case None =>
        FindAllWordsEmpty(s, alts, i + 1);
      case Some(a) =>
        assert a in alts && WordAtIgnoringCase(s, a, i);
    }
  }

  /** The matches of the first `p` technical patterns, in pattern order. */
  function TechMatches(text: string, p: nat): seq<string>
    requires p <= |TechPatterns|
  {
    if p == 0 then []
    else
      TechPatternWellFormed(p - 1);
      TechMatches(text, p - 1) + FindAllWords(text, TechPatterns[p - 1], 0)
  }

  /** `m` is a technical term that the text holds as a whole word, exactly
      as written. */
  predicate TechTermIn(text: string, m: string)
  {
    IsTechTerm(Lower(m)) && exists j: nat :: j <= |text| && WrittenAt(text, m, j)
  }

  /** Every technical match is a technical term found in the text. */
  lemma {:induction false} TechMatchesSound(text: string, p: nat)
    requires p <= |TechPatterns|
    ensures forall m :: m in TechMatches(text, p) ==> TechTermIn(text, m)
  {
    if p > 0 {
      TechMatchesSound(text, p - 1);
      TechPatternWellFormed(p - 1);
      FindAllWordsSound(text, TechPatterns[p - 1], 0);
      forall m | m in FindAllWords(text, TechPatterns[p - 1], 0) ensures TechTermIn(text, m) {
        assert Lower(m) in TechPatterns[p - 1];
      }
    }
  }

  /** Those of the first `n` of `words` that occur in the lowercased text. */
  function UrgentFound(text: string, words: seq<string>, n: nat): seq<string>
    requires n <= |words|
  {
    if n == 0 then []
    else
      var w := words[n - 1];
      UrgentFound(text, words, n - 1) + (if Contains(Lower(text), w) then [w] else [])
  }

  lemma {:induction false} UrgentFoundSound(text: string, words: seq<string>, n: nat)
    requires n <= |words|
    ensures forall m :: m in UrgentFound(text, words, n) ==> m in words && Contains(Lower(text), m)
  {
    if n > 0 {
      UrgentFoundSound(text, words, n - 1);
    }
  }

  /** Every urgent keyword among the first `n` that occurs in the lowercased
      text is appended. */
  lemma {:induction false} UrgentFoundComplete(text: string, words: seq<string>, n: nat)
    requires n <= |words|
    ensures forall w :: w in words[..n] && Contains(Lower(text), w) ==> w in UrgentFound(text, words, n)
  {
    if n > 0 {
      UrgentFoundComplete(text, words, n - 1);
      forall w | w in words[..n] && Contains(Lower(text), w)
        ensures w in UrgentFound(text, words, n)
      {
        if w != words[n - 1] {
          var k :| 0 <= k < n && words[..n][k] == w;
          assert w in words[..n - 1] by { assert words[..n - 1][k] == w; }
        }
      }
    }
  }

  /** No technical alternative matches anywhere in the text. */
  predicate NoTechTerm(text: string)
  {
    forall p, j, a :: 0 <= p < |TechPatterns| && 0 <= j < |text| && a in TechPatterns[p]
      ==> !WordAtIgnoringCase(text, a, j)
  }

  /** No urgent keyword occurs in the lowercased text. */
  predicate NoUrgentKeyword(text: string)
  {
    forall w :: w in UrgentKeywords ==> !Contains(Lower(text), w)
  }

  lemma {:induction false} TechMatchesEmpty(text: string, p: nat)
    requires p <= |TechPatterns|
    ensures TechMatches(text, p) == [] <==>
      forall q, j, a :: 0 <= q < p && 0 <= j < |text| && a in TechPatterns[q]
        ==> !WordAtIgnoringCase(text, a, j)
  {
    if p > 0 {
      TechMatchesEmpty(text, p - 1);
      TechPatternWellFormed(p - 1);
      FindAllWordsEmpty(text, TechPatterns[p - 1], 0);
    }
  }

  /** Everything the keyword extractor collects before de-duplication. */
  function Collected(text: string): seq<string>
  {
    TechMatches(text, |TechPatterns|) + UrgentFound(text, UrgentKeywords, |UrgentKeywords|)
  }

  /** `k` is a technical term as written in the text, or an urgent keyword
      that occurs in the lowercased text. */
  predicate IsKeywordOf(text: string, k: string)
  {
    TechTermIn(text, k) || (k in UrgentKeywords && Contains(Lower(text), k))
  }

  /** The extracted keywords, distinct, in first-seen order, at most 10. */
  function KeywordsOf(text: string): seq<string>
  {
    Take(Dedup(Collected(text)), 10)
  }

  lemma LowerKeepsComma(k: string)
    requires ',' !in Lower(k)
    ensures ',' !in k
  {
    forall i | 0 <= i < |k| ensures k[i] != ',' {
      assert Lower(k)[i] == ToLower(k[i]);
    }
  }

  /** Every keyword is non-empty and has no comma, so the `", "`-joined
      list the pipeline stores splits back into the same list. */
  lemma KeywordShape(text: string, k: string)
    requires IsKeywordOf(text, k)
    ensures k != "" && ',' !in k
  {
    if IsTechTerm(Lower(k)) {
      var p :| 0 <= p < |TechPatterns| && Lower(k) in TechPatterns[p];
      TechPatternWellFormed(p);
      LowerKeepsComma(k);
    } else {
      UrgentKeywordsWellFormed();
    }
  }

  /** The keyword list is duplicate-free, at most ten long, and holds only
      technical terms and present urgent keywords, none empty or with a comma. */
  lemma KeywordsOfShape(text: string)
    ensures NoDuplicates(KeywordsOf(text)) && |KeywordsOf(text)| <= 10
    ensures forall k :: k in KeywordsOf(text) ==> IsKeywordOf(text, k)
    ensures forall k :: k in KeywordsOf(text) ==> k != "" && ',' !in k
  {
    var d := Dedup(Collected(text));
    var keywords := KeywordsOf(text);
    CollectedSound(text);
    assert forall k :: k in keywords ==> k in d;
    forall k | k in keywords ensures k != "" && ',' !in k {
      KeywordShape(text, k);
    }
  }

  method ExtractKeywords(text: string) returns (keywords: seq<string>)
    ensures keywords == KeywordsOf(text)
    ensures NoDuplicates(keywords) && |keywords| <= 10
    ensures forall k :: k in keywords ==> IsKeywordOf(text, k)
    ensures forall k :: k in keywords ==> k != "" && ',' !in k
  {
    var found: seq<string> := [];
    for p := 0 to |TechPatterns|
      invariant found == TechMatches(text, p)
    {
      TechPatternWellFormed(p);
      var matches := FindAllWords(text, TechPatterns[p], 0);
      found := found + matches;
    }
    ghost var tech := found;
    var lowered := Lower(text);
    var urgentKeywords := UrgentKeywords;
    for n := 0 to |urgentKeywords|
      invariant found == tech + UrgentFound(text, urgentKeywords, n)
    {
      if Contains(lowered, urgentKeywords[n]) {
        found := found + [urgentKeywords[n]];
      }
    }
    assert found == Collected(text);
    keywords := Take(Dedup(found), 10);
    KeywordsOfShape(text);
  }

  /** Everything collected is a technical term or a present urgent keyword. */
  lemma CollectedSound(text: string)
    ensures forall k :: k in Collected(text) ==> IsKeywordOf(text, k)
  {
    var tech := TechMatches(text, |TechPatterns|);
    var urgent := UrgentFound(text, UrgentKeywords, |UrgentKeywords|);
    TechMatchesSound(text, |TechPatterns|);
    UrgentFoundSound(text, UrgentKeywords, |UrgentKeywords|);
    forall k | k in tech + urgent ensures IsKeywordOf(text, k) {
      var i :| 0 <= i < |tech + urgent| && (tech + urgent)[i] == k;
      if i < |tech| {
        assert tech[i] == k;
      } else {
        assert urgent[i - |tech|] == k;
      }
    }
  }

  /** The extractor comes back empty exactly when no technical term matches
      anywhere and no urgent keyword occurs. */
  lemma KeywordsEmpty(text: string)
    ensures KeywordsOf(text) == [] <==> NoTechTerm(text) && NoUrgentKeyword(text)
  {
    var tech := TechMatches(text, |TechPatterns|);
    var urgent := UrgentFound(text, UrgentKeywords, |UrgentKeywords|);
    TechMatchesEmpty(text, |TechPatterns|);
    UrgentFoundSound(text, UrgentKeywords, |UrgentKeywords|);
    UrgentFoundComplete(text, UrgentKeywords, |UrgentKeywords|);
    assert UrgentKeywords[..|UrgentKeywords|] == UrgentKeywords;
    var c := Collected(text);
    assert c == tech + urgent;
    if KeywordsOf(text) == [] {
      assert Dedup(c) == [];
      assert urgent == [];
    } else {
      assert Dedup(c) != [];
      var k := Dedup(c)[0];
      assert k in c;
      if tech == [] {
        assert k in urgent;
      }
    }
  }

  /** An urgent keyword that occurs in the lowercased text is kept, unless
      more than ten distinct keywords crowd it out. */
  lemma PresentUrgentKeywordKept(text: string, w: string)
    requires w in UrgentKeywords && Contains(Lower(text), w)
    requires |Dedup(Collected(text))| <= 10
    ensures w in KeywordsOf(text)
  {
    UrgentFoundComplete(text, UrgentKeywords, |UrgentKeywords|);
    assert UrgentKeywords[..|UrgentKeywords|] == UrgentKeywords;
    KeywordsKeepAllWhenFew(text);
  }

  /** When the collection holds at most ten distinct keywords, truncation
      loses none of them. */
  lemma KeywordsKeepAllWhenFew(text: string)
    requires |Dedup(Collected(text))| <= 10
    ensures forall k :: k in Collected(text) <==> k in KeywordsOf(text)
  {
  }

  // ---------------------------------------------------------------------
  // Contact information

  /** The three contact patterns (phone number, e-mail address, social
      handle) as `re.findall` over a text: the matches in order. */
  datatype ContactFinders = ContactFinders(
    phones: string -> seq<string>,
    emails: string -> seq<string>,
    socials: string -> seq<string>)

  const NoContactInfo: string := "No additional contact info found"

  /** The labelled first match of each kind that matched, in the order
      Phone, Alt Email, Social. */
  function ContactParts(text: string, finders: ContactFinders): seq<string>
  {
    var phones := finders.phones(text);
    var emails := finders.emails(text);
    var socials := finders.socials(text);
    (if |phones| > 0 then ["Phone: " + phones[0]] else [])
    + (if |emails| > 0 then ["Alt Email: " + emails[0]] else [])
    + (if |socials| > 0 then ["Social: " + socials[0]] else [])
  }

  /** The parts joined with "; ", or the sentinel text when there are none. */
  function JoinOr(parts: seq<string>, sentinel: string): string
  {
    if |parts| > 0 then Join(parts, "; ") else sentinel
  }

  method ExtractContactInfo(text: string, finders: ContactFinders) returns (info: string)
    ensures info == JoinOr(ContactParts(text, finders), NoContactInfo)
    ensures info == NoContactInfo <==>
      finders.phones(text) == [] && finders.emails(text) == [] && finders.socials(text) == []
  {
    var contact: seq<string> := [];
    var phones := finders.phones(text);
    if |phones| > 0 {
      contact := contact + ["Phone: " + phones[0]];
    }
    var emails := finders.emails(text);
    if |emails| > 0 {
      contact := contact + ["Alt Email: " + emails[0]];
    }
    var socials := finders.socials(text);
    if |socials| > 0 {
      contact := contact + ["Social: " + socials[0]];
    }
    assert contact == ContactParts(text, finders);
    if |contact| > 0 {
      info := Join(contact, "; ");
      JoinStartsWithFirst(contact, "; ");
      assert info[0] in "PAS" && NoContactInfo[0] == 'N';
    } else {
      info := NoContactInfo;
    }
  }

  // ---------------------------------------------------------------------
  // Requirements

  /** The trigger phrases of the three requirement patterns
      `(need|want|...) ([^.!?]*)`, `(can you|could you|please) ([^.!?]*)`
      and `(i would like|i want|i need) ([^.!?]*)`. */
  const RequirementPatterns: seq<seq<string>> := [
    ["need", "want", "require", "request", "looking for", "help with"],
    ["can you", "could you", "please"],
    ["i would like", "i want", "i need"]]

  const GeneralInquiry: string := "General support inquiry"

  /** One match of a requirement pattern: the trigger phrase as written and
      the clause after it. */
  datatype RequestMatch = RequestMatch(trigger: string, clause: string)

  /** The trigger `a` matches at `i`, ignoring case, followed by a space. */
  predicate TriggerAt(s: string, a: string, i: nat)
  {
    i + |a| < |s| && Lower(s[i..i + |a|]) == a && s[i + |a|] == ' '
  }

  function FirstTrigger(s: string, alts: seq<string>, i: nat): (r: Option<string>)
    ensures r.Some? ==> r.value in alts && TriggerAt(s, r.value, i)
  {
    if |alts| == 0 then None
    else if TriggerAt(s, alts[0], i) then Some(alts[0])
    else FirstTrigger(s, alts[1..], i)
  }

  predicate IsClauseStop(c: char) { c == '.' || c == '!' || c == '?' }

  /** Where the greedy `[^.!?]*` starting at `j` stops. */
  function ClauseEnd(s: string, j: nat): (k: nat)
    requires j <= |s|
    decreases |s| - j
    ensures j <= k <= |s|
  {
    if j == |s| || IsClauseStop(s[j]) then j else ClauseEnd(s, j + 1)
  }

  /** The clause holds no sentence end, and stops at one or at the end of
      the text. */
  lemma {:induction false} ClauseEndSpec(s: string, j: nat)
    requires j <= |s|
    decreases |s| - j
    ensures var k := ClauseEnd(s, j);
      (forall m :: j <= m < k ==> !IsClauseStop(s[m])) && (k < |s| ==> IsClauseStop(s[k]))
  {
    if j < |s| && !IsClauseStop(s[j]) {
      ClauseEndSpec(s, j + 1);
    }
  }

  /** `re.findall` of one requirement pattern, ignoring case, from `i`. */
  function FindAllRequests(s: string, alts: seq<string>, i: nat): seq<RequestMatch>
    requires i <= |s|
    decreases |s| - i
  {
    if i == |s| then []
    else
      match FirstTrigger(s, alts, i)
      case None => FindAllRequests(s, alts, i + 1)
      case Some(a) => [MatchAt(s, a, i)] + FindAllRequests(s, alts, ClauseEnd(s, i + |a| + 1))
  }

  /** The match of trigger `a` at `i`: the phrase as written, and the clause
      from after the space up to the next sentence end. */
  function MatchAt(s: string, a: string, i: nat): RequestMatch
    requires TriggerAt(s, a, i)
  {
    var j := i + |a| + 1;
    RequestMatch(s[i..i + |a|], s[j..ClauseEnd(s, j)])
  }

  /** Every match found begins with one of the trigger phrases. */
  lemma {:induction false} FindAllRequestsSound(s: string, alts: seq<string>, i: nat)
    requires i <= |s|
    decreases |s| - i
    ensures forall m :: m in FindAllRequests(s, alts, i) ==> Lower(m.trigger) in alts
  {
    if i < |s| {
      match FirstTrigger(s, alts, i)
      case None => FindAllRequestsSound(s, alts, i + 1);
      case Some(a) => FindAllRequestsSound(s, alts, ClauseEnd(s, i + |a| + 1));
    }
  }

  /** The phrase chosen is the first, in pattern order, that matches at `i`;
      when none is chosen, none matches there. */
  lemma {:induction false} FirstTriggerSpec(s: string, alts: seq<string>, i: nat)
    ensures match FirstTrigger(s, alts, i)
      case Some(a) =>
        exists j :: 0 <= j < |alts| && alts[j] == a && TriggerAt(s, a, i)
          && forall k :: 0 <= k < j ==> !TriggerAt(s, alts[k], i)
      case None => forall a :: a in alts ==> !TriggerAt(s, a, i)
  {
    if |alts| > 0 && !TriggerAt(s, alts[0], i) {
      FirstTriggerSpec(s, alts[1..], i);
      match FirstTrigger(s, alts[1..], i)
      case Some(a) =>
        var j :| 0 <= j < |alts[1..]| && alts[1..][j] == a && TriggerAt(s, a, i)
          && forall k :: 0 <= k < j ==> !TriggerAt(s, alts[1..][k], i);
        assert alts[j + 1] == a;
        forall k | 0 <= k < j + 1 ensures !TriggerAt(s, alts[k], i) {
          if k > 0 { assert alts[k] == alts[1..][k - 1]; }
        }
      case None =>
        forall a | a in alts ensures !TriggerAt(s, a, i) {
          if a != alts[0] { assert a in alts[1..]; }
        }
    } else if |alts| > 0 {
      assert alts[0] == alts[0];
    }
  }

  /** A trigger phrase matching at the scan position is reported there: the
      phrase as written, and the clause up to the next `.`, `!` or `?`; the
      scan resumes where the clause stops. */
  lemma FindAllRequestsAtTrigger(s: string, alts: seq<string>, i: nat, a: string)
    requires i < |s| && FirstTrigger(s, alts, i) == Some(a)
    ensures TriggerAt(s, a, i)
    ensures FindAllRequests(s, alts, i)
      == [MatchAt(s, a, i)] + FindAllRequests(s, alts, ClauseEnd(s, i + |a| + 1))
  {
    var x := FindAllRequests(s, alts, i);
    FindAllRequestsHead(s, alts, i, a);
    FindAllRequestsTail(s, alts, i, a);
    assert x == [x[0]] + x[1..];
  }

  /** At a trigger, the scan's first match is the one made there. */
  lemma FindAllRequestsHead(s: string, alts: seq<string>, i: nat, a: string)
    requires i < |s| && FirstTrigger(s, alts, i) == Some(a)
    ensures TriggerAt(s, a, i)
    ensures |FindAllRequests(s, alts, i)| > 0 && FindAllRequests(s, alts, i)[0] == MatchAt(s, a, i)
  {
  }

  /** At a trigger, the rest of the scan resumes where the clause ends. */
  lemma FindAllRequestsTail(s: string, alts: seq<string>, i: nat, a: string)
    requires i < |s| && FirstTrigger(s, alts, i) == Some(a)
    ensures TriggerAt(s, a, i)
    ensures |FindAllRequests(s, alts, i)| > 0
    ensures FindAllRequests(s, alts, i)[1..] == FindAllRequests(s, alts, ClauseEnd(s, i + |a| + 1))
  {
    var rest := FindAllRequests(s, alts, ClauseEnd(s, i + |a| + 1));
    assert FindAllRequests(s, alts, i) == [MatchAt(s, a, i)] + rest;
    assert ([MatchAt(s, a, i)] + rest)[1..] == rest;
  }

  /** The scan finds no request exactly when no trigger phrase, followed by
      a space, occurs at any position from `i` on. */
  lemma {:induction false} FindAllRequestsEmpty(s: string, alts: seq<string>, i: nat)
    requires i <= |s|
    decreases |s| - i
    ensures FindAllRequests(s, alts, i) == [] <==>
      forall j, a :: i <= j < |s| && a in alts ==> !TriggerAt(s, a, j)
  {
    if i < |s| {
      FirstTriggerSpec(s, alts, i);
      match FirstTrigger(s, alts, i)
      case None =>
        FindAllRequestsEmpty(s, alts, i + 1);
      case Some(a) =>
        assert a in alts && TriggerAt(s, a, i);
    }
  }

  /** A match as requirement text: trigger, a space and the clause, with
      surrounding whitespace removed. */
  function RequirementOf(m: RequestMatch): string
  {
    Strip(m.trigger + " " + m.clause)
  }

  /** The requirements of `ms` longer than ten characters, in order. */
  function KeptOf(ms: seq<RequestMatch>): (r: seq<string>)
    decreases |ms|
    ensures |r| <= |ms|
  {
    if |ms| == 0 then []
    else
      var req := RequirementOf(ms[|ms| - 1]);
      KeptOf(ms[..|ms| - 1]) + (if |req| > 10 then [req] else [])
  }

  /** What the first `p` patterns contribute, three matches each at most. */
  function KeptUpTo(text: string, p: nat): (r: seq<string>)
    requires p <= |RequirementPatterns|
  {
    if p == 0 then []
    else KeptUpTo(text, p - 1) + KeptOf(Take(FindAllRequests(text, RequirementPatterns[p - 1], 0), 3))
  }

  function Requirements(subject: string, body: string): seq<string>
  {
    KeptUpTo(subject + " " + body, |RequirementPatterns|)
  }

  /** `r` begins with one of the trigger phrases, in any letter case. */
  predicate StartsWithTrigger(r: string)
  {
    exists p, a :: 0 <= p < |RequirementPatterns| && a in RequirementPatterns[p]
      && |a| <= |r| && Lower(r[..|a|]) == a
  }

  /** A trigger phrase begins and ends with a lowercase letter, and does not
      begin with the placeholder's initial. */
  predicate PlainTrigger(a: string)
  {
    |a| > 0 && IsAsciiLower(a[0]) && a[0] != 'g' && IsAsciiLower(a[|a| - 1])
  }

  lemma TriggerPatternWellFormed(p: nat)
    requires p < |RequirementPatterns|
    ensures forall a :: a in RequirementPatterns[p] ==> PlainTrigger(a)
  {
  }

  /** A requirement built from a match whose trigger is a trigger phrase
      starts with that phrase. */
  lemma RequirementStartsWithTrigger(m: RequestMatch, a: string)
    requires |a| > 0 && IsAsciiLower(a[0]) && IsAsciiLower(a[|a| - 1]) && Lower(m.trigger) == a
    ensures |RequirementOf(m)| >= |a| && RequirementOf(m)[..|a|] == m.trigger
  {
    var s := m.trigger + " " + m.clause;
    var t := m.trigger;
    assert Lower(t)[|t| - 1] == ToLower(t[|t| - 1]);
    assert !IsSpace(t[|t| - 1]);
    assert Lower(t)[0] == ToLower(t[0]);
    assert !IsSpace(s[0]);
    assert TrimStart(s) == s;
    var r := TrimEnd(s);
    TrimEndSpec(s);
    assert s[|t| - 1] == t[|t| - 1];
    assert |r| >= |t|;
    assert r[..|t|] == s[..|t|] == t;
  }

  /** What every kept requirement looks like: longer than ten characters
      and opening with a trigger phrase. */
  predicate RequirementShaped(r: string)
  {
    |r| > 10 && StartsWithTrigger(r)
  }

  lemma {:induction false} KeptOfShape(ms: seq<RequestMatch>, p: nat)
    requires p < |RequirementPatterns|
    requires forall m :: m in ms ==> Lower(m.trigger) in RequirementPatterns[p]
    ensures forall r :: r in KeptOf(ms) ==> RequirementShaped(r)
  {
    if |ms| > 0 {
      var init := ms[..|ms| - 1];
      assert forall m :: m in init ==> m in ms;
      KeptOfShape(init, p);
      var m := ms[|ms| - 1];
      var a := Lower(m.trigger);
      assert a in RequirementPatterns[p];
      TriggerPatternWellFormed(p);
      RequirementStartsWithTrigger(m, a);
      var req := RequirementOf(m);
      assert Lower(req[..|a|]) == a;
      assert StartsWithTrigger(req);
    }
  }

  /** Every kept requirement is longer than ten characters and begins with a
      trigger phrase; at most three per pattern, so nine in all. */
  lemma {:induction false} RequirementsShape(text: string, p: nat)
    requires p <= |RequirementPatterns|
    ensures forall r :: r in KeptUpTo(text, p) ==> RequirementShaped(r)
    ensures |KeptUpTo(text, p)| <= 3 * p
    ensures p > 0 ==> |KeptUpTo(text, p)| <= |KeptUpTo(text, p - 1)| + 3
  {
    if p > 0 {
      RequirementsShape(text, p - 1);
      var all := FindAllRequests(text, RequirementPatterns[p - 1], 0);
      FindAllRequestsSound(text, RequirementPatterns[p - 1], 0);
      var ms := Take(all, 3);
      assert |ms| <= 3;
      assert forall m :: m in ms ==> m in all;
      KeptOfShape(ms, p - 1);
      var prev := KeptUpTo(text, p - 1);
      var more := KeptOf(ms);
      assert KeptUpTo(text, p) == prev + more;
      forall r | r in prev + more ensures RequirementShaped(r) {
        if r !in prev { assert r in more; }
      }
    }
  }

  /** No requirement can be mistaken for the "General support inquiry"
      placeholder: the joined text equals it exactly when nothing was kept. */
  lemma RequirementsOrPlaceholder(subject: string, body: string)
    ensures JoinOr(Requirements(subject, body), GeneralInquiry) == GeneralInquiry
      <==> Requirements(subject, body) == []
  {
    var found := Requirements(subject, body);
    if |found| > 0 {
      var text := subject + " " + body;
      RequirementsShape(text, |RequirementPatterns|);
      assert RequirementShaped(found[0]);
      var p, a :| 0 <= p < |RequirementPatterns| && a in RequirementPatterns[p]
        && |a| <= |found[0]| && Lower(found[0][..|a|]) == a;
      TriggerPatternWellFormed(p);
      assert PlainTrigger(a);
      var joined := Join(found, "; ");
      JoinStartsWithFirst(found, "; ");
      assert ToLower(joined[0]) == Lower(found[0][..|a|])[0] == a[0];
      assert ToLower(GeneralInquiry[0]) == 'g';
    }
  }

  /** The inner loop of `extract_requirements`: the stripped requirement of
      each match, when longer than ten characters, in match order. */
  method KeepRequirements(top: seq<RequestMatch>) returns (kept: seq<string>)
    ensures kept == KeptOf(top)
  {
    kept := [];
    for m := 0 to |top|
      invariant kept == KeptOf(top[..m])
    {
      var requirement := Strip(top[m].trigger + " " + top[m].clause);
      if |requirement| > 10 {
        kept := kept + [requirement];
      }
      assert top[..m + 1][..m] == top[..m];
    }
    assert top[..|top|] == top;
  }

  method ExtractRequirements(subject: string, body: string) returns (requirements: string)
    ensures requirements == JoinOr(Requirements(subject, body), GeneralInquiry)
    ensures requirements == GeneralInquiry <==> Requirements(subject, body) == []
  {
    var text := subject + " " + body;
    var found: seq<string> := [];
    for p := 0 to |RequirementPatterns|
      invariant found == KeptUpTo(text, p)
    {
      var matches := FindAllRequests(text, RequirementPatterns[p], 0);
      var kept := KeepRequirements(Take(matches, 3));
      found := found + kept;
    }
    if |found| > 0 {
      requirements := Join(found, "; ");
    } else {
      requirements := GeneralInquiry;
    }
    RequirementsOrPlaceholder(subject, body);
  }
}
