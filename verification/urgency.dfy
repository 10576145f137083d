/**
  Urgency scoring: the lowercased `subject + " " + body` earns one point per
  urgent keyword that occurs in it as a substring and one point per
  time-pressure word that occurs in it as a whole word; two points make the
  email urgent.
*/
module UrgencyScorer {
  import opened Strings

  datatype Priority = Normal | Urgent {
    function Name(): string
    {
      match this
      case Normal => "normal"
      case Urgent => "urgent"
    }
  }

  /** The assistant's urgent-keyword list (also used by keyword extraction). */
  const UrgentKeywords: seq<string> := [
    "urgent", "critical", "emergency", "asap", "immediately", "cannot access",
    "system down", "not working", "broken", "error", "failed", "blocked",
    "deadline", "production", "outage", "severe", "major issue"]

  /** The words of the eight patterns `\basap\b`, `\bimmediately\b`, ... */
  const TimeWords: seq<string> :=
    ["asap", "immediately", "urgent", "critical", "emergency", "deadline", "today", "now"]

  /** `w` occurs at `i` with a regular-expression word boundary on each side. */
  predicate WholeWordAt(s: string, w: string, i: nat)
  {
    OccursAt(s, w, i) && Boundary(s, i) && Boundary(s, i + |w|)
  }

  /** `re.search(r'\b' + w + r'\b', s)` finds a match. */
  predicate HasWholeWord(s: string, w: string)
  {
    exists i :: 0 <= i <= |s| - |w| && WholeWordAt(s, w, i)
  }

  function CountWholeWords(words: seq<string>, s: string): nat
  {
    if |words| == 0 then 0
    else (if HasWholeWord(s, words[0]) then 1 else 0) + CountWholeWords(words[1..], s)
  }

  /** The text the scorer reads. */
  function UrgencyText(subject: string, body: string): string
  {
    Lower(subject + " " + body)
  }

  /** The urgency points: substring hits of urgent keywords plus
      whole-word hits of time words, both in the lowercased text. */
  function UrgencyScore(subject: string, body: string): nat
  {
    var text := UrgencyText(subject, body);
    CountPresent(UrgentKeywords, text) + CountWholeWords(TimeWords, text)
  }

  function DeterminePriority(subject: string, body: string): (p: Priority)
    ensures p == Urgent <==> UrgencyScore(subject, body) >= 2
  {
    if UrgencyScore(subject, body) >= 2 then Urgent else Normal
  }

  lemma {:induction false} CountWholeWordsPositive(words: seq<string>, s: string, w: string)
    requires w in words && HasWholeWord(s, w)
    ensures CountWholeWords(words, s) >= 1
  {
    if words[0] != w {
      CountWholeWordsPositive(words[1..], s, w);
    }
  }

  /** The words that are both urgent keywords and time-pressure patterns. */
  const DoubleCounted: seq<string> :=
    ["urgent", "asap", "critical", "emergency", "immediately", "deadline"]

  /** One whole-word occurrence of a double-counted word scores 2 on its own,
      so an email whose only signal is "urgent" is already urgent. */
  lemma DoubleCountedWordIsUrgent(subject: string, body: string, w: string)
    requires w in DoubleCounted
    requires HasWholeWord(UrgencyText(subject, body), w)
    ensures DeterminePriority(subject, body) == Urgent
  {
    var text := UrgencyText(subject, body);
    var i :| 0 <= i <= |text| - |w| && WholeWordAt(text, w, i);
    assert Contains(text, w);
    assert w in UrgentKeywords && w in TimeWords;
    CountPresentZero(UrgentKeywords, text);
    CountWholeWordsPositive(TimeWords, text, w);
  }

  /** Both kinds of hit count distinct words: the score is the number of
      distinct urgent keywords present plus the number of distinct
      time-pressure words present, however often each one occurs. */
  lemma UrgencyScoreIsDistinctHits(subject: string, body: string)
    ensures UrgencyScore(subject, body)
      == |PresentSet(UrgentKeywords, UrgencyText(subject, body))|
       + |WholeWordSet(TimeWords, UrgencyText(subject, body))|
  {
    var text := UrgencyText(subject, body);
    UrgentKeywordsDistinct();
    TimeWordsDistinct();
    CountPresentIsDistinctHits(UrgentKeywords, text);
    CountWholeWordsIsDistinctHits(TimeWords, text);
  }

  lemma UrgentKeywordsDistinct()
    ensures NoDuplicates(UrgentKeywords)
  {
  }

  lemma TimeWordsDistinct()
    ensures NoDuplicates(TimeWords)
  {
  }

  ghost function WholeWordSet(words: seq<string>, s: string): set<string>
  {
    set w | w in words && HasWholeWord(s, w)
  }

  lemma {:induction false} CountWholeWordsIsDistinctHits(words: seq<string>, s: string)
    requires NoDuplicates(words)
    ensures CountWholeWords(words, s) == |WholeWordSet(words, s)|
  {
    if |words| == 0 {
      assert WholeWordSet(words, s) == {};
    } else {
      var rest := words[1..];
      assert NoDuplicates(rest) by {
        forall i, j | 0 <= i < j < |rest| ensures rest[i] != rest[j] {
          assert rest[i] == words[i + 1] && rest[j] == words[j + 1];
        }
      }
      CountWholeWordsIsDistinctHits(rest, s);
      assert words[0] !in rest by {
        forall k | 0 <= k < |rest| ensures rest[k] != words[0] {
          assert rest[k] == words[k + 1];
        }
      }
      assert words == [words[0]] + rest;
      if HasWholeWord(s, words[0]) {
        assert WholeWordSet(words, s) == WholeWordSet(rest, s) + {words[0]};
      } else {
        assert WholeWordSet(words, s) == WholeWordSet(rest, s);
      }
    }
  }

  /** Priority does not depend on the letter case of subject or body. */
  lemma PriorityIgnoresCase(subject: string, body: string)
    ensures DeterminePriority(Lower(subject), Lower(body)) == DeterminePriority(subject, body)
  {
    LowerAppend(subject, " ");
    LowerAppend(subject + " ", body);
    LowerAppend(Lower(subject), " ");
    LowerAppend(Lower(subject) + " ", Lower(body));
    LowerLower(subject);
    LowerLower(body);
    assert Lower(" ") == " ";
    assert UrgencyText(Lower(subject), Lower(body)) == UrgencyText(subject, body);
  }
}
