/**
  The parts of Python's `str` that the triage pipeline uses: ASCII case
  folding, substring search (`w in s`), the regular-expression word
  boundary `\b`, `split`, `join`, `strip`, and order-keeping
  de-duplication. Strings are sequences of Unicode scalar values, as
  Python's are.
*/
module Strings {
  import opened Wrappers

  predicate IsAsciiUpper(c: char) { 'A' <= c <= 'Z' }
  predicate IsAsciiLower(c: char) { 'a' <= c <= 'z' }

  /** A character that has case (ASCII letters only in this model). */
  predicate IsCased(c: char) { IsAsciiUpper(c) || IsAsciiLower(c) }

  /** The regular-expression class `\w`, restricted to ASCII. */
  predicate IsWordChar(c: char) { IsCased(c) || ('0' <= c <= '9') || c == '_' }

  function ToLower(c: char): char
  {
    if IsAsciiUpper(c) then (c as int + 32) as char else c
  }

  function ToUpper(c: char): char
  {
    if IsAsciiLower(c) then (c as int - 32) as char else c
  }

  /** `s` with every ASCII capital letter lowered. */
  function Lower(s: string): string
  {
    seq(|s|, i requires 0 <= i < |s| => ToLower(s[i]))
  }

  lemma LowerAppend(a: string, b: string)
    ensures Lower(a + b) == Lower(a) + Lower(b)
  {
    assert forall i :: 0 <= i < |a + b| ==> Lower(a + b)[i] == (Lower(a) + Lower(b))[i];
  }

  lemma LowerLower(s: string)
    ensures Lower(Lower(s)) == Lower(s)
  {
  }

  /** `w` occurs in `s` starting at index `i`. */
  predicate OccursAt(s: string, w: string, i: nat)
  {
    i + |w| <= |s| && s[i..i + |w|] == w
  }

  /** Python's `w in s` on strings. */
  predicate Contains(s: string, w: string)
  {
    exists i :: 0 <= i <= |s| - |w| && OccursAt(s, w, i)
  }

  /** A piece placed between two others occurs in the result. */
  lemma ContainsMiddle(a: string, w: string, b: string)
    ensures Contains(a + w + b, w)
  {
    assert (a + w + b)[|a|..|a| + |w|] == w;
    assert OccursAt(a + w + b, w, |a|);
  }

  /** How many entries of `words` occur somewhere in `s` as a substring;
      an entry listed twice counts twice. */
  function CountPresent(words: seq<string>, s: string): nat
  {
    if |words| == 0 then 0
    else (if Contains(s, words[0]) then 1 else 0) + CountPresent(words[1..], s)
  }

  predicate NoDuplicates<T(==)>(s: seq<T>)
  {
    forall i, j :: 0 <= i < j < |s| ==> s[i] != s[j]
  }

  /** The distinct members of `words` that occur in `s`. */
  ghost function PresentSet(words: seq<string>, s: string): set<string>
  {
    set w | w in words && Contains(s, w)
  }

  /** Counting the list counts distinct words: a word that occurs many times
      in `s` is counted once, and a list without repeats counts each hit once. */
  lemma {:induction false} CountPresentIsDistinctHits(words: seq<string>, s: string)
    requires NoDuplicates(words)
    ensures CountPresent(words, s) == |PresentSet(words, s)|
  {
    if |words| == 0 {
      assert PresentSet(words, s) == {};
    } else {
      var rest := words[1..];
      assert NoDuplicates(rest) by {
        forall i, j | 0 <= i < j < |rest| ensures rest[i] != rest[j] {
          assert rest[i] == words[i + 1] && rest[j] == words[j + 1];
        }
      }
      CountPresentIsDistinctHits(rest, s);
      assert words[0] !in rest by {
        forall k | 0 <= k < |rest| ensures rest[k] != words[0] {
          assert rest[k] == words[k + 1];
        }
      }
      assert words == [words[0]] + rest;
      if Contains(s, words[0]) {
        assert PresentSet(words, s) == PresentSet(rest, s) + {words[0]};
        assert words[0] !in PresentSet(rest, s);
      } else {
        assert PresentSet(words, s) == PresentSet(rest, s);
      }
    }
  }

  /** The count is zero exactly when no word of the list occurs in `s`. */
  lemma {:induction false} CountPresentZero(words: seq<string>, s: string)
    ensures CountPresent(words, s) == 0 <==> forall w :: w in words ==> !Contains(s, w)
  {
    if |words| > 0 {
      CountPresentZero(words[1..], s);
      assert forall w :: w in words ==> w == words[0] || w in words[1..];
    }
  }

  /** The regular-expression `\b` at position `k` of `s` (0 <= k <= |s|). */
  predicate IsWordAt(s: string, k: int)
  {
    0 <= k < |s| && IsWordChar(s[k])
  }

  predicate Boundary(s: string, k: int)
  {
    IsWordAt(s, k - 1) != IsWordAt(s, k)
  }

  /** The parts in order with `sep` between neighbours. */
  function Join(parts: seq<string>, sep: string): string
  {
    if |parts| == 0 then ""
    else if |parts| == 1 then parts[0]
    else parts[0] + sep + Join(parts[1..], sep)
  }

  lemma JoinStartsWithFirst(parts: seq<string>, sep: string)
    requires |parts| > 0 && |parts[0]| > 0
    ensures |Join(parts, sep)| > 0 && Join(parts, sep)[0] == parts[0][0]
  {
  }

  /** The least index at or after `from` where `sep` occurs in `s`. */
  function FindFrom(s: string, sep: string, from: nat): (r: Option<nat>)
    requires |sep| > 0
    decreases |s| - from
    ensures r.Some? ==> from <= r.value && OccursAt(s, sep, r.value)
    ensures r.Some? ==> forall j :: from <= j < r.value ==> !OccursAt(s, sep, j)
    ensures r.None? ==> forall j :: from <= j ==> !OccursAt(s, sep, j)
  {
    if from + |sep| > |s| then None
    else if s[from..from + |sep|] == sep then Some(from)
    else FindFrom(s, sep, from + 1)
  }

  /** Python's `s.split(sep)` for a non-empty separator. */
  function Split(s: string, sep: string): (parts: seq<string>)
    requires |sep| > 0
    decreases |s|
    ensures |parts| >= 1
  {
    match FindFrom(s, sep, 0)
    case None => [s]
    case Some(i) => [s[..i]] + Split(s[i + |sep|..], sep)
  }

  /** A separator whose first character is absent is never found. */
  lemma FindFromNone(s: string, sep: string)
    requires |sep| > 0 && sep[0] !in s
    ensures FindFrom(s, sep, 0).None?
  {
    forall j | 0 <= j ensures !OccursAt(s, sep, j) {
      if j + |sep| <= |s| {
        assert s[j..j + |sep|][0] == s[j];
      }
    }
  }

  /** The first occurrence is at `k` when no earlier character starts one. */
  lemma FindFromFirst(s: string, sep: string, k: nat)
    requires |sep| > 0 && OccursAt(s, sep, k)
    requires forall j :: 0 <= j < k ==> s[j] != sep[0]
    ensures FindFrom(s, sep, 0) == Some(k)
  {
    var r := FindFrom(s, sep, 0);
    if r.Some? {
      var i := r.value;
      assert s[i..i + |sep|][0] == s[i];
    }
  }

  /** Splitting what `Join` built gives the pieces back, provided no piece
      contains the separator's first character. */
  lemma {:induction false} SplitJoin(parts: seq<string>, sep: string)
    requires |sep| > 0 && |parts| > 0
    requires forall p :: p in parts ==> sep[0] !in p
    ensures Split(Join(parts, sep), sep) == parts
  {
    var p := parts[0];
    if |parts| == 1 {
      FindFromNone(p, sep);
    } else {
      var rest := Join(parts[1..], sep);
      var s := p + sep + rest;
      assert s[|p|..|p| + |sep|] == sep;
      assert forall j :: 0 <= j < |p| ==> s[j] == p[j];
      FindFromFirst(s, sep, |p|);
      assert s[..|p|] == p;
      assert s[|p| + |sep|..] == rest;
      forall q | q in parts[1..] ensures sep[0] !in q { assert q in parts; }
      SplitJoin(parts[1..], sep);
    }
  }

  /** Python's `str.isspace()` for one character. */
  predicate IsSpace(c: char)
  {
    var n := c as int;
    (9 <= n <= 13) || (28 <= n <= 32) || n == 0x85 || n == 0xA0 || n == 0x1680
    || (0x2000 <= n <= 0x200A) || n == 0x2028 || n == 0x2029 || n == 0x202F
    || n == 0x205F || n == 0x3000
  }

  /** `s` without its leading whitespace. */
  function TrimStart(s: string): string
    decreases |s|
  {
    if |s| > 0 && IsSpace(s[0]) then TrimStart(s[1..]) else s
  }

  /** `lstrip` removes exactly the leading whitespace: what remains is a
      suffix that does not start with a space, and all it dropped was space. */
  lemma {:induction false} TrimStartSpec(s: string)
    decreases |s|
    ensures var r := TrimStart(s);
      |r| <= |s| && r == s[|s| - |r|..]
      && (|r| > 0 ==> !IsSpace(r[0]))
      && forall k :: 0 <= k < |s| - |r| ==> IsSpace(s[k])
  {
    if |s| > 0 && IsSpace(s[0]) {
      TrimStartSpec(s[1..]);
    }
  }

  /** `s` without its trailing whitespace. */
  function TrimEnd(s: string): string
    decreases |s|
  {
    if |s| > 0 && IsSpace(s[|s| - 1]) then TrimEnd(s[..|s| - 1]) else s
  }

  /** `rstrip` removes exactly the trailing whitespace. */
  lemma {:induction false} TrimEndSpec(s: string)
    decreases |s|
    ensures var r := TrimEnd(s);
      |r| <= |s| && r == s[..|r|]
      && (|r| > 0 ==> !IsSpace(r[|r| - 1]))
      && forall k :: |r| <= k < |s| ==> IsSpace(s[k])
  {
    if |s| > 0 && IsSpace(s[|s| - 1]) {
      TrimEndSpec(s[..|s| - 1]);
    }
  }

  /** `s` without leading and trailing whitespace. */
  function Strip(s: string): string
  {
    TrimEnd(TrimStart(s))
  }

  /** Python's slice `s[:n]`. */
  function Take<T>(s: seq<T>, n: nat): (r: seq<T>)
  {
    if |s| <= n then s else s[..n]
  }

  /** De-duplication keeping the first occurrence of each element, in order. */
  function Dedup(s: seq<string>): (r: seq<string>)
    decreases |s|
    ensures NoDuplicates(r)
    ensures forall x :: x in r <==> x in s
  {
    if |s| == 0 then []
    else
      var d := Dedup(s[..|s| - 1]);
      if s[|s| - 1] in d then d else d + [s[|s| - 1]]
  }
}
