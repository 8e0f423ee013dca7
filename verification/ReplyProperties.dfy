/** What can be relied on about the reading of replies. */
module ReplyProperties {
  import opened Text
  import opened Replies

  // ----- yes and no ------------------------------------------------------------------------------

  /** A clear yes is never taken for a skip, a refusal or silence: it reaches the checklist as the
      answer it is. */
  lemma YesIsHeardAsAnAnswer(body: string)
    requires IsYes(body)
    ensures Classify(body) == Says(TrimSpace(body))
  {
  }

  // ----- what trimming leaves ----------------------------------------------------------------------

  predicate AllIn(s: string, chars: string) {
    forall i :: 0 <= i < |s| ==> s[i] in chars
  }

  /** Trimming takes a slice: what it drops is all in the set, what it leaves begins and ends
      outside it. */
  lemma {:induction false} TrimIsASlice(s: string, cutset: string) returns (lo: nat, hi: nat)
    ensures lo <= hi <= |s| && Trim(s, cutset) == s[lo..hi]
    ensures AllIn(s[..lo], cutset) && AllIn(s[hi..], cutset)
    ensures lo < hi ==> s[lo] !in cutset && s[hi - 1] !in cutset
    decreases |s|
  {
    if s != "" && s[0] in cutset {
      lo, hi := TrimIsASlice(s[1..], cutset);
      assert s[..lo + 1] == [s[0]] + s[1..][..lo];
      assert s[1..][hi..] == s[hi + 1..] && s[1..][lo..hi] == s[lo + 1..hi + 1];
      lo, hi := lo + 1, hi + 1;
    } else if s != "" && s[|s| - 1] in cutset {
      lo, hi := TrimIsASlice(s[..|s| - 1], cutset);
      assert s[..|s| - 1][..lo] == s[..lo] && s[..|s| - 1][lo..hi] == s[lo..hi];
      assert s[hi..] == s[..|s| - 1][hi..] + [s[|s| - 1]];
    } else {
      lo, hi := 0, |s|;
      assert s[0..|s|] == s;
    }
  }

  lemma {:induction false} TrimLeftIsASuffix(s: string) returns (lo: nat)
    ensures lo <= |s| && TrimLeft(s) == s[lo..]
  {
    if s != "" && IsSpace(s[0]) {
      lo := TrimLeftIsASuffix(s[1..]);
      assert s[1..][lo..] == s[lo + 1..];
      lo := lo + 1;
    } else {
      lo := 0;
    }
  }

  lemma TrimSpaceIsASlice(s: string) returns (lo: nat, hi: nat)
    ensures lo <= hi <= |s| && TrimSpace(s) == s[lo..hi]
  {
    lo := TrimLeftIsASuffix(s);
    var t := TrimRight(s[lo..]);
    hi := lo + |t|;
    assert t == s[lo..][..|t|] == s[lo..hi];
  }

  /** So text that begins and ends outside the set comes out of any wrapping in it. */
  lemma {:induction false} TrimUnwraps(before: string, core: string, after: string, cutset: string)
    requires core != "" && core[0] !in cutset && core[|core| - 1] !in cutset
    requires AllIn(before, cutset) && AllIn(after, cutset)
    ensures Trim(before + core + after, cutset) == core
    decreases |before| + |after|
  {
    var s := before + core + after;
    if before != "" {
      assert s[0] == before[0] && s[1..] == before[1..] + core + after;
      TrimUnwraps(before[1..], core, after, cutset);
    } else {
      assert s[0] == core[0];
      if after != "" {
        assert s[|s| - 1] == after[|after| - 1];
        assert s[..|s| - 1] == before + core + after[..|after| - 1];
        TrimUnwraps(before, core, after[..|after| - 1], cutset);
      } else {
        assert s == core;
      }
    }
  }

  predicate Free(s: string) {
    s == "" || (!IsSpace(s[0]) && !IsSpace(s[|s| - 1]))
  }

  lemma TrimmedIsFree(s: string)
    ensures TrimSpace(s) == s <==> Free(s)
  {
  }

  lemma MarkedTextIsFree(core: string, marks: string)
    requires core != "" && Free(core)
    requires marks == "" || !IsSpace(marks[|marks| - 1])
    ensures Free(core + marks)
  {
    var s := core + marks;
    assert s[0] == core[0];
    assert s[|s| - 1] == if marks == "" then core[|core| - 1] else marks[|marks| - 1];
  }

  lemma TextAndMarks(core: string, marks: string, cutset: string)
    requires core != "" && Free(core) && core[0] !in cutset && core[|core| - 1] !in cutset
    requires AllIn(marks, cutset) && (marks == "" || !IsSpace(marks[|marks| - 1]))
    ensures TrimSpace(core + marks) == core + marks && Trim(core + marks, cutset) == core
  {
    MarkedTextIsFree(core, marks);
    TrimmedIsFree(core + marks);
    MarksGo(core, marks, cutset);
  }

  lemma MarksGo(core: string, marks: string, cutset: string)
    requires core != "" && core[0] !in cutset && core[|core| - 1] !in cutset && AllIn(marks, cutset)
    ensures Trim(core + marks, cutset) == core
  {
    TrimUnwraps("", core, marks, cutset);
    assert "" + core + marks == core + marks;
  }

  // ----- names -----------------------------------------------------------------------------------

  lemma {:induction false} TrimLeftKeepsLetters(s: string)
    ensures HasLetter(s) ==> HasLetter(TrimLeft(s))
  {
    if s != "" && IsSpace(s[0]) {
      TrimLeftKeepsLetters(s[1..]);
      if HasLetter(s) {
        var i :| 0 <= i < |s| && IsLetter(s[i]);
        assert s[1..][i - 1] == s[i];
      }
    }
  }

  lemma {:induction false} TrimRightKeepsLetters(s: string)
    ensures HasLetter(s) ==> HasLetter(TrimRight(s))
  {
    if s != "" && IsSpace(s[|s| - 1]) {
      TrimRightKeepsLetters(s[..|s| - 1]);
      if HasLetter(s) {
        var i :| 0 <= i < |s| && IsLetter(s[i]);
        assert s[..|s| - 1][i] == s[i];
      }
    }
  }

  /** A name that is stored is a name that shows: it is not blank on the profile, so the question
      is settled in every later session. */
  lemma StoredNamesShow(answer: string)
    ensures NormaliseName(answer) != "" ==> TrimSpace(NormaliseName(answer)) != ""
  {
    TrimLeftKeepsLetters(NormaliseName(answer));
    TrimRightKeepsLetters(TrimLeft(NormaliseName(answer)));
  }

  /** No two lead-ins agree up to the end of the shorter. */
  lemma LeadInsDiffer(j: nat, k: nat) returns (d: nat)
    requires j < |NAME_PREFIXES| && k < |NAME_PREFIXES| && j != k
    ensures d < |NAME_PREFIXES[j]| && d < |NAME_PREFIXES[k]| && NAME_PREFIXES[j][d] != NAME_PREFIXES[k][d]
  {
    var a, b := NAME_PREFIXES[j], NAME_PREFIXES[k];
    d := if a[0] != b[0] then 0 else if a[1] != b[1] then 1 else if a[2] != b[2] then 2 else 7;
  }

  predicate LedInBy(s: string, prefix: string) {
    |s| > |prefix| && EqualFold(s[..|prefix|], prefix)
  }

  lemma OneLeadInAtMost(s: string, j: nat, k: nat)
    requires j < |NAME_PREFIXES| && k < |NAME_PREFIXES| && j != k
    requires LedInBy(s, NAME_PREFIXES[k])
    ensures !LedInBy(s, NAME_PREFIXES[j])
  {
    var d := LeadInsDiffer(j, k);
    LeadInsAreLower(j, d);
    LeadInsAreLower(k, d);
    FoldsTo(s, NAME_PREFIXES[k], d);
    if LedInBy(s, NAME_PREFIXES[j]) {
      FoldsTo(s, NAME_PREFIXES[j], d);
    }
  }

  lemma FoldsTo(s: string, prefix: string, d: nat)
    requires LedInBy(s, prefix) && d < |prefix|
    ensures LowerChar(s[d]) == LowerChar(prefix[d])
  {
    assert s[..|prefix|][d] == s[d];
    assert ToLower(s[..|prefix|])[d] == LowerChar(s[..|prefix|][d]);
    assert ToLower(prefix)[d] == LowerChar(prefix[d]);
  }

  lemma LeadInsAreLower(k: nat, d: nat)
    requires k < |NAME_PREFIXES| && d < |NAME_PREFIXES[k]|
    ensures LowerChar(NAME_PREFIXES[k][d]) == NAME_PREFIXES[k][d]
  {
    var p := NAME_PREFIXES[k];
    assert d == 0 || d == 1 || d == 2 || d == 3 || d == 4 || d == 5 || d == 6 || d == 7 || d == 8 || d == 9 || d == 10;
  }

  lemma {:induction false} DropsTheLeadIn(s: string, prefixes: seq<string>, k: nat)
    requires k < |prefixes| && LedInBy(s, prefixes[k])
    requires forall j :: 0 <= j < k ==> !LedInBy(s, prefixes[j])
    ensures DropPrefix(s, prefixes) == TrimSpace(s[|prefixes[k]|..])
    decreases k
  {
    if k > 0 {
      DropsTheLeadIn(s, prefixes[1..], k - 1);
    }
  }

  lemma {:induction false} DropsNothing(s: string, prefixes: seq<string>)
    requires forall j :: 0 <= j < |prefixes| ==> !LedInBy(s, prefixes[j])
    ensures DropPrefix(s, prefixes) == s
  {
    if prefixes != [] {
      DropsNothing(s, prefixes[1..]);
    }
  }

  predicate EndsAWord(s: string, i: int) {
    0 <= i < |s| && !IsSpace(s[i]) && (i + 1 == |s| || IsSpace(s[i + 1]))
  }

  /** Where the words of `s` end, from `from` on. */
  function WordEnds(s: string, from: int): set<int> {
    set i | from <= i < |s| && EndsAWord(s, i)
  }

  lemma WordEndsNext(s: string, from: nat)
    requires from < |s|
    ensures WordEnds(s, from) == if EndsAWord(s, from) then WordEnds(s, from + 1) + {from} else WordEnds(s, from + 1)
    ensures from !in WordEnds(s, from + 1)
  {
  }

  lemma {:induction false} FieldsAreWords(s: string, from: nat)
    requires from <= |s|
    ensures CountFields(s[from..]) == |WordEnds(s, from)|
    decreases |s| - from
  {
    if from == |s| {
      assert WordEnds(s, from) == {};
    } else {
      FieldsAreWords(s, from + 1);
      WordEndsNext(s, from);
      assert s[from..][1..] == s[from + 1..];
    }
  }

  /** At most four words, at most sixty characters, and a letter somewhere. */
  predicate NameShaped(s: string) {
    |WordEnds(s, 0)| <= 4 && |s| <= 60 && exists i :: 0 <= i < |s| && IsLetter(s[i])
  }

  lemma ShapedAsANameIs(s: string)
    ensures LooksLikeAName(s) <==> NameShaped(s)
  {
    FieldsAreWords(s, 0);
    assert s[0..] == s;
  }

  /** Something with nothing to tidy. */
  predicate Tidy(name: string) {
    name != "" && Free(name) && name[0] !in ".!," && name[|name| - 1] !in ".!,"
  }

  lemma NameAndMarks(name: string, marks: string)
    requires Tidy(name) && AllIn(marks, ".!,")
    ensures TrimSpace(name + marks) == name + marks && Trim(name + marks, ".!,") == name
  {
    TextAndMarks(name, marks, ".!,");
  }

  /** What is shaped like a name is heard as it is, whatever closing marks follow it, and nothing else
      is... */
  lemma NameIsHeard(name: string, marks: string)
    requires Tidy(name) && AllIn(marks, ".!,")
    requires forall k :: 0 <= k < |NAME_PREFIXES| ==> !LedInBy(name + marks, NAME_PREFIXES[k])
    ensures NormaliseName(name + marks) == if NameShaped(name) then name else ""
  {
    ShapedAsANameIs(name);
    NameAndMarks(name, marks);
    DropsNothing(name + marks, NAME_PREFIXES);
  }

  /** ...and so is one behind any of the usual lead-ins, in whatever case. */
  lemma NameIsHeardBehindALeadIn(k: nat, lead: string, name: string, marks: string)
    requires k < |NAME_PREFIXES| && EqualFold(lead, NAME_PREFIXES[k])
    requires Tidy(name) && AllIn(marks, ".!,")
    ensures NormaliseName(lead + (name + marks)) == if NameShaped(name) then name else ""
  {
    NameAndMarks(name, marks);
    RestIsHeard(k, lead, name + marks, name);
  }

  lemma RestIsHeard(k: nat, lead: string, rest: string, name: string)
    requires k < |NAME_PREFIXES| && EqualFold(lead, NAME_PREFIXES[k])
    requires TrimSpace(rest) == rest && Trim(rest, ".!,") == name && Tidy(name)
    ensures NormaliseName(lead + rest) == if NameShaped(name) then name else ""
  {
    LeadInGoes(k, lead, rest);
    NameLeft(lead + rest, rest, name);
  }

  lemma NameLeft(answer: string, rest: string, name: string)
    requires DropPrefix(TrimSpace(answer), NAME_PREFIXES) == rest && Trim(rest, ".!,") == name
    ensures NormaliseName(answer) == if NameShaped(name) then name else ""
  {
    ShapedAsANameIs(name);
  }

  lemma LeadInGoes(k: nat, lead: string, rest: string)
    requires k < |NAME_PREFIXES| && EqualFold(lead, NAME_PREFIXES[k])
    requires rest != "" && TrimSpace(rest) == rest
    ensures DropPrefix(TrimSpace(lead + rest), NAME_PREFIXES) == rest
  {
    var s := lead + rest;
    assert |lead| == |ToLower(lead)| == |NAME_PREFIXES[k]|;
    assert s[..|lead|] == lead && s[|lead|..] == rest;
    LeadStartsWithALetter(k, lead);
    assert s[0] == lead[0] && s[|s| - 1] == rest[|rest| - 1];
    TrimmedIsFree(rest);
    TrimmedIsFree(s);
    forall j | 0 <= j < k ensures !LedInBy(s, NAME_PREFIXES[j]) {
      OneLeadInAtMost(s, j, k);
    }
    DropsTheLeadIn(s, NAME_PREFIXES, k);
  }

  lemma LeadInsStartWithLetters(k: nat)
    requires k < |NAME_PREFIXES|
    ensures NAME_PREFIXES[k] != "" && NAME_PREFIXES[k][0] in ['m', 'i', 't', 'c']
  {
    assert k == 0 || k == 1 || k == 2 || k == 3 || k == 4 || k == 5 || k == 6 || k == 7 || k == 8;
  }

  lemma LeadStartsWithALetter(k: nat, lead: string)
    requires k < |NAME_PREFIXES| && EqualFold(lead, NAME_PREFIXES[k])
    ensures lead != "" && !IsSpace(lead[0])
  {
    var p := NAME_PREFIXES[k];
    LeadInsStartWithLetters(k);
    StartsAlike(lead, p);
  }

  lemma StartsAlike(lead: string, p: string)
    requires EqualFold(lead, p) && p != "" && 'a' <= p[0] <= 'z'
    ensures lead != "" && !IsSpace(lead[0])
  {
    assert ToLower(lead)[0] == LowerChar(lead[0]) && ToLower(p)[0] == LowerChar(p[0]);
  }

  lemma SliceOfSlice(s: string, lo: nat, hi: nat, from: nat, to: nat)
    requires lo <= hi <= |s| && from <= to <= hi - lo
    ensures s[lo..hi][from..to] == s[lo + from..lo + to]
  {
    var a, b := s[lo..hi][from..to], s[lo + from..lo + to];
    assert |a| == |b| && forall k :: 0 <= k < |a| ==> a[k] == s[lo + from + k] == b[k];
  }

  lemma {:induction false} DropPrefixIsASlice(s: string, prefixes: seq<string>) returns (lo: nat, hi: nat)
    ensures lo <= hi <= |s| && DropPrefix(s, prefixes) == s[lo..hi]
  {
    if prefixes == [] {
      lo, hi := 0, |s|;
      assert s[0..|s|] == s;
    } else if LedInBy(s, prefixes[0]) {
      var n := |prefixes[0]|;
      lo, hi := TrimSpaceIsASlice(s[n..]);
      assert s[n..] == s[n..|s|];
      SliceOfSlice(s, n, |s|, lo, hi);
      lo, hi := n + lo, n + hi;
    } else {
      lo, hi := DropPrefixIsASlice(s, prefixes[1..]);
    }
  }

  lemma LessLeadInOfASlice(answer: string, a: nat, b: nat, prefixes: seq<string>) returns (lo: nat, hi: nat)
    requires a <= b <= |answer|
    ensures lo <= hi <= |answer| && DropPrefix(answer[a..b], prefixes) == answer[lo..hi]
  {
    lo, hi := DropPrefixIsASlice(answer[a..b], prefixes);
    SliceOfSlice(answer, a, b, lo, hi);
    lo, hi := a + lo, a + hi;
  }

  /** The reply, less outer spaces and its lead-in. */
  lemma LessLeadInIsASlice(answer: string, prefixes: seq<string>) returns (lo: nat, hi: nat)
    ensures lo <= hi <= |answer| && DropPrefix(TrimSpace(answer), prefixes) == answer[lo..hi]
  {
    var a, b := TrimSpaceIsASlice(answer);
    lo, hi := LessLeadInOfASlice(answer, a, b, prefixes);
  }

  lemma TidiedIsASlice(answer: string) returns (lo: nat, hi: nat)
    ensures lo <= hi <= |answer| && Trim(DropPrefix(TrimSpace(answer), NAME_PREFIXES), ".!,") == answer[lo..hi]
    ensures lo < hi ==> answer[lo] !in ".!," && answer[hi - 1] !in ".!,"
  {
    var a, b := LessLeadInIsASlice(answer, NAME_PREFIXES);
    lo, hi := TrimIsASlice(answer[a..b], ".!,");
    SliceOfSlice(answer, a, b, lo, hi);
    lo, hi := a + lo, a + hi;
  }

  /** Nothing is stored as a name that was not said: it is a stretch of the reply, without marks at
      its ends, and short enough to be a name. */
  lemma StoredNameWasSaid(answer: string) returns (lo: nat, hi: nat)
    ensures lo <= hi <= |answer| && NormaliseName(answer) == answer[lo..hi]
    ensures lo < hi ==> NameShaped(answer[lo..hi]) && answer[lo] !in ".!," && answer[hi - 1] !in ".!,"
  {
    lo, hi := TidiedIsASlice(answer);
    ShapedAsANameIs(answer[lo..hi]);
    if NormaliseName(answer) == "" {
      hi := lo;
    }
  }

  // ----- cadences --------------------------------------------------------------------------------

  lemma {:induction false} ContainsWhatIsThere(s: string, sub: string, i: nat)
    requires i + |sub| <= |s| && s[i..i + |sub|] == sub
    ensures Contains(s, sub)
  {
    if i > 0 {
      assert s[1..][i - 1..i - 1 + |sub|] == s[i..i + |sub|];
      ContainsWhatIsThere(s[1..], sub, i - 1);
    }
  }

  lemma {:induction false} TrimLeftReaches(before: string, rest: string) returns (b: string)
    requires rest != "" && !IsSpace(rest[0])
    ensures TrimLeft(before + rest) == b + rest
  {
    var s := before + rest;
    if before != "" && IsSpace(before[0]) {
      b := TrimLeftReaches(before[1..], rest);
      assert s[1..] == before[1..] + rest;
    } else {
      b := before;
      assert s[0] == if before == "" then rest[0] else before[0];
    }
  }

  lemma {:induction false} TrimRightReaches(front: string, after: string) returns (a: string)
    requires front != "" && !IsSpace(front[|front| - 1])
    ensures TrimRight(front + after) == front + a
  {
    var s := front + after;
    if after != "" && IsSpace(after[|after| - 1]) {
      a := TrimRightReaches(front, after[..|after| - 1]);
      assert s[..|s| - 1] == front + after[..|after| - 1];
    } else {
      a := after;
      assert s[|s| - 1] == if after == "" then front[|front| - 1] else after[|after| - 1];
    }
  }

  lemma TrimKeepsAWord(before: string, word: string, after: string) returns (b: string, a: string)
    requires word != "" && Free(word)
    ensures TrimSpace(before + word + after) == b + word + a
  {
    assert before + word + after == before + (word + after);
    b := TrimLeftReaches(before, word + after);
    assert b + (word + after) == (b + word) + after;
    assert (b + word)[|b + word| - 1] == word[|word| - 1];
    a := TrimRightReaches(b + word, after);
  }

  lemma LowerContains(b: string, word: string, a: string)
    ensures Contains(ToLower(b + word + a), ToLower(word))
  {
    var s := b + word + a;
    var lower, w := ToLower(s), ToLower(word);
    forall i | 0 <= i < |w| ensures lower[|b|..|b| + |w|][i] == w[i] {
      assert s[|b| + i] == word[i];
      assert lower[|b| + i] == LowerChar(s[|b| + i]);
    }
    assert lower[|b|..|b| + |w|] == w;
    ContainsWhatIsThere(lower, w, |b|);
  }

  /** A word is heard wherever it stands in a reply, in whatever case. */
  lemma WordIsHeardAnywhere(before: string, word: string, after: string)
    requires word != "" && Free(word)
    ensures Contains(ToLower(TrimSpace(before + word + after)), ToLower(word))
  {
    var b, a := TrimKeepsAWord(before, word, after);
    LowerContains(b, word, a);
  }

  /** One of these words, anywhere in the reply and in any case, is heard as its cadence; of two,
      the busier.  A reply with none of them names no cadence. */
  lemma CadenceIsHeard(before: string, word: string, after: string)
    requires word != "" && Free(word)
    ensures var f := NormaliseFrequency(before + word + after);
      && (ToLower(word) in TWICE_WORDS ==> f == TWICE_DAILY)
      && (ToLower(word) in WEEKDAY_WORDS ==> f == TWICE_DAILY || f == WEEKDAYS)
      && (ToLower(word) in DAILY_WORDS ==> f != "")
  {
    var heard, w := ToLower(TrimSpace(before + word + after)), ToLower(word);
    WordIsHeardAnywhere(before, word, after);
    HeardAmong(heard, w, TWICE_WORDS);
    HeardAmong(heard, w, WEEKDAY_WORDS);
    HeardAmong(heard, w, DAILY_WORDS);
  }

  lemma HeardAmong(heard: string, w: string, words: seq<string>)
    requires Contains(heard, w)
    ensures w in words ==> ContainsAny(heard, words)
  {
  }

  lemma {:induction false} ContainsMeans(s: string, sub: string) returns (i: nat)
    requires Contains(s, sub)
    ensures i + |sub| <= |s| && s[i..i + |sub|] == sub
  {
    if sub <= s {
      i := 0;
    } else {
      i := ContainsMeans(s[1..], sub);
      assert s[1..][i..i + |sub|] == s[i + 1..i + 1 + |sub|];
      i := i + 1;
    }
  }

  /** The words that stand for a cadence. */
  function WordsFor(f: string): seq<string> {
    if f == TWICE_DAILY then TWICE_WORDS else if f == WEEKDAYS then WEEKDAY_WORDS else DAILY_WORDS
  }

  lemma WordsForWereHeard(answer: string)
    requires NormaliseFrequency(answer) != ""
    ensures ContainsAny(ToLower(TrimSpace(answer)), WordsFor(NormaliseFrequency(answer)))
  {
  }

  lemma LowerSlice(s: string, i: nat, n: nat)
    requires i + n <= |s|
    ensures ToLower(s[i..i + n]) == ToLower(s)[i..i + n]
  {
    var a, b := ToLower(s[i..i + n]), ToLower(s)[i..i + n];
    assert |a| == |b| && forall j :: 0 <= j < n ==> a[j] == LowerChar(s[i + j]) == b[j];
  }

  lemma ThreeParts(s: string, i: nat, n: nat)
    requires i + n <= |s|
    ensures s == s[..i] + s[i..i + n] + s[i + n..]
  {
  }

  lemma WordAt(answer: string, lo: nat, hi: nat, i: nat, w: string) returns (before: string, word: string, after: string)
    requires lo <= hi <= |answer| && i + |w| <= hi - lo && ToLower(answer[lo..hi])[i..i + |w|] == w
    ensures answer == before + word + after && ToLower(word) == w
  {
    var k, n := lo + i, |w|;
    before, word, after := answer[..k], answer[k..k + n], answer[k + n..];
    SliceOfSlice(answer, lo, hi, i, i + n);
    LowerSlice(answer[lo..hi], i, n);
    ThreeParts(answer, k, n);
  }

  /** And only such a word is: a cadence is never heard in a reply that does not name it. */
  lemma CadenceWasNamed(answer: string) returns (before: string, word: string, after: string)
    requires NormaliseFrequency(answer) != ""
    ensures answer == before + word + after && ToLower(word) in WordsFor(NormaliseFrequency(answer))
  {
    var words, heard := WordsFor(NormaliseFrequency(answer)), ToLower(TrimSpace(answer));
    WordsForWereHeard(answer);
    var k :| 0 <= k < |words| && Contains(heard, words[k]);
    var lo, hi := TrimSpaceIsASlice(answer);
    var i := ContainsMeans(heard, words[k]);
    before, word, after := WordAt(answer, lo, hi, i, words[k]);
  }

  // ----- skips and refusals ----------------------------------------------------------------------

  lemma MarksAreMarks(marks: string)
    requires AllIn(marks, ".!?")
    ensures AllIn(marks, ".!? ") && (marks == "" || !IsSpace(marks[|marks| - 1]))
  {
    assert forall c: char :: c in ".!?" ==> c in ".!? ";
  }

  /** A word with nothing to strip. */
  predicate Stripped(word: string) {
    word != "" && Free(word) && word[0] !in ".!? " && word[|word| - 1] !in ".!? "
  }

  lemma BareWord(word: string, marks: string)
    requires Stripped(word) && AllIn(marks, ".!?")
    ensures Bare(word + marks) == ToLower(word)
  {
    MarksAreMarks(marks);
    TextAndMarks(word, marks, ".!? ");
  }

  /** Words that close an item are heard in any case and with any closing marks. */
  lemma ClosingWordIsHeard(word: string, marks: string)
    requires Stripped(word) && AllIn(marks, ".!?")
    ensures Classify(word + marks).Skip? <==> ToLower(word) in SKIP_WORDS
    ensures Classify(word + marks).Refusal? <==> ToLower(word) in DECLINE_WORDS
  {
    BareWord(word, marks);
  }

  const YES_OPENINGS := ["yes ", "yeah ", "sign me up"]

  /** A reply is a clear yes exactly when it is one of the listed words or opens with one of the three
      openings, in any case and with any closing marks. */
  lemma ClearYesIsHeard(word: string, marks: string)
    requires Stripped(word) && AllIn(marks, ".!?")
    ensures IsYes(word + marks)
       <==> ToLower(word) in YES_WORDS || exists k :: 0 <= k < |YES_OPENINGS| && YES_OPENINGS[k] <= ToLower(word)
  {
    BareWord(word, marks);
    assert YES_OPENINGS[0] == "yes " && YES_OPENINGS[1] == "yeah " && YES_OPENINGS[2] == "sign me up";
  }

  // ----- interests -------------------------------------------------------------------------------

  /** Interests as a list that storing and reading back would keep apart. */
  predicate Separable(parts: seq<string>) {
    forall i :: 0 <= i < |parts| ==> ',' !in parts[i] && parts[i] != ""
  }

  lemma {:induction false} SplitPlain(s: string)
    requires ',' !in s
    ensures Split(s, ',') == [s]
  {
    if s != "" {
      SplitPlain(s[1..]);
      assert [s[0]] + s[1..] == s;
    }
  }

  lemma {:induction false} SplitHead(a: string, b: string)
    requires ',' !in a
    ensures Split(a + ([','] + b), ',') == [a] + Split(b, ',')
  {
    var s := a + ([','] + b);
    if a == "" {
      assert s == [','] + b && s[1..] == b;
    } else {
      SplitHead(a[1..], b);
      assert s[1..] == a[1..] + ([','] + b) && s[0] == a[0];
      assert [a[0]] + a[1..] == a;
    }
  }

  function Spaced(parts: seq<string>): (r: seq<string>)
    ensures |r| == |parts|
    ensures forall i :: 0 <= i < |parts| ==> r[i] == if i == 0 then parts[0] else " " + parts[i]
  {
    seq(|parts|, i requires 0 <= i < |parts| => if i == 0 then parts[0] else " " + parts[i])
  }

  lemma SpacedRest(parts: seq<string>)
    requires |parts| > 1
    ensures Spaced(parts) == [parts[0]] + ([" " + parts[1]] + Spaced(parts[1..])[1..])
  {
    var rest := parts[1..];
    var r := [parts[0]] + ([" " + rest[0]] + Spaced(rest)[1..]);
    forall i | 0 <= i < |parts| ensures Spaced(parts)[i] == r[i] {
      if i >= 2 {
        assert r[i] == Spaced(rest)[i - 1];
      }
    }
  }

  lemma SplitSpaced(s: string)
    ensures Split(" " + s, ',') == [" " + Split(s, ',')[0]] + Split(s, ',')[1..]
  {
    assert (" " + s)[1..] == s && (" " + s)[0] == ' ';
  }

  /** Splitting what was joined gives the pieces back, all but the first behind a space. */
  lemma {:induction false} SplitJoin(parts: seq<string>)
    requires parts != [] && forall i :: 0 <= i < |parts| ==> ',' !in parts[i]
    ensures Split(Join(parts, ", "), ',') == Spaced(parts)
  {
    if |parts| == 1 {
      SplitPlain(parts[0]);
      assert Spaced(parts) == [parts[0]];
    } else {
      var rest := parts[1..];
      SplitJoin(rest);
      var tail := Join(rest, ", ");
      JoinIs(parts);
      SplitHead(parts[0], " " + tail);
      SplitSpaced(tail);
      SpacedRest(parts);
    }
  }

  lemma JoinIs(parts: seq<string>)
    requires |parts| > 1
    ensures Join(parts, ", ") == parts[0] + ([','] + (" " + Join(parts[1..], ", ")))
  {
    var tail := Join(parts[1..], ", ");
    assert ", " + tail == [','] + (" " + tail);
  }

  lemma {:induction false} SplitHasNoCommas(s: string)
    ensures forall i :: 0 <= i < |Split(s, ',')| ==> ',' !in Split(s, ',')[i]
  {
    if s != "" {
      SplitHasNoCommas(s[1..]);
    }
  }

  lemma {:induction false} TrimIsInside(s: string, cutset: string)
    ensures forall c :: c in Trim(s, cutset) ==> c in s
    ensures |Trim(s, cutset)| <= |s|
    decreases |s|
  {
    if s != "" && s[0] in cutset {
      TrimIsInside(s[1..], cutset);
    } else if s != "" && s[|s| - 1] in cutset {
      TrimIsInside(s[..|s| - 1], cutset);
    }
  }

  lemma {:induction false} TrimLeftIsInside(s: string)
    ensures forall c :: c in TrimLeft(s) ==> c in s
    ensures |TrimLeft(s)| <= |s|
    ensures |TrimLeft(s)| == |s| ==> TrimLeft(s) == s
  {
    if s != "" && IsSpace(s[0]) {
      TrimLeftIsInside(s[1..]);
    }
  }

  lemma TrimSpaceIsInside(s: string)
    ensures forall c :: c in TrimSpace(s) ==> c in s
    ensures |TrimSpace(s)| <= |s|
    ensures |TrimSpace(s)| == |s| ==> TrimSpace(s) == s
  {
    TrimLeftIsInside(s);
    assert TrimRight(TrimLeft(s)) <= TrimLeft(s);
  }

  lemma CleanIsInside(part: string)
    requires ',' !in part
    ensures ',' !in Clean(part)
    ensures |Clean(part)| <= |TrimSpace(part)| <= |part|
  {
    TrimSpaceIsInside(part);
    var lower := ToLower(TrimSpace(part));
    forall i | 0 <= i < |lower| ensures lower[i] != ',' {
      assert lower[i] == LowerChar(TrimSpace(part)[i]);
    }
    TrimIsInside(lower, ".!?");
  }

  lemma {:induction false} InterestsAreSeparable(parts: seq<string>)
    requires forall i :: 0 <= i < |parts| ==> ',' !in parts[i]
    ensures Separable(Interests(parts))
    ensures |Interests(parts)| <= |parts|
    ensures forall i, j :: 0 <= i < j < |Interests(parts)| ==> Interests(parts)[i] != Interests(parts)[j]
    ensures forall k :: k in Interests(parts) ==> exists i :: 0 <= i < |parts| && Clean(parts[i]) == k
  {
    if parts != [] {
      var n := |parts| - 1;
      InterestsAreSeparable(parts[..n]);
      CleanIsInside(parts[n]);
      var rest := Interests(parts[..n]);
      forall k | k in rest ensures exists i :: 0 <= i < |parts| && Clean(parts[i]) == k {
        var i :| 0 <= i < |parts[..n]| && Clean(parts[..n][i]) == k;
        assert Clean(parts[i]) == k;
      }
    }
  }

  lemma {:induction false} TrimAgain(s: string, cutset: string)
    ensures Trim(Trim(s, cutset), cutset) == Trim(s, cutset)
    decreases |s|
  {
    if s != "" && s[0] in cutset {
      TrimAgain(s[1..], cutset);
    } else if s != "" && s[|s| - 1] in cutset {
      TrimAgain(s[..|s| - 1], cutset);
    }
  }

  lemma LowerAgain(s: string)
    requires forall c :: c in s ==> LowerChar(c) == c
    ensures ToLower(s) == s
  {
  }

  /** Cleaning again only trims outer spaces, and whatever that lays bare. */
  lemma CleanedStays(part: string)
    ensures TrimSpace(Clean(part)) == Clean(part) ==> Clean(Clean(part)) == Clean(part)
  {
    var lower := ToLower(TrimSpace(part));
    TrimIsInside(lower, ".!?");
    forall c | c in lower ensures LowerChar(c) == c {
      var i :| 0 <= i < |lower| && lower[i] == c;
      assert lower[i] == LowerChar(TrimSpace(part)[i]);
    }
    LowerAgain(Clean(part));
    TrimAgain(lower, ".!?");
  }

  lemma SpaceBefore(s: string)
    ensures TrimSpace(" " + s) == TrimSpace(s) && Clean(" " + s) == Clean(s)
  {
    assert (" " + s)[1..] == s && (" " + s)[0] == ' ';
  }

  lemma SpacedClean(parts: seq<string>, i: int)
    requires 0 <= i < |parts|
    ensures Clean(Spaced(parts)[i]) == Clean(parts[i])
  {
    SpaceBefore(parts[i]);
  }

  /** Non-empty pieces, each once. */
  predicate EachOnce(kept: seq<string>) {
    && (forall i :: 0 <= i < |kept| ==> kept[i] != "")
    && (forall i, j :: 0 <= i < j < |kept| ==> kept[i] != kept[j])
  }

  predicate CleanTo(parts: seq<string>, kept: seq<string>) {
    |kept| == |parts| && forall i :: 0 <= i < |parts| ==> kept[i] == Clean(parts[i])
  }

  /** The non-empty pieces, each where it first occurs. */
  function Dedup(pieces: seq<string>): seq<string> {
    if pieces == [] then [] else AddOnce(Dedup(pieces[..|pieces| - 1]), pieces[|pieces| - 1])
  }

  lemma CleanToFront(parts: seq<string>, cleaned: seq<string>)
    requires parts != [] && CleanTo(parts, cleaned)
    ensures CleanTo(parts[..|parts| - 1], cleaned[..|parts| - 1])
  {
  }

  lemma {:induction false} InterestsAreDeduped(parts: seq<string>, cleaned: seq<string>)
    requires CleanTo(parts, cleaned)
    ensures Interests(parts) == Dedup(cleaned)
  {
    if parts != [] {
      CleanToFront(parts, cleaned);
      InterestsAreDeduped(parts[..|parts| - 1], cleaned[..|parts| - 1]);
    }
  }

  lemma {:induction false} DedupKeepsDistinct(pieces: seq<string>)
    requires EachOnce(pieces)
    ensures Dedup(pieces) == pieces
  {
    if pieces != [] {
      var front, p := pieces[..|pieces| - 1], pieces[|pieces| - 1];
      DedupKeepsDistinct(front);
      assert pieces == front + [p] && p != "" && p !in front;
    }
  }

  lemma {:induction false} DedupInFull(pieces: seq<string>)
    ensures |Dedup(pieces)| <= |pieces|
    ensures |Dedup(pieces)| == |pieces| ==> Dedup(pieces) == pieces
  {
    if pieces != [] {
      var front, p := pieces[..|pieces| - 1], pieces[|pieces| - 1];
      DedupInFull(front);
      assert pieces == front + [p];
    }
  }

  /** Lists that join to the same text are the same. */
  lemma JoinTellsListsApart(a: seq<string>, b: seq<string>)
    requires Separable(a) && Separable(b) && Join(a, ", ") == Join(b, ", ")
    ensures a == b
  {
    if a != [] && b != [] {
      SplitJoin(a);
      SplitJoin(b);
      forall i | 0 <= i < |a| ensures a[i] == b[i] {
        assert Spaced(a)[i] == Spaced(b)[i];
        if i > 0 {
          assert (" " + a[i])[1..] == (" " + b[i])[1..];
        }
      }
    }
  }

  predicate OuterSpaceFree(parts: seq<string>) {
    forall i :: 0 <= i < |parts| ==> TrimSpace(parts[i]) == parts[i]
  }

  predicate SpaceAfterMarks(t: string) {
    exists k :: 0 < k < |t| && AllIn(t[..k], ".!?") && IsSpace(t[k])
  }

  predicate SpaceBeforeMarks(t: string) {
    exists k :: 0 < k < |t| && AllIn(t[k..], ".!?") && IsSpace(t[k - 1])
  }

  /** A piece, as it was sent, that has a space next to the closing marks at one of its ends. */
  predicate SpaceBesideMarks(part: string) {
    SpaceAfterMarks(TrimSpace(part)) || SpaceBeforeMarks(TrimSpace(part))
  }

  predicate SameButCase(t: string, lower: string) {
    |lower| == |t| && forall i :: 0 <= i < |t| ==> lower[i] == LowerChar(t[i])
  }

  lemma CaseHidesNoMarks(t: string, lower: string, lo: nat, hi: nat)
    requires SameButCase(t, lower) && lo <= hi <= |t|
    ensures AllIn(lower[lo..hi], ".!?") <==> AllIn(t[lo..hi], ".!?")
  {
    assert forall i :: 0 <= i < hi - lo ==> t[lo..hi][i] == t[lo + i] && lower[lo..hi][i] == lower[lo + i];
  }

  lemma StartsWithASpace(t: string, lower: string, lo: nat)
    requires SameButCase(t, lower) && lo < |t| && AllIn(lower[..lo], ".!?") && lower[lo] !in ".!?"
    requires !IsSpace(t[0])
    ensures IsSpace(lower[lo]) <==> SpaceAfterMarks(t)
  {
    CaseHidesNoMarks(t, lower, 0, lo);
    if k :| 0 < k < |t| && AllIn(t[..k], ".!?") && IsSpace(t[k]) {
      if lo < k {
        assert t[..k][lo] == t[lo];
      }
      if k < lo {
        assert lower[..lo][k] == lower[k];
      }
    }
  }

  lemma EndsWithASpace(t: string, lower: string, hi: nat)
    requires SameButCase(t, lower) && 0 < hi <= |t| && AllIn(lower[hi..], ".!?") && lower[hi - 1] !in ".!?"
    requires !IsSpace(t[|t| - 1])
    ensures IsSpace(lower[hi - 1]) <==> SpaceBeforeMarks(t)
  {
    CaseHidesNoMarks(t, lower, hi, |t|);
    assert t[hi..|t|] == t[hi..] && lower[hi..|t|] == lower[hi..];
    if k :| 0 < k < |t| && AllIn(t[k..], ".!?") && IsSpace(t[k - 1]) {
      if k < hi {
        assert t[k..][hi - 1 - k] == t[hi - 1];
      }
      if hi < k {
        assert lower[hi..][k - 1 - hi] == lower[k - 1];
      }
    }
  }

  lemma MarksAloneHideNoSpace(t: string)
    requires AllIn(t, ".!?")
    ensures !SpaceAfterMarks(t) && !SpaceBeforeMarks(t)
  {
  }

  lemma EmptySlice(t: string, lower: string, cut: nat)
    requires SameButCase(t, lower) && cut <= |t|
    requires AllIn(lower[..cut], ".!?") && AllIn(lower[cut..], ".!?")
    ensures AllIn(t, ".!?")
  {
    CaseHidesNoMarks(t, lower, 0, cut);
    CaseHidesNoMarks(t, lower, cut, |t|);
    assert t == t[..cut] + t[cut..];
  }

  lemma CoreIsFree(t: string, lower: string, lo: nat, hi: nat)
    requires SameButCase(t, lower) && Free(t)
    requires lo <= hi <= |t| && AllIn(lower[..lo], ".!?") && AllIn(lower[hi..], ".!?")
    requires lo < hi ==> lower[lo] !in ".!?" && lower[hi - 1] !in ".!?"
    ensures Free(lower[lo..hi]) <==> !SpaceAfterMarks(t) && !SpaceBeforeMarks(t)
  {
    if lo < hi {
      StartsWithASpace(t, lower, lo);
      EndsWithASpace(t, lower, hi);
    } else {
      EmptySlice(t, lower, lo);
      MarksAloneHideNoSpace(t);
    }
  }

  /** Cleaning lays a space bare exactly when the piece has one beside its marks. */
  lemma CleanLeavesASpace(part: string)
    ensures TrimSpace(Clean(part)) == Clean(part) <==> !SpaceBesideMarks(part)
  {
    var t := TrimSpace(part);
    var lower := ToLower(t);
    var lo, hi := TrimIsASlice(lower, ".!?");
    TrimmedIsFree(Clean(part));
    CoreIsFree(t, lower, lo, hi);
  }

  lemma {:induction false} EachInterestIsKept(parts: seq<string>, i: int)
    requires 0 <= i < |parts| && Clean(parts[i]) != ""
    ensures Clean(parts[i]) in Interests(parts)
  {
    if i < |parts| - 1 {
      EachInterestIsKept(parts[..|parts| - 1], i);
    }
  }

  lemma KeptAreFreeExactlyWhen(parts: seq<string>)
    requires forall i :: 0 <= i < |parts| ==> ',' !in parts[i]
    ensures OuterSpaceFree(Interests(parts)) <==> forall i :: 0 <= i < |parts| ==> !SpaceBesideMarks(parts[i])
  {
    var kept := Interests(parts);
    InterestsAreSeparable(parts);
    if OuterSpaceFree(kept) {
      forall i | 0 <= i < |parts| ensures !SpaceBesideMarks(parts[i]) {
        CleanLeavesASpace(parts[i]);
        if Clean(parts[i]) != "" {
          EachInterestIsKept(parts, i);
        }
      }
    }
    if forall i :: 0 <= i < |parts| ==> !SpaceBesideMarks(parts[i]) {
      forall k | 0 <= k < |kept| ensures TrimSpace(kept[k]) == kept[k] {
        assert kept[k] in kept;
        var i :| 0 <= i < |parts| && Clean(parts[i]) == kept[k];
        CleanLeavesASpace(parts[i]);
      }
    }
  }

  /** Interests read back as they were stored exactly when no piece between the commas has a space
      beside the closing marks at one of its ends. */
  lemma StoredInterestsReadBackExactlyWhen(raw: string)
    ensures NormaliseInterests(NormaliseInterests(raw)) == NormaliseInterests(raw)
       <==> forall i :: 0 <= i < |Split(raw, ',')| ==> !SpaceBesideMarks(Split(raw, ',')[i])
  {
    SplitHasNoCommas(raw);
    KeptAreFreeExactlyWhen(Split(raw, ','));
    ReadBackExactlyWhen(raw);
  }

  lemma ReadBackExactlyWhen(raw: string)
    ensures NormaliseInterests(NormaliseInterests(raw)) == NormaliseInterests(raw)
       <==> OuterSpaceFree(Interests(Split(raw, ',')))
  {
    var kept := Interests(Split(raw, ','));
    SplitHasNoCommas(raw);
    InterestsAreSeparable(Split(raw, ','));
    if kept == [] {
      assert Split("", ',') == [""] && [""][..0] == [] && Clean("") == "";
    } else {
      SplitJoin(kept);
      ReadBack(kept, Split(raw, ','));
    }
  }

  lemma ReadBack(kept: seq<string>, parts: seq<string>)
    requires kept == Interests(parts) && Separable(kept) && kept != []
    requires forall i, j :: 0 <= i < j < |kept| ==> kept[i] != kept[j]
    requires forall k :: k in kept ==> exists i :: 0 <= i < |parts| && Clean(parts[i]) == k
    ensures Join(Interests(Spaced(kept)), ", ") == Join(kept, ", ") <==> OuterSpaceFree(kept)
  {
    if OuterSpaceFree(kept) {
      TrimmedReadBack(kept, parts);
    }
    if Join(Interests(Spaced(kept)), ", ") == Join(kept, ", ") {
      ReadBackIsTrimmed(kept);
    }
  }

  lemma TrimmedReadBack(kept: seq<string>, parts: seq<string>)
    requires Separable(kept) && OuterSpaceFree(kept)
    requires forall i, j :: 0 <= i < j < |kept| ==> kept[i] != kept[j]
    requires forall k :: k in kept ==> exists i :: 0 <= i < |parts| && Clean(parts[i]) == k
    ensures Interests(Spaced(kept)) == kept
  {
    forall i | 0 <= i < |kept| ensures Clean(Spaced(kept)[i]) == kept[i] {
      SpacedClean(kept, i);
      assert kept[i] in kept;
      var k :| 0 <= k < |parts| && Clean(parts[k]) == kept[i];
      CleanedStays(parts[k]);
    }
    InterestsAreDeduped(Spaced(kept), kept);
    DedupKeepsDistinct(kept);
  }

  lemma ReadBackIsTrimmed(kept: seq<string>)
    requires Separable(kept) && Join(Interests(Spaced(kept)), ", ") == Join(kept, ", ")
    ensures OuterSpaceFree(kept)
  {
    SpacedHasNoCommas(kept);
    InterestsAreSeparable(Spaced(kept));
    JoinTellsListsApart(Interests(Spaced(kept)), kept);
    var cleaned := seq(|kept|, i requires 0 <= i < |kept| => Clean(Spaced(kept)[i]));
    InterestsAreDeduped(Spaced(kept), cleaned);
    DedupInFull(cleaned);
    forall i | 0 <= i < |kept| ensures TrimSpace(kept[i]) == kept[i] {
      assert kept[i] == cleaned[i] == Clean(Spaced(kept)[i]);
      SpacedClean(kept, i);
      CleanIsInside(kept[i]);
      TrimSpaceIsInside(kept[i]);
    }
  }

  lemma SpacedHasNoCommas(parts: seq<string>)
    requires Separable(parts)
    ensures forall i :: 0 <= i < |Spaced(parts)| ==> ',' !in Spaced(parts)[i]
  {
  }

  lemma OneInterest(raw: string)
    requires ',' !in raw && Clean(raw) != ""
    ensures NormaliseInterests(raw) == Clean(raw)
  {
    SplitPlain(raw);
    var parts := [raw];
    assert parts[..0] == [] && Interests(parts[..0]) == [];
    assert Interests(parts) == [Clean(raw)];
  }

  lemma {:induction false} LowerWithMarks(word: string, marks: string)
    requires AllIn(marks, ".!?")
    ensures ToLower(word + marks) == ToLower(word) + marks
  {
    if word != "" {
      assert (word + marks)[1..] == word[1..] + marks;
      LowerWithMarks(word[1..], marks);
    } else {
      assert "" + marks == marks;
      forall c | c in marks ensures LowerChar(c) == c {
        assert c in ".!?";
      }
      LowerAgain(marks);
    }
  }

  lemma LowerIsNoMark(c: char)
    requires c !in ".!? "
    ensures LowerChar(c) !in ".!?"
  {
    var m := ".!?";
    assert c != m[0] && c != m[1] && c != m[2] by {
      assert m[0] in ".!? " && m[1] in ".!? " && m[2] in ".!? ";
    }
  }

  lemma LowerWordGoes(word: string, marks: string)
    requires Stripped(word) && AllIn(marks, ".!?")
    ensures Trim(ToLower(word) + marks, ".!?") == ToLower(word)
  {
    LowerIsNoMark(word[0]);
    LowerIsNoMark(word[|word| - 1]);
    MarksGo(ToLower(word), marks, ".!?");
  }

  lemma CleanedWord(word: string, marks: string)
    requires Stripped(word) && AllIn(marks, ".!?")
    ensures Clean(word + marks) == ToLower(word)
  {
    MarksAreMarks(marks);
    MarkedTextIsFree(word, marks);
    TrimmedIsFree(word + marks);
    LowerWithMarks(word, marks);
    LowerWordGoes(word, marks);
  }

  /** An interest as it may be said, and as it is kept. */
  predicate SaidAs(word: string, marks: string, said: string, kept: string) {
    Stripped(word) && ',' !in word && AllIn(marks, ".!?") && said == word + marks && kept == ToLower(word)
  }

  lemma InterestIsHeard(word: string, marks: string, said: string, kept: string)
    requires SaidAs(word, marks, said, kept)
    ensures ',' !in said && Clean(said) == kept != ""
  {
    CleanedWord(word, marks);
    assert forall c :: c in marks ==> c in ".!?";
  }

  /** Interests named one after another, each once, are kept in that order, in small letters and without
      their closing marks. */
  lemma InterestsAreHeard(words: seq<string>, marks: seq<string>, said: seq<string>, kept: seq<string>)
    requires |words| == |marks| == |said| == |kept| > 0
    requires forall i :: 0 <= i < |words| ==> SaidAs(words[i], marks[i], said[i], kept[i])
    requires forall i, j :: 0 <= i < j < |kept| ==> kept[i] != kept[j]
    ensures NormaliseInterests(Join(said, ", ")) == Join(kept, ", ")
  {
    forall i | 0 <= i < |said| ensures ',' !in said[i] && Clean(Spaced(said)[i]) == kept[i] != "" {
      InterestIsHeard(words[i], marks[i], said[i], kept[i]);
      SpacedClean(said, i);
    }
    SplitJoin(said);
    InterestsAreDeduped(Spaced(said), kept);
    DedupKeepsDistinct(kept);
  }

  /** A word with nothing to clean. */
  predicate Plain(s: string) {
    && s != "" && !IsSpace(s[0]) && !IsSpace(s[|s| - 1])
    && s[0] !in ".!?" && s[|s| - 1] !in ".!?"
    && forall c :: c in s ==> LowerChar(c) == c && c != ','
  }

  lemma TrimSpaceAtEnd(s: string)
    requires Plain(s)
    ensures TrimSpace(s + " ") == s
  {
    var t := s + " ";
    assert t[0] == s[0] && TrimLeft(t) == t;
    assert t[|t| - 1] == ' ' && t[..|t| - 1] == s;
    assert TrimRight(s) == s;
  }

  lemma TrimMark(s: string)
    requires Plain(s)
    ensures Trim(s + " !", ".!?") == s + " " && Trim(s, ".!?") == s
  {
    var t, u := s + " !", s + " ";
    assert t[0] == s[0] && t[|t| - 1] == '!' && t[..|t| - 1] == u;
    assert u[0] == s[0] && u[|u| - 1] == ' ';
  }

  /** The failing family: a word, a space and an exclamation mark leave the space behind, and only
      a second reading drops it. */
  lemma InterestsThatDoNotReadBack(word: string)
    requires Plain(word)
    ensures NormaliseInterests(word + " !") == word + " "
    ensures NormaliseInterests(word + " ") == word
  {
    var marked := word + " !";
    assert marked[0] == word[0] && marked[|marked| - 1] == '!';
    assert TrimSpace(marked) == marked;
    LowerAgain(marked);
    TrimMark(word);
    OneInterest(marked);
    TrimSpaceAtEnd(word);
    LowerAgain(word);
    OneInterest(word + " ");
  }
}
