/** Reading what people say: names, interests, cadences, and whether a reply is an answer, a skip
    or a refusal. */
module Replies {
  import opened Text

  const NAME_PREFIXES := [
    "my name is ", "my name's ", "i'm ", "im ", "i am ", "it's ", "its ", "this is ", "call me "]

  predicate EqualFold(s: string, t: string) {
    ToLower(s) == ToLower(t)
  }

  /** Drops the first of the prefixes that `name` starts with, whatever its case. */
  function DropPrefix(name: string, prefixes: seq<string>): string {
    if prefixes == [] then name
    else if |name| > |prefixes[0]| && EqualFold(name[..|prefixes[0]|], prefixes[0]) then
      TrimSpace(name[|prefixes[0]|..])
    else DropPrefix(name, prefixes[1..])
  }

  function CountFields(s: string): nat {
    if s == "" then 0
    else if !IsSpace(s[0]) && (|s| == 1 || IsSpace(s[1])) then CountFields(s[1..]) + 1
    else CountFields(s[1..])
  }

  predicate HasLetter(s: string) {
    exists i :: 0 <= i < |s| && IsLetter(s[i])
  }

  predicate LooksLikeAName(s: string) {
    s != "" && CountFields(s) <= 4 && |s| <= 60 && HasLetter(s)
  }

  /** A usable name, or nothing for a sentence, a number or silence. */
  function NormaliseName(answer: string): (name: string)
    ensures name == "" || LooksLikeAName(name)
  {
    var name := Trim(DropPrefix(TrimSpace(answer), NAME_PREFIXES), ".!,");
    if LooksLikeAName(name) then name else ""
  }

  /** One interest as it is stored. */
  function Clean(part: string): string {
    Trim(ToLower(TrimSpace(part)), ".!?")
  }

  function AddOnce(kept: seq<string>, p: string): seq<string> {
    if p == "" || p in kept then kept else kept + [p]
  }

  /** The interests named, each once, in the order first named. */
  function Interests(parts: seq<string>): seq<string> {
    if parts == [] then []
    else AddOnce(Interests(parts[..|parts| - 1]), Clean(parts[|parts| - 1]))
  }

  lemma InterestsNext(parts: seq<string>, i: nat)
    requires i < |parts|
    ensures Interests(parts[..i + 1]) == AddOnce(Interests(parts[..i]), Clean(parts[i]))
  {
    assert parts[..i + 1][..i] == parts[..i];
  }

  function Join(parts: seq<string>, sep: string): string {
    if parts == [] then ""
    else if |parts| == 1 then parts[0]
    else parts[0] + sep + Join(parts[1..], sep)
  }

  function NormaliseInterests(raw: string): string {
    Join(Interests(Split(raw, ',')), ", ")
  }

  /** The loop that gathers interests, with the set of those already seen. */
  method GatherInterests(raw: string) returns (joined: string)
    ensures joined == NormaliseInterests(raw)
  {
    var parts := Split(raw, ',');
    var seen: set<string>, kept: seq<string> := {}, [];
    for i := 0 to |parts|
      invariant kept == Interests(parts[..i])
      invariant forall p :: p in seen <==> p in kept
    {
      InterestsNext(parts, i);
      var p := Clean(parts[i]);
      if p == "" || p in seen {
        continue;
      }
      seen := seen + {p};
      kept := kept + [p];
    }
    assert parts[..|parts|] == parts;
    joined := Join(kept, ", ");
  }

  const DAILY := "daily"
  const TWICE_DAILY := "twice-daily"
  const WEEKDAYS := "weekdays"

  predicate ValidFrequency(f: string) {
    f == DAILY || f == TWICE_DAILY || f == WEEKDAYS
  }

  predicate ContainsAny(s: string, words: seq<string>) {
    exists i :: 0 <= i < |words| && Contains(s, words[i])
  }

  const TWICE_WORDS := ["twice", "two times", "2x"]
  const WEEKDAY_WORDS := ["weekday", "week day", "work day"]
  const DAILY_WORDS := ["daily", "every day", "each day"]

  /** The cadence someone asked for, or nothing when they named none. */
  function NormaliseFrequency(answer: string): (f: string)
    ensures f == "" || ValidFrequency(f)
  {
    var lower := ToLower(TrimSpace(answer));
    if ContainsAny(lower, TWICE_WORDS) then TWICE_DAILY
    else if ContainsAny(lower, WEEKDAY_WORDS) then WEEKDAYS
    else if ContainsAny(lower, DAILY_WORDS) then DAILY
    else ""
  }

  const YES_WORDS := [
    "y", "yes", "yeah", "yep", "yes please", "go on", "go on then", "sure", "ok", "okay",
    "please do", "sign me up", "put me down", "do it"]
  const SKIP_WORDS := ["skip", "pass", "next", "later"]
  const DECLINE_WORDS := [
    "stop", "decline", "no thanks", "don't ask", "dont ask", "rather not", "prefer not to say"]

  /** The words of a reply, without case or closing punctuation. */
  function Bare(reply: string): string {
    ToLower(Trim(TrimSpace(reply), ".!? "))
  }

  predicate IsYes(answer: string) {
    var lower := Bare(answer);
    || lower in YES_WORDS
    || "yes " <= lower || "yeah " <= lower || "sign me up" <= lower
  }

  datatype Reading = Silence | Skip | Refusal | Says(answer: string)

  function Classify(body: string): (r: Reading)
    ensures r.Says? ==> r.answer == TrimSpace(body) && r.answer != ""
    ensures r.Silence? <==> TrimSpace(body) == ""
    ensures r.Skip? <==> Bare(body) in SKIP_WORDS
    ensures r.Refusal? <==> Bare(body) in DECLINE_WORDS
  {
    var trimmed := TrimSpace(body);
    if trimmed == "" then Silence
    else if Bare(body) in SKIP_WORDS then Skip
    else if Bare(body) in DECLINE_WORDS then Refusal
    else Says(trimmed)
  }
}
