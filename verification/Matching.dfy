/** Choosing an event for a person: which candidates are eligible, how they score, and the
    stable ranking of what is left. */
module Matching {
  import opened Clock
  import opened Options
  import opened Text

  datatype Event = Event(id: int, title: string, startsAt: Time, city: string, url: string, tags: string)

  datatype Match = Match(event: Event, score: int)

  // ----- vocabulary ------------------------------------------------------------------------

  /** An audience restriction: what marks an event as restricted, and the interests that count as
      opting in.  No opt-in means the event is never offered. */
  datatype AudienceRule = AudienceRule(markers: seq<string>, optIn: seq<string>)

  /** The tables matching reads.  Nothing below depends on what is in them. */
  datatype Vocabulary = Vocabulary(tags: map<string, seq<string>>, rules: seq<AudienceRule>)

  const INTEREST_TAGS: map<string, seq<string>> := map[
    "hackathon" := ["hackathon"],
    "meetup" := ["meetup", "networking"],
    "conference" := ["conference", "summit", "expo"],
    "workshop" := ["workshop", "talk", "training", "course"],
    "social" := ["social", "drinks", "party", "networking"],
    "ai" := ["ai", "ml", "machine_learning", "llm", "data_science"],
    "web" := ["web", "software", "frontend", "backend", "javascript", "dev"],
    "data" := ["data", "data_science", "analytics"],
    "hardware" := ["hardware", "robotics", "iot", "electronics"],
    "startup" := ["startup", "founder", "founder_vc", "vc", "entrepreneur"],
    "design" := ["design", "ux", "product"],
    "security" := ["security", "infosec", "cyber"]]

  const AUDIENCE_RULES: seq<AudienceRule> := [
    AudienceRule(["women in", "women who", "women's", "womens ", "womxn", "female founder", "females in",
                  "girls who code", "ladies "],
                 ["women", "womxn", "female", "girls who code"]),
    AudienceRule(["students only", "student-only", "student only", "university students", "undergraduate",
                  "freshers", "sixth_form", "sixth form"],
                 ["student", "university", "undergrad", "sixth form"]),
    AudienceRule(["black in tech", "black tech", "lgbtq", "queer ", "pride in tech", "muslims in", "jewish tech",
                  "latinx"],
                 ["black in tech", "lgbtq", "queer", "pride", "muslim", "jewish", "latinx"]),
    AudienceRule(["invite only", "invite-only", "members only", "members-only", "by invitation", "private dinner"],
                 []),
    AudienceRule(["c-suite", "cto only", "executive roundtable", "board members"],
                 ["executive", "c-suite", "cto", "leadership"])]

  const VOCABULARY := Vocabulary(INTEREST_TAGS, AUDIENCE_RULES)

  // ----- interests -------------------------------------------------------------------------

  function InterestStem(raw: string): string {
    var s := Trim(ToLower(TrimSpace(raw)), ".!?");
    if |s| > 4 && HasSuffix(s, "s") then s[..|s| - 1] else s
  }

  predicate ContainsAny(haystack: string, needles: seq<string>) {
    exists i :: 0 <= i < |needles| && needles[i] != "" && Contains(haystack, needles[i])
  }

  predicate MatchesInterest(v: Vocabulary, haystack: string, raw: string) {
    var interest := InterestStem(raw);
    interest != "" &&
    (Contains(haystack, interest)
     || (interest in v.tags && ContainsAny(haystack, v.tags[interest])))
  }

  /** The interests on a profile, stemmed. */
  function InterestList(parts: seq<string>): seq<string> {
    if parts == [] then []
    else
      var rest, s := InterestList(parts[..|parts| - 1]), InterestStem(parts[|parts| - 1]);
      if s != "" then rest + [s] else rest
  }

  datatype Preferences = Preferences(wanted: seq<string>, unwanted: seq<string>)

  /** What "no x", "not x" and "avoid x" are against; anything else is wanted. */
  function DislikeIn(interest: string): Option<string> {
    if "no " <= interest then Some(TrimSpace(interest[3..]))
    else if "not " <= interest then Some(TrimSpace(interest[4..]))
    else if "avoid " <= interest then Some(TrimSpace(interest[6..]))
    else None
  }

  function Filed(p: Preferences, interest: string): Preferences {
    match DislikeIn(interest)
    case Some(no) => p.(unwanted := p.unwanted + [no])
    case None => p.(wanted := p.wanted + [interest])
  }

  function PreferencesOf(interests: seq<string>): Preferences {
    if interests == [] then Preferences([], [])
    else Filed(PreferencesOf(interests[..|interests| - 1]), interests[|interests| - 1])
  }

  method SplitPreferences(interests: seq<string>) returns (wanted: seq<string>, unwanted: seq<string>)
    ensures Preferences(wanted, unwanted) == PreferencesOf(interests)
  {
    wanted, unwanted := [], [];
    for i := 0 to |interests|
      invariant Preferences(wanted, unwanted) == PreferencesOf(interests[..i])
    {
      var s := interests[i];
      assert interests[..i + 1][..i] == interests[..i];
      if "no " <= s {
        unwanted := unwanted + [TrimSpace(s[3..])];
      } else if "not " <= s {
        unwanted := unwanted + [TrimSpace(s[4..])];
      } else if "avoid " <= s {
        unwanted := unwanted + [TrimSpace(s[6..])];
      } else {
        wanted := wanted + [s];
      }
    }
    assert interests[..|interests|] == interests;
  }

  // ----- eligibility -----------------------------------------------------------------------

  const PREFERRED_CITY := "london"

  predicate OptedIn(wanted: seq<string>, optIn: seq<string>) {
    exists i, j :: 0 <= i < |wanted| && 0 <= j < |optIn|
      && (Contains(wanted[i], optIn[j]) || Contains(optIn[j], wanted[i]))
  }

  predicate MentionsCity(wanted: seq<string>, city: string) {
    exists i :: 0 <= i < |wanted| && (Contains(city, wanted[i]) || Contains(wanted[i], city))
  }

  function Haystack(e: Event): string {
    ToLower(e.title + " " + e.tags + " " + e.city)
  }

  predicate Dislikes(v: Vocabulary, haystack: string, interest: string) {
    interest != "" && MatchesInterest(v, haystack, interest)
  }

  predicate Disliked(v: Vocabulary, haystack: string, unwanted: seq<string>) {
    exists i :: 0 <= i < |unwanted| && Dislikes(v, haystack, unwanted[i])
  }

  predicate WrongAudience(rules: seq<AudienceRule>, haystack: string, wanted: seq<string>) {
    exists i :: 0 <= i < |rules| && ContainsAny(haystack, rules[i].markers) && !OptedIn(wanted, rules[i].optIn)
  }

  function Hits(v: Vocabulary, haystack: string, wanted: seq<string>): nat {
    if wanted == [] then 0
    else
      Hits(v, haystack, wanted[..|wanted| - 1]) + if MatchesInterest(v, haystack, wanted[|wanted| - 1]) then 1 else 0
  }

  function CityOf(e: Event): string { ToLower(TrimSpace(e.city)) }

  predicate Remote(city: string) {
    city == "" || city == "online" || city == "virtual" || city == "remote"
  }

  /** The hard exclusions: the past, nothing to sign up to, dislikes, and audiences this person
      has not said they belong to. */
  predicate Permitted(v: Vocabulary, e: Event, wanted: seq<string>, unwanted: seq<string>, now: Time) {
    && e.startsAt > now
    && TrimSpace(e.url) != ""
    && !Disliked(v, Haystack(e), unwanted)
    && !WrongAudience(v.rules, Haystack(e), wanted)
  }

  /** Something they said they like, somewhere they can get to. */
  predicate Relevant(v: Vocabulary, e: Event, wanted: seq<string>) {
    && (wanted == [] || Hits(v, Haystack(e), wanted) > 0)
    && (CityOf(e) == PREFERRED_CITY || Remote(CityOf(e)) || MentionsCity(wanted, CityOf(e)))
  }

  predicate Eligible(v: Vocabulary, e: Event, wanted: seq<string>, unwanted: seq<string>, now: Time) {
    Permitted(v, e, wanted, unwanted, now) && Relevant(v, e, wanted)
  }

  function InterestPoints(v: Vocabulary, haystack: string, wanted: seq<string>): int {
    if Hits(v, haystack, wanted) > 0 then 3 * Hits(v, haystack, wanted) else 1
  }

  function LocationPoints(city: string): int {
    if city != PREFERRED_CITY && Remote(city) then 1 else 2
  }

  function TimingPoints(startsAt: Time, now: Time): int
    requires startsAt > now
  {
    var days := (startsAt - now) / DAY;
    if days <= 30 then 2 else if days <= 90 then 1 else 0
  }

  function Score(v: Vocabulary, e: Event, wanted: seq<string>, now: Time): int
    requires e.startsAt > now
  {
    InterestPoints(v, Haystack(e), wanted) + LocationPoints(CityOf(e)) + TimingPoints(e.startsAt, now)
  }

  method AnyDisliked(v: Vocabulary, haystack: string, unwanted: seq<string>) returns (found: bool)
    ensures found == Disliked(v, haystack, unwanted)
  {
    found := AnyHolds(w => Dislikes(v, haystack, w), unwanted);
  }

  /** Whether any of the words passes. */
  method AnyHolds(passes: string -> bool, words: seq<string>) returns (found: bool)
    ensures found == exists i :: 0 <= i < |words| && passes(words[i])
  {
    for i := 0 to |words|
      invariant forall k :: 0 <= k < i ==> !passes(words[k])
    {
      if passes(words[i]) {
        return true;
      }
    }
    return false;
  }

  method BarredByAudience(rules: seq<AudienceRule>, haystack: string, wanted: seq<string>) returns (barred: bool)
    ensures barred == WrongAudience(rules, haystack, wanted)
  {
    for i := 0 to |rules|
      invariant forall k :: 0 <= k < i ==>
                  !(ContainsAny(haystack, rules[k].markers) && !OptedIn(wanted, rules[k].optIn))
    {
      if !ContainsAny(haystack, rules[i].markers) {
        continue;
      }
      if !OptedIn(wanted, rules[i].optIn) {
        return true;
      }
    }
    return false;
  }

  method CountHits(v: Vocabulary, haystack: string, wanted: seq<string>) returns (hits: nat)
    ensures hits == Hits(v, haystack, wanted)
  {
    hits := 0;
    for i := 0 to |wanted|
      invariant hits == Hits(v, haystack, wanted[..i])
    {
      assert wanted[..i + 1][..i] == wanted[..i];
      if MatchesInterest(v, haystack, wanted[i]) {
        hits := hits + 1;
      }
    }
    assert wanted[..|wanted|] == wanted;
  }

  method IsPermitted(v: Vocabulary, e: Event, wanted: seq<string>, unwanted: seq<string>, now: Time)
    returns (ok: bool)
    ensures ok == Permitted(v, e, wanted, unwanted, now)
  {
    if e.startsAt <= now {
      return false;
    }
    if TrimSpace(e.url) == "" {
      return false;
    }
    var haystack := Haystack(e);
    var disliked := AnyDisliked(v, haystack, unwanted);
    if disliked {
      return false;
    }
    var barred := BarredByAudience(v.rules, haystack, wanted);
    return !barred;
  }

  /** A score, or nothing for an event this person must not be offered. */
  method ScoreEvent(v: Vocabulary, e: Event, wanted: seq<string>, unwanted: seq<string>, now: Time)
    returns (m: Option<Match>)
    ensures m.Some? <==> Eligible(v, e, wanted, unwanted, now)
    ensures m.Some? ==> m.value == Match(e, Score(v, e, wanted, now))
  {
    var permitted := IsPermitted(v, e, wanted, unwanted, now);
    if !permitted {
      return None;
    }
    var hits := CountHits(v, Haystack(e), wanted);
    var score := 0;
    if hits > 0 {
      score := score + 3 * hits;
    } else if |wanted| > 0 {
      return None;
    } else {
      score := score + 1;
    }
    var placed := PlaceScore(CityOf(e), wanted);
    if placed.None? {
      return None;
    }
    score := score + placed.value;
    var days := (e.startsAt - now) / DAY;
    if days <= 30 {
      score := score + 2;
    } else if days <= 90 {
      score := score + 1;
    }
    return Some(Match(e, score));
  }

  /** What the place is worth, or nothing for one that is out of reach and was not asked for. */
  method PlaceScore(city: string, wanted: seq<string>) returns (points: Option<int>)
    ensures points == if city == PREFERRED_CITY || Remote(city) || MentionsCity(wanted, city)
                      then Some(LocationPoints(city)) else None
  {
    if city == PREFERRED_CITY {
      return Some(2);
    }
    if Remote(city) {
      return Some(1);
    }
    if !MentionsCity(wanted, city) {
      return None;
    }
    return Some(2);
  }

  // ----- ranking ---------------------------------------------------------------------------

  predicate Before(a: Match, b: Match) {
    a.score > b.score || (a.score == b.score && a.event.startsAt < b.event.startsAt)
  }

  predicate SameRank(a: Match, b: Match) {
    a.score == b.score && a.event.startsAt == b.event.startsAt
  }

  predicate Sorted(ms: seq<Match>) {
    forall i, j :: 0 <= i < j < |ms| ==> !Before(ms[j], ms[i])
  }

  /** The entries that tie with `m`, in order. */
  function Ties(ms: seq<Match>, m: Match): seq<Match> {
    if ms == [] then []
    else
      var rest := Ties(ms[..|ms| - 1], m);
      if SameRank(ms[|ms| - 1], m) then rest + [ms[|ms| - 1]] else rest
  }

  /** The eligible candidates, scored, in the order they came. */
  function Scored(v: Vocabulary, candidates: seq<Event>, p: Preferences, now: Time): seq<Match> {
    if candidates == [] then []
    else
      var e := candidates[|candidates| - 1];
      var rest := Scored(v, candidates[..|candidates| - 1], p, now);
      if Eligible(v, e, p.wanted, p.unwanted, now) then rest + [Match(e, Score(v, e, p.wanted, now))] else rest
  }

  /** Puts `m` after everything it does not beat. */
  function Insert(ms: seq<Match>, m: Match): (r: seq<Match>)
    ensures |r| == |ms| + 1
  {
    if ms == [] then [m]
    else if Before(m, ms[|ms| - 1]) then Insert(ms[..|ms| - 1], m) + [ms[|ms| - 1]]
    else ms + [m]
  }

  function StableSort(ms: seq<Match>): (r: seq<Match>)
    ensures |r| == |ms|
  {
    if ms == [] then [] else Insert(StableSort(ms[..|ms| - 1]), ms[|ms| - 1])
  }

  function Rank(v: Vocabulary, interests: seq<string>, candidates: seq<Event>, now: Time): seq<Match> {
    StableSort(Scored(v, candidates, PreferencesOf(interests), now))
  }

  method RankEvents(v: Vocabulary, interests: seq<string>, candidates: seq<Event>, now: Time) returns (out: seq<Match>)
    ensures out == Rank(v, interests, candidates, now)
  {
    var wanted, unwanted := SplitPreferences(interests);
    ghost var p := Preferences(wanted, unwanted);
    out := [];
    for i := 0 to |candidates|
      invariant out == Scored(v, candidates[..i], p, now)
    {
      assert candidates[..i + 1][..i] == candidates[..i];
      var m := ScoreEvent(v, candidates[i], wanted, unwanted, now);
      if m.None? {
        continue;
      }
      out := out + [m.value];
    }
    assert candidates[..|candidates|] == candidates;
    out := SortStable(out);
  }

  /** Moves an entry left past those it beats. */
  method InsertStable(ms: seq<Match>, m: Match) returns (out: seq<Match>)
    ensures out == Insert(ms, m)
  {
    var k := |ms|;
    assert ms[..k] == ms;
    while k > 0 && Before(m, ms[k - 1])
      invariant 0 <= k <= |ms|
      invariant Insert(ms, m) == Insert(ms[..k], m) + ms[k..]
    {
      assert ms[..k][..k - 1] == ms[..k - 1];
      assert ms[k - 1..] == [ms[k - 1]] + ms[k..];
      k := k - 1;
    }
    out := ms[..k] + [m] + ms[k..];
  }

  method SortStable(ms: seq<Match>) returns (out: seq<Match>)
    ensures out == StableSort(ms)
  {
    out := [];
    for i := 0 to |ms|
      invariant out == StableSort(ms[..i])
    {
      assert ms[..i + 1][..i] == ms[..i];
      out := InsertStable(out, ms[i]);
    }
    assert ms[..|ms|] == ms;
  }

  function Best(v: Vocabulary, interests: seq<string>, candidates: seq<Event>, now: Time): Option<Match> {
    var ranked := Rank(v, interests, candidates, now);
    if ranked == [] then None else Some(ranked[0])
  }

  method MatchEvent(v: Vocabulary, interests: seq<string>, candidates: seq<Event>, now: Time) returns (best: Option<Match>)
    ensures best == Best(v, interests, candidates, now)
  {
    var ranked := RankEvents(v, interests, candidates, now);
    if |ranked| == 0 {
      return None;
    }
    return Some(ranked[0]);
  }
}
