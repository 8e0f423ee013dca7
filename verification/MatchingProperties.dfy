/** What the ranking promises, for every person, candidate list and vocabulary. */
module MatchingProperties {
  import opened Clock
  import opened Options
  import opened Matching
  import opened Text

  // ----- the sort ----------------------------------------------------------------------------

  lemma {:induction false} InsertKeepsEach(ms: seq<Match>, m: Match)
    ensures multiset(Insert(ms, m)) == multiset(ms) + multiset{m}
  {
    if ms != [] {
      InsertKeepsEach(ms[..|ms| - 1], m);
      assert ms == ms[..|ms| - 1] + [ms[|ms| - 1]];
    }
  }

  lemma SortedFront(ms: seq<Match>)
    requires Sorted(ms) && ms != []
    ensures Sorted(ms[..|ms| - 1])
    ensures forall i :: 0 <= i < |ms| - 1 ==> !Before(ms[|ms| - 1], ms[i])
  {
  }

  lemma SortedSnoc(ms: seq<Match>, last: Match)
    requires Sorted(ms) && forall i :: 0 <= i < |ms| ==> !Before(last, ms[i])
    ensures Sorted(ms + [last])
  {
  }

  lemma {:induction false} InsertKeepsSorted(ms: seq<Match>, m: Match)
    requires Sorted(ms)
    ensures Sorted(Insert(ms, m))
  {
    if ms != [] {
      SortedFront(ms);
      var front, last := ms[..|ms| - 1], ms[|ms| - 1];
      if Before(m, last) {
        InsertKeepsSorted(front, m);
        InsertKeepsEach(front, m);
        var r := Insert(front, m);
        forall i | 0 <= i < |r| ensures !Before(last, r[i]) {
          assert r[i] in multiset(r);
          if r[i] != m {
            assert r[i] in front;
          }
        }
        SortedSnoc(r, last);
      } else {
        forall i | 0 <= i < |ms| ensures !Before(m, ms[i]) {
          if i < |front| {
            assert !Before(last, ms[i]);
          }
        }
        SortedSnoc(ms, m);
      }
    }
  }

  lemma {:induction false} SortSorts(ms: seq<Match>)
    ensures Sorted(StableSort(ms))
    ensures multiset(StableSort(ms)) == multiset(ms)
  {
    if ms != [] {
      var front, last := ms[..|ms| - 1], ms[|ms| - 1];
      SortSorts(front);
      InsertKeepsSorted(StableSort(front), last);
      InsertKeepsEach(StableSort(front), last);
      assert ms == front + [last];
    }
  }

  lemma TiesSnoc(ms: seq<Match>, m: Match, k: Match)
    ensures Ties(ms + [m], k) == if SameRank(m, k) then Ties(ms, k) + [m] else Ties(ms, k)
  {
    assert (ms + [m])[..|ms|] == ms;
  }

  lemma {:induction false} InsertKeepsTies(ms: seq<Match>, m: Match, k: Match)
    requires Sorted(ms)
    ensures Ties(Insert(ms, m), k) == if SameRank(m, k) then Ties(ms, k) + [m] else Ties(ms, k)
  {
    if ms != [] && Before(m, ms[|ms| - 1]) {
      var front, last := ms[..|ms| - 1], ms[|ms| - 1];
      InsertKeepsTies(front, m, k);
      TiesSnoc(Insert(front, m), last, k);
    } else {
      TiesSnoc(ms, m, k);
    }
  }

  /** Entries that tie keep the order they came in. */
  lemma {:induction false} SortIsStable(ms: seq<Match>, k: Match)
    ensures Ties(StableSort(ms), k) == Ties(ms, k)
  {
    if ms != [] {
      var front := ms[..|ms| - 1];
      SortIsStable(front, k);
      SortSorts(front);
      InsertKeepsTies(StableSort(front), ms[|ms| - 1], k);
    }
  }

  lemma {:induction false} TiesArePresent(ms: seq<Match>, k: Match)
    ensures Ties(ms, k) != [] <==> exists i :: 0 <= i < |ms| && SameRank(ms[i], k)
  {
    if ms != [] {
      var n := |ms| - 1;
      TiesArePresent(ms[..n], k);
      if i :| 0 <= i < n && SameRank(ms[..n][i], k) {
        assert SameRank(ms[i], k);
      }
    }
  }

  lemma LastIsLeast(ms: seq<Match>, k: Match)
    requires Sorted(ms) && Ties(ms, k) != []
    ensures ms != [] && !Before(ms[|ms| - 1], k)
  {
    TiesArePresent(ms, k);
    var i :| 0 <= i < |ms| && SameRank(ms[i], k);
    assert i == |ms| - 1 || !Before(ms[|ms| - 1], ms[i]);
  }

  lemma LastTies(ms: seq<Match>)
    requires ms != []
    ensures Ties(ms, ms[|ms| - 1]) != []
  {
  }

  /** Sorted and stable leave no freedom: two such arrangements of the same entries are equal. */
  lemma {:induction false} StableOrderIsUnique(a: seq<Match>, b: seq<Match>)
    requires Sorted(a) && Sorted(b) && forall k :: Ties(a, k) == Ties(b, k)
    ensures a == b
    decreases |a|
  {
    if a == [] {
      if b != [] {
        LastTies(b);
        assert false;
      }
    } else {
      var la := a[|a| - 1];
      assert Ties(a, la) != [] && Ties(b, la) == Ties(a, la);
      LastIsLeast(b, la);
      var lb := b[|b| - 1];
      assert Ties(b, lb) != [] && Ties(a, lb) == Ties(b, lb);
      LastIsLeast(a, lb);
      assert SameRank(la, lb);
      assert Ties(a, la)[|Ties(a, la)| - 1] == la;
      assert Ties(b, la)[|Ties(b, la)| - 1] == lb;
      var a', b' := a[..|a| - 1], b[..|b| - 1];
      assert a == a' + [la] && b == b' + [la];
      forall k ensures Ties(a', k) == Ties(b', k) {
        assert Ties(a, k) == Ties(b, k);
        TiesSnoc(a', la, k);
        TiesSnoc(b', la, k);
        if SameRank(la, k) {
          assert Ties(a, k)[..|Ties(a, k)| - 1] == Ties(a', k);
          assert Ties(b, k)[..|Ties(b, k)| - 1] == Ties(b', k);
        }
      }
      StableOrderIsUnique(a', b');
    }
  }

  // ----- the ranking -------------------------------------------------------------------------

  lemma {:induction false} ScoredAreEligible(v: Vocabulary, candidates: seq<Event>, p: Preferences, now: Time, m: Match)
    ensures m in Scored(v, candidates, p, now) <==>
              m.event in candidates && Eligible(v, m.event, p.wanted, p.unwanted, now)
              && m.score == Score(v, m.event, p.wanted, now)
  {
    if candidates != [] {
      var front, last := candidates[..|candidates| - 1], candidates[|candidates| - 1];
      ScoredAreEligible(v, front, p, now, m);
      assert candidates == front + [last];
    }
  }

  function EligibleOnes(v: Vocabulary, candidates: seq<Event>, p: Preferences, now: Time): multiset<Event> {
    if candidates == [] then multiset{}
    else
      var e := candidates[|candidates| - 1];
      EligibleOnes(v, candidates[..|candidates| - 1], p, now)
      + if Eligible(v, e, p.wanted, p.unwanted, now) then multiset{e} else multiset{}
  }

  function EventsOf(ms: seq<Match>): multiset<Event> {
    if ms == [] then multiset{} else EventsOf(ms[..|ms| - 1]) + multiset{ms[|ms| - 1].event}
  }

  lemma {:induction false} InsertEvents(ms: seq<Match>, m: Match)
    ensures EventsOf(Insert(ms, m)) == EventsOf(ms) + multiset{m.event}
  {
    if ms != [] && Before(m, ms[|ms| - 1]) {
      InsertEvents(ms[..|ms| - 1], m);
      var r := Insert(ms[..|ms| - 1], m);
      assert (r + [ms[|ms| - 1]])[..|r|] == r;
    } else {
      assert (ms + [m])[..|ms|] == ms;
    }
  }

  lemma {:induction false} SortEvents(ms: seq<Match>)
    ensures EventsOf(StableSort(ms)) == EventsOf(ms)
  {
    if ms != [] {
      SortEvents(ms[..|ms| - 1]);
      InsertEvents(StableSort(ms[..|ms| - 1]), ms[|ms| - 1]);
    }
  }

  lemma {:induction false} ScoredEvents(v: Vocabulary, candidates: seq<Event>, p: Preferences, now: Time)
    ensures EventsOf(Scored(v, candidates, p, now)) == EligibleOnes(v, candidates, p, now)
  {
    if candidates != [] {
      var front := candidates[..|candidates| - 1];
      ScoredEvents(v, front, p, now);
      var rest := Scored(v, front, p, now);
      var e := candidates[|candidates| - 1];
      if Eligible(v, e, p.wanted, p.unwanted, now) {
        assert (rest + [Match(e, Score(v, e, p.wanted, now))])[..|rest|] == rest;
      }
    }
  }

  /** The ranking holds exactly the eligible candidates, each as often as it came, best first, ties
      by start time and then as they came. */
  lemma RankIsTheEligibleInOrder(v: Vocabulary, interests: seq<string>, candidates: seq<Event>, now: Time)
    ensures var p := PreferencesOf(interests);
      var ranked := Rank(v, interests, candidates, now);
      && EventsOf(ranked) == EligibleOnes(v, candidates, p, now)
      && Sorted(ranked)
      && forall m :: Ties(ranked, m) == Ties(Scored(v, candidates, p, now), m)
  {
    var p := PreferencesOf(interests);
    var scored := Scored(v, candidates, p, now);
    ScoredEvents(v, candidates, p, now);
    SortEvents(scored);
    SortSorts(scored);
    forall m ensures Ties(StableSort(scored), m) == Ties(scored, m) {
      SortIsStable(scored, m);
    }
  }

  /** The chosen event is eligible and nothing eligible beats it; there is none exactly when
      nothing is eligible. */
  lemma BestIsUnbeaten(v: Vocabulary, interests: seq<string>, candidates: seq<Event>, now: Time, e: Event)
    requires e in candidates && Eligible(v, e, PreferencesOf(interests).wanted, PreferencesOf(interests).unwanted, now)
    ensures var best := Best(v, interests, candidates, now);
      && best.Some?
      && best.value.event in candidates
      && Eligible(v, best.value.event, PreferencesOf(interests).wanted, PreferencesOf(interests).unwanted, now)
      && best.value.score == Score(v, best.value.event, PreferencesOf(interests).wanted, now)
      && !Before(Match(e, Score(v, e, PreferencesOf(interests).wanted, now)), best.value)
  {
    var p := PreferencesOf(interests);
    var scored := Scored(v, candidates, p, now);
    var ranked := StableSort(scored);
    SortSorts(scored);
    var m := Match(e, Score(v, e, p.wanted, now));
    ScoredAreEligible(v, candidates, p, now, m);
    assert m in multiset(scored) && m in multiset(ranked);
    var i :| 0 <= i < |ranked| && ranked[i] == m;
    assert ranked[0] in multiset(ranked) && ranked[0] in multiset(scored);
    ScoredAreEligible(v, candidates, p, now, ranked[0]);
    assert i == 0 || !Before(ranked[i], ranked[0]);
  }

  lemma BestIsACandidate(v: Vocabulary, interests: seq<string>, candidates: seq<Event>, now: Time)
    requires Best(v, interests, candidates, now).Some?
    ensures var e := Best(v, interests, candidates, now).value.event;
      e in candidates && Eligible(v, e, PreferencesOf(interests).wanted, PreferencesOf(interests).unwanted, now)
  {
    var scored := Scored(v, candidates, PreferencesOf(interests), now);
    var ranked := StableSort(scored);
    SortSorts(scored);
    assert ranked[0] in multiset(ranked) && ranked[0] in multiset(scored);
    ScoredAreEligible(v, candidates, PreferencesOf(interests), now, ranked[0]);
  }

  lemma NoMatchMeansNothingEligible(v: Vocabulary, interests: seq<string>, candidates: seq<Event>, now: Time)
    requires forall e :: e in candidates ==> !Eligible(v, e, PreferencesOf(interests).wanted, PreferencesOf(interests).unwanted, now)
    ensures Best(v, interests, candidates, now) == None
  {
    var scored := Scored(v, candidates, PreferencesOf(interests), now);
    if scored != [] {
      ScoredAreEligible(v, candidates, PreferencesOf(interests), now, scored[0]);
    }
  }

  // ----- dislikes ----------------------------------------------------------------------------

  function Without(v: Vocabulary, ms: seq<Match>, no: string): seq<Match> {
    if ms == [] then []
    else
      var rest := Without(v, ms[..|ms| - 1], no);
      if Dislikes(v, Haystack(ms[|ms| - 1].event), no) then rest else rest + [ms[|ms| - 1]]
  }

  lemma {:induction false} WithoutIsPart(v: Vocabulary, ms: seq<Match>, no: string)
    ensures forall m :: m in Without(v, ms, no) ==> m in ms
  {
    if ms != [] {
      WithoutIsPart(v, ms[..|ms| - 1], no);
      assert ms == ms[..|ms| - 1] + [ms[|ms| - 1]];
    }
  }

  lemma {:induction false} WithoutKeepsSorted(v: Vocabulary, ms: seq<Match>, no: string)
    requires Sorted(ms)
    ensures Sorted(Without(v, ms, no))
  {
    if ms != [] {
      var front, last := ms[..|ms| - 1], ms[|ms| - 1];
      WithoutKeepsSorted(v, front, no);
      WithoutIsPart(v, front, no);
      var rest := Without(v, front, no);
      forall i | 0 <= i < |rest| ensures !Before(last, rest[i]) {
        assert rest[i] in front;
        var k :| 0 <= k < |front| && front[k] == rest[i];
        assert !Before(ms[|ms| - 1], ms[k]);
      }
    }
  }

  /** Dropping the disliked and picking out ties commute. */
  lemma {:induction false} WithoutTies(v: Vocabulary, ms: seq<Match>, no: string, k: Match)
    ensures Ties(Without(v, ms, no), k) == Without(v, Ties(ms, k), no)
  {
    if ms != [] {
      var front, last := ms[..|ms| - 1], ms[|ms| - 1];
      WithoutTies(v, front, no, k);
      TiesSnoc(Without(v, front, no), last, k);
      WithoutSnoc(v, Ties(front, k), last, no);
    }
  }

  lemma WithoutSnoc(v: Vocabulary, ms: seq<Match>, m: Match, no: string)
    ensures Without(v, ms + [m], no) == if Dislikes(v, Haystack(m.event), no) then Without(v, ms, no) else Without(v, ms, no) + [m]
  {
    assert (ms + [m])[..|ms|] == ms;
  }

  lemma DislikedSnoc(v: Vocabulary, haystack: string, unwanted: seq<string>, no: string)
    ensures Disliked(v, haystack, unwanted + [no]) <==>
              Disliked(v, haystack, unwanted) || Dislikes(v, haystack, no)
  {
    var longer := unwanted + [no];
    if Disliked(v, haystack, unwanted) {
      var i :| 0 <= i < |unwanted| && Dislikes(v, haystack, unwanted[i]);
      assert Dislikes(v, haystack, longer[i]);
    }
    if Dislikes(v, haystack, no) {
      assert Dislikes(v, haystack, longer[|unwanted|]);
    }
  }

  lemma {:induction false} DislikeOnlyDrops(v: Vocabulary, candidates: seq<Event>, p: Preferences, no: string, now: Time)
    ensures Scored(v, candidates, p.(unwanted := p.unwanted + [no]), now) == Without(v, Scored(v, candidates, p, now), no)
  {
    if candidates != [] {
      var front, e := candidates[..|candidates| - 1], candidates[|candidates| - 1];
      DislikeOnlyDrops(v, front, p, no, now);
      DislikedSnoc(v, Haystack(e), p.unwanted, no);
      if e.startsAt > now {
        WithoutSnoc(v, Scored(v, front, p, now), Match(e, Score(v, e, p.wanted, now)), no);
      }
    }
  }

  const LEADS := {"no ", "not ", "avoid "}

  lemma LeadIsHeard(lead: string, thing: string)
    requires lead in LEADS
    ensures DislikeIn(lead + thing) == Some(Text.TrimSpace(thing))
  {
    var said := lead + thing;
    assert said[..|lead|] == lead && said[|lead|..] == thing;
    if lead != "no " {
      assert said[2] == lead[2] && "no "[2] != lead[2];
    }
    if lead == "avoid " {
      assert said[0] == 'a' && "not "[0] != 'a';
    }
  }

  /** Anything said without one of the leads is a wish, kept as it was said after the others. */
  lemma AnythingElseIsAWish(interests: seq<string>, wish: string)
    requires forall lead :: lead in LEADS ==> !(lead <= wish)
    ensures PreferencesOf(interests + [wish])
         == Preferences(PreferencesOf(interests).wanted + [wish], PreferencesOf(interests).unwanted)
  {
    assert (interests + [wish])[..|interests|] == interests;
    assert "no " in LEADS && "not " in LEADS && "avoid " in LEADS;
  }

  /** Saying one more thing one does not want, in any of the ways that are understood, only takes
      events away: the new ranking is the old one without what the dislike matches, in the old
      order with the old scores. */
  lemma DislikeYieldsASubsequence(v: Vocabulary, interests: seq<string>, lead: string, thing: string,
                                  candidates: seq<Event>, now: Time)
    requires lead in LEADS
    ensures Rank(v, interests + [lead + thing], candidates, now)
         == Without(v, Rank(v, interests, candidates, now), Text.TrimSpace(thing))
  {
    var no := Text.TrimSpace(thing);
    LeadIsHeard(lead, thing);
    assert (interests + [lead + thing])[..|interests|] == interests;
    var p := PreferencesOf(interests);
    var before, after := Scored(v, candidates, p, now), Scored(v, candidates, p.(unwanted := p.unwanted + [no]), now);
    DislikeOnlyDrops(v, candidates, p, no, now);
    SortSorts(before);
    SortSorts(after);
    WithoutKeepsSorted(v, StableSort(before), no);
    forall k ensures Ties(StableSort(after), k) == Ties(Without(v, StableSort(before), no), k) {
      SortIsStable(after, k);
      SortIsStable(before, k);
      WithoutTies(v, StableSort(before), no, k);
      WithoutTies(v, before, no, k);
    }
    StableOrderIsUnique(StableSort(after), Without(v, StableSort(before), no));
  }

  // ----- scores ------------------------------------------------------------------------------

  /** What where and when an event is adds to its score. */
  function Setting(e: Event, now: Time): int
    requires e.startsAt > now
  {
    LocationPoints(CityOf(e)) + TimingPoints(e.startsAt, now)
  }

  /** Between one and four points: one for an event online and far off, four for one in a city
      and soon. */
  lemma SettingIsWorthOneToFour(e: Event, now: Time)
    requires e.startsAt > now
    ensures 1 <= Setting(e, now) <= 4
    ensures Setting(e, now) == 1 <==> LocationPoints(CityOf(e)) == 1 && (e.startsAt - now) / DAY > 90
    ensures Setting(e, now) == 4 <==> LocationPoints(CityOf(e)) == 2 && (e.startsAt - now) / DAY <= 30
  {
  }

  /** So no setting makes up for a missed interest: with the same wishes, an event that meets more
      of them never scores lower; and one extra hit is only ever cancelled by setting the worst
      against the best. */
  lemma MoreHitsNeverScoreLower(v: Vocabulary, e: Event, f: Event, wanted: seq<string>, now: Time)
    requires e.startsAt > now && f.startsAt > now
    requires Hits(v, Haystack(e), wanted) > Hits(v, Haystack(f), wanted) > 0
    ensures Score(v, e, wanted, now) >= Score(v, f, wanted, now)
    ensures Score(v, e, wanted, now) == Score(v, f, wanted, now) <==>
              && Hits(v, Haystack(e), wanted) == Hits(v, Haystack(f), wanted) + 1
              && Setting(e, now) == 1 && Setting(f, now) == 4
  {
    SettingIsWorthOneToFour(e, now);
    SettingIsWorthOneToFour(f, now);
  }

  // ----- restricted audiences --------------------------------------------------------------------

  lemma RulesBarOneByOne(rules: seq<AudienceRule>, haystack: string, wanted: seq<string>)
    ensures WrongAudience(rules, haystack, wanted) <==> exists i :: 0 <= i < |rules| && WrongAudience([rules[i]], haystack, wanted)
  {
    forall i | 0 <= i < |rules|
      ensures WrongAudience([rules[i]], haystack, wanted)
         <==> ContainsAny(haystack, rules[i].markers) && !OptedIn(wanted, rules[i].optIn)
    {
      assert [rules[i]][0] == rules[i];
    }
  }

  /** Somebody says they belong to an audience: a wish of theirs holds one of its words, or the other
      way round. */
  predicate Belongs(wanted: seq<string>, rule: AudienceRule, wish: string, word: string) {
    wish in wanted && word in rule.optIn && (Contains(wish, word) || Contains(word, wish))
  }

  /** An event with a rule's marker is barred by that rule exactly for those who have not said they
      belong. */
  lemma MarkedEventIsBarredExactlyForOutsiders(rule: AudienceRule, haystack: string, wanted: seq<string>, marker: string)
    requires marker in rule.markers && marker != "" && Contains(haystack, marker)
    ensures WrongAudience([rule], haystack, wanted) <==> !exists wish, word :: Belongs(wanted, rule, wish, word)
  {
    var m :| 0 <= m < |rule.markers| && rule.markers[m] == marker;
    assert ContainsAny(haystack, rule.markers);
    assert [rule][0] == rule;
    if OptedIn(wanted, rule.optIn) {
      var i, j :| 0 <= i < |wanted| && 0 <= j < |rule.optIn|
                  && (Contains(wanted[i], rule.optIn[j]) || Contains(rule.optIn[j], wanted[i]));
      assert Belongs(wanted, rule, wanted[i], rule.optIn[j]);
    }
    if wish, word :| Belongs(wanted, rule, wish, word) {
      var i :| 0 <= i < |wanted| && wanted[i] == wish;
      var j :| 0 <= j < |rule.optIn| && rule.optIn[j] == word;
      assert OptedIn(wanted, rule.optIn);
    }
  }

  /** And an event with no marker of a rule is barred by it for nobody. */
  lemma UnmarkedEventIsForEverybody(rule: AudienceRule, haystack: string, wanted: seq<string>)
    requires forall marker :: marker in rule.markers && marker != "" ==> !Contains(haystack, marker)
    ensures !WrongAudience([rule], haystack, wanted)
  {
    assert [rule][0] == rule;
  }

  lemma RankedAreEligible(v: Vocabulary, interests: seq<string>, candidates: seq<Event>, now: Time, k: nat)
    requires k < |Rank(v, interests, candidates, now)|
    ensures var p := PreferencesOf(interests);
      Eligible(v, Rank(v, interests, candidates, now)[k].event, p.wanted, p.unwanted, now)
  {
    var scored := Scored(v, candidates, PreferencesOf(interests), now);
    var ranked := StableSort(scored);
    SortSorts(scored);
    assert ranked[k] in multiset(ranked) && ranked[k] in multiset(scored);
    ScoredAreEligible(v, candidates, PreferencesOf(interests), now, ranked[k]);
  }

  /** So it is never ranked for an outsider, however well it matches. */
  lemma OutsidersAreNeverShownIt(
    v: Vocabulary, interests: seq<string>, candidates: seq<Event>, now: Time, e: Event, i: nat, marker: string, k: nat)
    requires i < |v.rules| && marker in v.rules[i].markers && marker != "" && Contains(Haystack(e), marker)
    requires !exists wish, word :: Belongs(PreferencesOf(interests).wanted, v.rules[i], wish, word)
    requires k < |Rank(v, interests, candidates, now)|
    ensures Rank(v, interests, candidates, now)[k].event != e
  {
    var p := PreferencesOf(interests);
    MarkedEventIsBarredExactlyForOutsiders(v.rules[i], Haystack(e), p.wanted, marker);
    RulesBarOneByOne(v.rules, Haystack(e), p.wanted);
    RankedAreEligible(v, interests, candidates, now, k);
  }
}
