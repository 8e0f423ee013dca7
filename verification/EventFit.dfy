/** Whom an event suits and what it scores, said in words and counts rather than as it is computed. */
module EventFit {
  import opened Clock
  import opened Matching
  import MatchingProperties
  import Text

  // ----- wishes ----------------------------------------------------------------------------------

  /** The words a wish looks for: its own, and those the vocabulary groups under it. */
  predicate NamedBy(v: Vocabulary, wish: string, word: string) {
    var stem := InterestStem(wish);
    stem != "" && word != "" && (word == stem || (stem in v.tags && word in v.tags[stem]))
  }

  /** An event's text holds one of them. */
  ghost predicate Meets(v: Vocabulary, haystack: string, wish: string) {
    exists word :: NamedBy(v, wish, word) && Text.Contains(haystack, word)
  }

  /** A plural of five letters or more is read as its singular. */
  lemma PluralIsReadAsSingular(word: string)
    requires |word| >= 4
    requires Text.Trim(Text.ToLower(Text.TrimSpace(word + "s")), ".!?") == word + "s"
    ensures InterestStem(word + "s") == word
  {
    var s := word + "s";
    assert s[|s| - 1..] == "s" && s[..|s| - 1] == word;
  }

  lemma MatchingIsMeeting(v: Vocabulary, haystack: string, wish: string)
    ensures MatchesInterest(v, haystack, wish) <==> Meets(v, haystack, wish)
  {
    var stem := InterestStem(wish);
    if MatchesInterest(v, haystack, wish) {
      if Text.Contains(haystack, stem) {
        assert NamedBy(v, wish, stem);
      } else {
        var i :| 0 <= i < |v.tags[stem]| && v.tags[stem][i] != "" && Text.Contains(haystack, v.tags[stem][i]);
        assert NamedBy(v, wish, v.tags[stem][i]);
      }
    }
    if word :| NamedBy(v, wish, word) && Text.Contains(haystack, word) {
      if word != stem {
        var i :| 0 <= i < |v.tags[stem]| && v.tags[stem][i] == word;
        assert ContainsAny(haystack, v.tags[stem]);
      }
    }
  }

  /** Which of the wishes an event meets. */
  ghost function WishesMet(v: Vocabulary, haystack: string, wanted: seq<string>): set<int> {
    set i | 0 <= i < |wanted| && Meets(v, haystack, wanted[i])
  }

  lemma LastWish(v: Vocabulary, haystack: string, front: seq<string>, last: string)
    ensures WishesMet(v, haystack, front + [last])
         == if Meets(v, haystack, last) then WishesMet(v, haystack, front) + {|front|} else WishesMet(v, haystack, front)
  {
    var all := front + [last];
    assert all[|front|] == last;
    forall i | 0 <= i < |front| ensures all[i] == front[i] {
    }
  }

  lemma CountMore(before: set<int>, n: int)
    requires n !in before
    ensures |before + {n}| == |before| + 1
  {
  }

  lemma {:induction false} HitsCountWishes(v: Vocabulary, haystack: string, wanted: seq<string>)
    ensures Hits(v, haystack, wanted) == |WishesMet(v, haystack, wanted)|
  {
    if wanted == [] {
      assert WishesMet(v, haystack, wanted) == {};
    } else {
      var front, last := wanted[..|wanted| - 1], wanted[|wanted| - 1];
      assert wanted == front + [last];
      HitsCountWishes(v, haystack, front);
      MatchingIsMeeting(v, haystack, last);
      LastWish(v, haystack, front, last);
      CountMore(WishesMet(v, haystack, front), |front|);
    }
  }

  lemma MeetsSome(v: Vocabulary, haystack: string, wanted: seq<string>)
    ensures WishesMet(v, haystack, wanted) != {} <==> exists wish :: wish in wanted && Meets(v, haystack, wish)
  {
    if i :| i in WishesMet(v, haystack, wanted) {
      assert wanted[i] in wanted && Meets(v, haystack, wanted[i]);
    }
    if wish :| wish in wanted && Meets(v, haystack, wish) {
      var i :| 0 <= i < |wanted| && wanted[i] == wish;
      assert i in WishesMet(v, haystack, wanted);
    }
  }

  // ----- whom an event suits ---------------------------------------------------------------------

  /** In London, online, or somewhere one of the wishes speaks of. */
  ghost predicate WithinReach(city: string, wanted: seq<string>) {
    city in {"london", "", "online", "virtual", "remote"}
    || exists wish :: wish in wanted && (Text.Contains(city, wish) || Text.Contains(wish, city))
  }

  /** An event marked for an audience is for those who say they belong to it. */
  ghost predicate Welcomes(rule: AudienceRule, haystack: string, wanted: seq<string>) {
    (exists marker :: marker in rule.markers && marker != "" && Text.Contains(haystack, marker))
    ==> exists wish, word :: MatchingProperties.Belongs(wanted, rule, wish, word)
  }

  ghost predicate Suits(v: Vocabulary, e: Event, wanted: seq<string>, unwanted: seq<string>, now: Time) {
    && now < e.startsAt
    && Text.TrimSpace(e.url) != ""
    && (forall no :: no in unwanted ==> !Meets(v, Haystack(e), no))
    && (forall rule :: rule in v.rules ==> Welcomes(rule, Haystack(e), wanted))
    && (wanted == [] || exists wish :: wish in wanted && Meets(v, Haystack(e), wish))
    && WithinReach(Text.ToLower(Text.TrimSpace(e.city)), wanted)
  }

  lemma DislikedExactlyWhen(v: Vocabulary, haystack: string, unwanted: seq<string>)
    ensures Disliked(v, haystack, unwanted) <==> exists no :: no in unwanted && Meets(v, haystack, no)
  {
    assert InterestStem("") == "";
    forall no ensures Dislikes(v, haystack, no) <==> Meets(v, haystack, no) {
      MatchingIsMeeting(v, haystack, no);
    }
    if no :| no in unwanted && Meets(v, haystack, no) {
      var i :| 0 <= i < |unwanted| && unwanted[i] == no;
      assert Dislikes(v, haystack, unwanted[i]);
    }
  }

  lemma RuleBarsExactlyWhen(rule: AudienceRule, haystack: string, wanted: seq<string>)
    ensures WrongAudience([rule], haystack, wanted) <==> !Welcomes(rule, haystack, wanted)
  {
    if marker :| marker in rule.markers && marker != "" && Text.Contains(haystack, marker) {
      MatchingProperties.MarkedEventIsBarredExactlyForOutsiders(rule, haystack, wanted, marker);
    } else {
      MatchingProperties.UnmarkedEventIsForEverybody(rule, haystack, wanted);
    }
  }

  lemma BarredExactlyWhen(rules: seq<AudienceRule>, haystack: string, wanted: seq<string>)
    ensures WrongAudience(rules, haystack, wanted) <==> exists rule :: rule in rules && !Welcomes(rule, haystack, wanted)
  {
    MatchingProperties.RulesBarOneByOne(rules, haystack, wanted);
    forall rule ensures WrongAudience([rule], haystack, wanted) <==> !Welcomes(rule, haystack, wanted) {
      RuleBarsExactlyWhen(rule, haystack, wanted);
    }
  }

  lemma ReachedExactlyWhen(city: string, wanted: seq<string>)
    ensures city == PREFERRED_CITY || Remote(city) || MentionsCity(wanted, city) <==> WithinReach(city, wanted)
  {
    if wish :| wish in wanted && (Text.Contains(city, wish) || Text.Contains(wish, city)) {
      var i :| 0 <= i < |wanted| && wanted[i] == wish;
      assert MentionsCity(wanted, city);
    }
  }

  /** An event is eligible exactly when it suits: still to come, something to sign up to, nothing in it
      that was said not to be wanted, for every audience it is marked for somebody who belongs to it,
      something that was wished for if anything was, and within reach. */
  lemma EligibleExactlyWhenItSuits(v: Vocabulary, e: Event, wanted: seq<string>, unwanted: seq<string>, now: Time)
    ensures Eligible(v, e, wanted, unwanted, now) <==> Suits(v, e, wanted, unwanted, now)
  {
    DislikedExactlyWhen(v, Haystack(e), unwanted);
    BarredExactlyWhen(v.rules, Haystack(e), wanted);
    HitsCountWishes(v, Haystack(e), wanted);
    MeetsSome(v, Haystack(e), wanted);
    ReachedExactlyWhen(CityOf(e), wanted);
  }

  lemma TimingCounts(startsAt: Time, now: Time)
    requires now < startsAt
    ensures TimingPoints(startsAt, now)
         == if startsAt < now + 31 * DAY then 2 else if startsAt < now + 91 * DAY then 1 else 0
  {
    Days(startsAt - now, 30);
    Days(startsAt - now, 90);
  }

  lemma Days(wait: int, days: int)
    ensures wait / DAY <= days <==> wait < (days + 1) * DAY
  {
    var day, q := DAY, wait / DAY;
    assert wait == q * day + wait % day;
    if q <= days {
      assert q * day <= days * day;
    } else {
      assert q * day >= (days + 1) * day;
    }
  }

  /** And it scores three for each wish it meets, or one when it meets none; two for a place one goes
      to and one for none; two for less than thirty-one days away and one for less than ninety-one. */
  lemma ScoreAddsUp(v: Vocabulary, e: Event, wanted: seq<string>, now: Time)
    requires now < e.startsAt
    ensures var met := |WishesMet(v, Haystack(e), wanted)|;
      Score(v, e, wanted, now)
      == (if met == 0 then 1 else 3 * met)
         + (if CityOf(e) in {"", "online", "virtual", "remote"} then 1 else 2)
         + (if e.startsAt < now + 31 * DAY then 2 else if e.startsAt < now + 91 * DAY then 1 else 0)
  {
    HitsCountWishes(v, Haystack(e), wanted);
    TimingCounts(e.startsAt, now);
    PlaceCounts(CityOf(e));
  }

  lemma PlaceCounts(city: string)
    ensures LocationPoints(city) == if city in {"", "online", "virtual", "remote"} then 1 else 2
  {
  }
}
