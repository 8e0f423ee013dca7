/** How a yes to one event comes to take up another: a run of one person, shown one event by text
    and another on a call. */
module CrossedOffers {
  import opened Clock
  import opened Options
  import opened Checklist
  import opened InterviewInvariant
  import opened InterviewOffers
  import opened InterviewRuns
  import Matching
  import MatchingProperties
  import Replies
  import ReplyProperties
  import Suggestions

  /** An introduction that has come as far as asking when the person has time. */
  predicate AtEventTime(items: seq<Item>) {
    && |items| == 5
    && (forall i :: 0 <= i < 5 ==> items[i].key == ONBOARDING_TEMPLATE[i])
    && items[0].Settled() && items[1].Settled() && !items[2].Settled() && !items[3].Settled()
    && !items[3].Asked()
  }

  function InterestsOf(p: Profile): seq<string> {
    Matching.InterestList(Text.Split(p.interests, ','))
  }

  predicate Suits(v: Matching.Vocabulary, p: Profile, e: Matching.Event, now: Time) {
    var wishes := Matching.PreferencesOf(InterestsOf(p));
    Matching.Eligible(v, e, wishes.wanted, wishes.unwanted, now)
  }

  /** What the offer question would name. */
  function Pick(c: Catalogue, p: Profile, offers: seq<Suggestions.Offer>, now: Time): Option<int> {
    var best := Matching.Best(c.vocabulary, InterestsOf(p), Suggestions.Candidates(c.events, offers, now), now);
    if best.None? then None else Some(best.value.event.id)
  }

  /** What is picked was not offered before. */
  lemma PickIsNew(c: Catalogue, p: Profile, b: Suggestions.Book, now: Time)
    requires Pick(c, p, b.offers, now).Some?
    ensures !Suggestions.WasOffered(b.offers, Pick(c, p, b.offers, now).value)
  {
    Suggestions.SuggestionIsNew(c.vocabulary, InterestsOf(p), c.events, b, now);
  }

  lemma {:induction false} NotYetOfferedHolds(events: seq<Matching.Event>, offers: seq<Suggestions.Offer>, now: Time, e: Matching.Event)
    ensures |Suggestions.NotYetOffered(events, offers, now)| <= |events|
    ensures e in events && e.startsAt >= now && !Suggestions.WasOffered(offers, e.id) ==>
              e in Suggestions.NotYetOffered(events, offers, now)
  {
    if events != [] {
      var front := events[..|events| - 1];
      NotYetOfferedHolds(front, offers, now, e);
      assert events == front + [events[|events| - 1]];
    }
  }

  lemma {:induction false} InsertByStartHolds(es: seq<Matching.Event>, e: Matching.Event, x: Matching.Event)
    ensures |Suggestions.InsertByStart(es, e)| == |es| + 1
    ensures x in es || x == e ==> x in Suggestions.InsertByStart(es, e)
  {
    if es != [] {
      var front := es[..|es| - 1];
      InsertByStartHolds(front, e, x);
      assert es == front + [es[|es| - 1]];
    }
  }

  lemma {:induction false} ByStartHolds(es: seq<Matching.Event>, x: Matching.Event)
    ensures |Suggestions.ByStart(es)| == |es|
    ensures x in es ==> x in Suggestions.ByStart(es)
  {
    if es != [] {
      var front := es[..|es| - 1];
      ByStartHolds(front, x);
      InsertByStartHolds(Suggestions.ByStart(front), es[|es| - 1], x);
      assert es == front + [es[|es| - 1]];
    }
  }

  /** With an event that suits and was not offered on a list within the limit, something is
      picked. */
  lemma SomethingIsPicked(c: Catalogue, p: Profile, e: Matching.Event, offers: seq<Suggestions.Offer>, now: Time)
    requires e in c.events && |c.events| <= Suggestions.CANDIDATE_LIMIT
    requires Suits(c.vocabulary, p, e, now) && !Suggestions.WasOffered(offers, e.id)
    ensures Pick(c, p, offers, now).Some?
  {
    NotYetOfferedHolds(c.events, offers, now, e);
    ByStartHolds(Suggestions.NotYetOffered(c.events, offers, now), e);
    MatchingProperties.BestIsUnbeaten(
      c.vocabulary, InterestsOf(p), Suggestions.Candidates(c.events, offers, now), now, e);
  }

  /** The session once the time question is skipped and the offer of an event put. */
  predicate ShownOffer(items: seq<Item>, event: int) {
    && |items| == 5 && Current(items) == 3
    && items[3].key == EventOffer && items[3].Asked() && items[3].prompt == Offering(event)
  }

  /** Session `s` has been brought from the time question to the offer of event `e`. */
  predicate BroughtToOffer(w: World, s: int, w': World, e: int) {
    && 0 <= s < |w.sessions| == |w'.sessions|
    && w'.profile == w.profile
    && w'.sessions == w.sessions[s := w'.sessions[s]]
    && w'.sessions[s] == w.sessions[s].(items := w'.sessions[s].items)
    && ShownOffer(w'.sessions[s].items, e)
    && (forall i :: 0 <= i < 5 ==> !Speaks(w'.sessions[s].items[i], EventTime))
    && w'.book.offers == w.book.offers + [Suggestions.Offer(w.book.nextId, e, Suggestions.Offered)]
  }

  /** The session with its time question skipped. */
  predicate TimeSkipped(w: World, s: int, w1: World) {
    && 0 <= s < |w.sessions| == |w1.sessions|
    && w1.profile == w.profile && w1.book == w.book
    && w1.sessions == w.sessions[s := w1.sessions[s]]
    && w1.sessions[s] == w.sessions[s].(items := w1.sessions[s].items)
    && |w1.sessions[s].items| == 5 && Current(w1.sessions[s].items) == 3
    && w1.sessions[s].items[3].key == EventOffer && !w1.sessions[s].items[3].Settled()
    && (forall i :: 0 <= i < 5 ==> !Speaks(w1.sessions[s].items[i], EventTime))
  }

  lemma SkippingTime(w: World, s: int, now: Time)
    requires 0 <= s < |w.sessions| && AtEventTime(w.sessions[s].items)
    ensures var r := Record(w, s, EventTime, Skipped, "", now);
      r.Saved? && r.item.key == EventTime && r.item.status == Skipped && TimeSkipped(w, s, r.world)
  {
    CurrentIs(w.sessions[s].items, 2);
    var w1 := Record(w, s, EventTime, Skipped, "", now).world;
    CurrentIs(w1.sessions[s].items, 3);
  }

  lemma AskingShowsTheEvent(w: World, s: int, w1: World, e: int, c: Catalogue, now: Time)
    requires TimeSkipped(w, s, w1) && Pick(c, w.profile, w.book.offers, now) == Some(e)
    ensures BroughtToOffer(w, s, Onward(w1, s, c, now).world, e)
  {
    var w' := Onward(w1, s, c, now).world;
    CurrentIs(w'.sessions[s].items, 3);
  }

  /** Skipping the time question brings on the offer of the event that is picked. */
  lemma SkippingBringsTheOffer(w: World, s: int, e: int, c: Catalogue, now: Time)
    requires 0 <= s < |w.sessions| && AtEventTime(w.sessions[s].items)
    requires Pick(c, w.profile, w.book.offers, now) == Some(e)
    ensures var r := Record(w, s, EventTime, Skipped, "", now);
      && r.Saved? && r.item.status == Skipped && TimeSkipped(w, s, r.world)
      && BroughtToOffer(w, s, Onward(r.world, s, c, now).world, e)
  {
    SkippingTime(w, s, now);
    AskingShowsTheEvent(w, s, Record(w, s, EventTime, Skipped, "", now).world, e, c, now);
  }

  /** A skip by text goes straight on. */
  lemma SkipByText(w: World, s: int, skip: string, c: Catalogue, now: Time)
    requires 0 <= s < |w.sessions| && AtEventTime(w.sessions[s].items) && ReadReply(skip) == (Skipped, "")
    requires Record(w, s, EventTime, Skipped, "", now).Saved? && s < |Record(w, s, EventTime, Skipped, "", now).world.sessions|
    ensures Current(w.sessions[s].items) == 2
    ensures TakeReply(w, s, skip, c, now) == Onward(Record(w, s, EventTime, Skipped, "", now).world, s, c, now)
  {
    CurrentIs(w.sessions[s].items, 2);
  }

  /** And so does one the agent saves. */
  lemma SkipByPhone(w: World, s: int, it: Item, c: Catalogue, now: Time)
    requires 0 <= s < |w.sessions| && w.sessions[s].flow.Onboarding? && it.status == Skipped
    ensures AfterSave(w, s, it, c, now) == Onward(w, s, c, now)
  {
  }

  /** What is known of somebody who gave a name and interests when signing up, and has never said
      when they have time. */
  predicate KnownButForTime(w: World) {
    && !w.profile.Onboarded()
    && KnownFrom(Name, w.profile) != "" && KnownFrom(EventTypes, w.profile) != ""
    && LastSettled(Rows(w.sessions), EventTime).None?
  }

  lemma NewSessionIsAtEventTime(w: World, channel: Channel, now: Time)
    requires KnownButForTime(w) && !channel.UnknownChannel? && FindOpen(w.sessions, channel, Onboarding) < 0
    ensures var e := EnsureSession(w, channel, Onboarding, now);
      && e.s == |w.sessions| && |e.world.sessions| == |w.sessions| + 1
      && e.world.sessions[..e.s] == w.sessions
      && e.world.profile == w.profile && e.world.book == w.book
      && AtEventTime(e.world.sessions[e.s].items)
      && forall i :: 0 <= i < 5 ==> !e.world.sessions[e.s].items[i].Asked()
  {
    var items := StartItems(ONBOARDING_TEMPLATE, w, now);
    assert forall i :: 0 <= i < 5 ==> items[i] == StartItem(ONBOARDING_TEMPLATE[i], w, now);
  }

  lemma AskingForTime(w: World, s: int, c: Catalogue, now: Time)
    requires At(w, s, 2) && w.sessions[s].items[2].key == EventTime
    ensures AskQuestion(w, s, 2, c, now).world == MarkAsked(w, s, 2, now)
  {
  }

  lemma FirstTextIs(w: World, inbound: string, c: Catalogue, now: Time)
    requires !w.profile.Onboarded()
    requires var e := EnsureSession(w, Sms, Onboarding, now);
      |e.world.sessions[e.s].items| == 5 && Current(e.world.sessions[e.s].items) == 2
      && !e.world.sessions[e.s].items[2].Asked()
    ensures var e := EnsureSession(w, Sms, Onboarding, now);
      Do(w, ReplyStep(inbound, c, now)) == AskQuestion(e.world, e.s, 2, c, now).world
  {
  }

  /** The time question has been put by text, and nothing else has happened. */
  predicate TimePutByText(w: World, w': World) {
    && w'.profile == w.profile && w'.book == w.book && |w'.sessions| == 1
    && w'.sessions[0].channel == Sms && w'.sessions[0].flow == Onboarding && w'.sessions[0].open
    && AtEventTime(w'.sessions[0].items) && w'.sessions[0].items[2].Asked()
  }

  lemma PuttingTheTime(w: World, e: World, now: Time)
    requires e.profile == w.profile && e.book == w.book && |e.sessions| == 1
    requires e.sessions[0].channel == Sms && e.sessions[0].flow == Onboarding && e.sessions[0].open
    requires AtEventTime(e.sessions[0].items)
    ensures TimePutByText(w, MarkAsked(e, 0, 2, now))
  {
  }

  /** The first text asks when they have time. */
  lemma FirstText(w: World, inbound: string, c: Catalogue, now: Time)
    requires KnownButForTime(w) && w.sessions == []
    ensures TimePutByText(w, Do(w, ReplyStep(inbound, c, now)))
  {
    NewSessionIsAtEventTime(w, Sms, now);
    var e := EnsureSession(w, Sms, Onboarding, now);
    CurrentIs(e.world.sessions[e.s].items, 2);
    FirstTextIs(w, inbound, c, now);
    AskingForTime(e.world, e.s, c, now);
    PuttingTheTime(w, e.world, now);
  }

  /** Skipping by text: the first event is shown. */
  lemma SecondText(w: World, skip: string, e: int, c: Catalogue, now: Time)
    requires !w.profile.Onboarded() && FindOpen(w.sessions, Sms, Onboarding) == 0
    requires AtEventTime(w.sessions[0].items) && w.sessions[0].items[2].Asked()
    requires ReadReply(skip) == (Skipped, "") && Pick(c, w.profile, w.book.offers, now) == Some(e)
    ensures BroughtToOffer(w, 0, Do(w, ReplyStep(skip, c, now)), e)
  {
    SkippingBringsTheOffer(w, 0, e, c, now);
    SkipByText(w, 0, skip, c, now);
  }

  lemma CallStepIs(w: World, c: Catalogue, now: Time)
    requires !w.profile.Onboarded()
    requires var e := EnsureSession(w, Call, Onboarding, now);
      && Record(e.world, e.s, EventTime, Skipped, "", now).Saved?
      && TimeSkipped(e.world, e.s, Record(e.world, e.s, EventTime, Skipped, "", now).world)
    ensures var e := EnsureSession(w, Call, Onboarding, now);
      Do(w, SaveAnswerStep(Call, EventTime, Skipped, "", c, now))
      == Onward(Record(e.world, e.s, EventTime, Skipped, "", now).world, e.s, c, now).world
  {
    var e := EnsureSession(w, Call, Onboarding, now);
    var r := Record(e.world, e.s, EventTime, Skipped, "", now);
    assert r.item.status == Skipped;
    SkipByPhone(r.world, e.s, r.item, c, now);
  }

  /** A call has been started and has offered one more event. */
  predicate CallAdds(w: World, w': World, e: int) {
    && |w.sessions| == 1 && |w'.sessions| == 2 && w'.sessions[0] == w.sessions[0]
    && w'.profile == w.profile
    && w'.book.offers == w.book.offers + [Suggestions.Offer(w.book.nextId, e, Suggestions.Offered)]
  }

  /** Skipping on a call started since: the second event is shown there, and nothing changes in the
      texts. */
  lemma ThenACall(w: World, e: int, c: Catalogue, now: Time)
    requires KnownButForTime(w) && |w.sessions| == 1 && FindOpen(w.sessions, Call, Onboarding) < 0
    requires Pick(c, w.profile, w.book.offers, now) == Some(e)
    ensures CallAdds(w, Do(w, SaveAnswerStep(Call, EventTime, Skipped, "", c, now)), e)
  {
    var s := EnsureSession(w, Call, Onboarding, now).world;
    NewSessionIsAtEventTime(w, Call, now);
    SkippingBringsTheOffer(s, 1, e, c, now);
    CallStepIs(w, c, now);
    CallOnly(w, s, Do(w, SaveAnswerStep(Call, EventTime, Skipped, "", c, now)), e);
  }

  lemma CallOnly(w: World, s: World, w': World, e: int)
    requires |w.sessions| == 1 && |s.sessions| == 2 && s.sessions[..1] == w.sessions
    requires s.profile == w.profile && s.book == w.book && BroughtToOffer(s, 1, w', e)
    ensures CallAdds(w, w', e)
  {
    assert s.sessions[..1][0] == s.sessions[0];
  }

  lemma {:induction false} NobodySaid(rows: seq<Item>, key: Key)
    requires forall i :: 0 <= i < |rows| ==> !Speaks(rows[i], key)
    ensures LastSettled(rows, key).None?
  {
  }

  /** One event by text, another on a call, from one catalogue throughout. */
  function ShownTwoEvents(c: Catalogue, hello: string, skip: string, first: Time, second: Time, third: Time): seq<Step> {
    [ReplyStep(hello, c, first)] + [ReplyStep(skip, c, second)] + [SaveAnswerStep(Call, EventTime, Skipped, "", c, third)]
  }

  lemma RunSnoc(w: World, run: seq<Step>, step: Step)
    ensures RunFrom(w, run + [step]) == Do(RunFrom(w, run), step)
  {
    assert (run + [step])[..|run|] == run;
  }

  function OneOffer(event: int): seq<Suggestions.Offer> {
    [Suggestions.Offer(1, event, Suggestions.Offered)]
  }

  /** One event is on show in the texts, and it is the only one offered. */
  predicate ShownByText(w: World, event: int) {
    && KnownButForTime(w) && |w.sessions| == 1
    && w.sessions[0].channel == Sms && w.sessions[0].flow == Onboarding && w.sessions[0].open
    && ShownOffer(w.sessions[0].items, event)
    && w.book.offers == OneOffer(event)
  }

  /** Two texts, and the first event is on show and on offer. */
  lemma TextsShowTheFirst(
    start: World, c: Catalogue, e: int, hello: string, skip: string, first: Time, second: Time)
    requires KnownButForTime(start) && start.sessions == [] && start.book == Suggestions.EMPTY_BOOK
    requires Pick(c, start.profile, [], second) == Some(e) && ReadReply(skip) == (Skipped, "")
    ensures var w := Do(Do(start, ReplyStep(hello, c, first)), ReplyStep(skip, c, second));
      w.profile == start.profile && ShownByText(w, e)
  {
    FirstText(start, hello, c, first);
    var w1 := Do(start, ReplyStep(hello, c, first));
    OneSession(w1);
    SecondText(w1, skip, e, c, second);
    ShownAfterBoth(start, w1, Do(w1, ReplyStep(skip, c, second)), e);
  }

  lemma ShownAfterBoth(start: World, w1: World, w2: World, e: int)
    requires KnownButForTime(start) && start.book == Suggestions.EMPTY_BOOK
    requires TimePutByText(start, w1) && BroughtToOffer(w1, 0, w2, e)
    ensures w2.profile == start.profile && ShownByText(w2, e)
  {
    OneSession(w2);
    NobodySaid(Rows(w2.sessions), EventTime);
  }

  lemma OneSession(w: World)
    requires |w.sessions| == 1
    ensures Rows(w.sessions) == w.sessions[0].items
    ensures w.sessions[0].channel == Sms && w.sessions[0].flow == Onboarding && w.sessions[0].open ==>
              FindOpen(w.sessions, Sms, Onboarding) == 0 && FindOpen(w.sessions, Call, Onboarding) < 0
  {
    assert w.sessions[..0] == [] && Rows(w.sessions[..0]) == [];
  }

  /** After that run the texts still show the first event, and the second is the newest open offer. */
  lemma TwoEventsAreShown(
    start: World, c: Catalogue, x: int, y: int, hello: string, skip: string, first: Time, second: Time, third: Time)
    requires KnownButForTime(start) && start.sessions == [] && start.book == Suggestions.EMPTY_BOOK
    requires Pick(c, start.profile, [], second) == Some(x) && Pick(c, start.profile, OneOffer(x), third) == Some(y)
    requires x != y && ReadReply(skip) == (Skipped, "")
    ensures ReadyToCross(RunFrom(start, ShownTwoEvents(c, hello, skip, first, second, third)), x, y)
  {
    var s1, s2 := ReplyStep(hello, c, first), ReplyStep(skip, c, second);
    var s3 := SaveAnswerStep(Call, EventTime, Skipped, "", c, third);
    RunSnoc(start, [], s1);
    RunSnoc(start, [s1], s2);
    RunSnoc(start, [s1] + [s2], s3);
    assert [] + [s1] == [s1];
    TextsShowTheFirst(start, c, x, hello, skip, first, second);
    CallMakesItReady(Do(Do(start, s1), s2), x, y, c, third);
  }

  /** The texts show one event while the newest open offer is for another. */
  predicate ReadyToCross(w: World, shown: int, newest: int) {
    && !w.profile.Onboarded() && |w.sessions| == 2
    && w.sessions[0].channel == Sms && w.sessions[0].flow == Onboarding && w.sessions[0].open
    && ShownOffer(w.sessions[0].items, shown)
    && NewestOpenIs(w.book, newest) && !NewestOpenIs(w.book, shown)
  }

  lemma CallMakesItReady(w: World, x: int, y: int, c: Catalogue, now: Time)
    requires ShownByText(w, x) && Pick(c, w.profile, OneOffer(x), now) == Some(y) && x != y
    ensures ReadyToCross(Do(w, SaveAnswerStep(Call, EventTime, Skipped, "", c, now)), x, y)
  {
    var w' := Do(w, SaveAnswerStep(Call, EventTime, Skipped, "", c, now));
    assert CallAdds(w, w', y) by {
      OneSession(w);
      ThenACall(w, y, c, now);
    }
    ReadyAfterCall(w, w', x, y);
  }

  lemma ReadyAfterCall(w: World, w': World, a: int, b: int)
    requires ShownByText(w, a) && CallAdds(w, w', b) && a != b
    ensures ReadyToCross(w', a, b)
  {
    NewestOfTwo(w.book, w'.book, b);
  }

  lemma NewestOfTwo(b: Suggestions.Book, b': Suggestions.Book, e: int)
    requires b'.offers == b.offers + [Suggestions.Offer(b.nextId, e, Suggestions.Offered)]
    ensures Suggestions.OpenOffer(b'.offers) == |b.offers|
    ensures forall f :: NewestOpenIs(b', f) <==> f == e
  {
  }

  lemma ReadyToSayYes(w: World, shown: int, newest: int, yes: string, c: Catalogue, now: Time)
    requires Inv(w) && ReadyToCross(w, shown, newest) && ClearYes(yes)
    ensures SaysYes(w, ReplyStep(yes, c, now))
  {
    OpenByText(w);
  }

  /** The texts show one event, the person says yes, and the offer of another is taken up. */
  ghost predicate Crossed(w: World, w': World, shown: int) {
    && ItemAt(w, 0, 3) && w.sessions[0].items[3].prompt == Offering(shown)
    && !TakesUp(w.book, w'.book, shown)
    && exists other :: other != shown && TakesUp(w.book, w'.book, other)
  }

  lemma YesCrosses(
    name: string, interests: string, frequency: string, c: Catalogue, x: int, y: int, hello: string, skip: string,
    yes: string, first: Time, second: Time, third: Time, fourth: Time)
    requires var p := NewPerson(name, interests, frequency).profile;
      && KnownFrom(Name, p) != "" && KnownFrom(EventTypes, p) != ""
      && Pick(c, p, [], second) == Some(x) && Pick(c, p, OneOffer(x), third) == Some(y)
    requires x != y && ReadReply(skip) == (Skipped, "") && ClearYes(yes)
    ensures var w := RunFrom(NewPerson(name, interests, frequency), ShownTwoEvents(c, hello, skip, first, second, third));
      SaysYes(w, ReplyStep(yes, c, fourth)) && Crossed(w, Do(w, ReplyStep(yes, c, fourth)), x)
  {
    var start := NewPerson(name, interests, frequency);
    var run := ShownTwoEvents(c, hello, skip, first, second, third);
    var w := RunFrom(start, run);
    TwoEventsAreShown(start, c, x, y, hello, skip, first, second, third);
    RunKeeps(start, run);
    NoEventIsOfferedTwice(start, run);
    ReadyToSayYes(w, x, y, yes, c, fourth);
    YesTakesWhatWasShownExactlyWhen(w, ReplyStep(yes, c, fourth), x);
    YesTakesWhatWasShownExactlyWhen(w, ReplyStep(yes, c, fourth), y);
  }

  /** Two events that suit make for two different picks. */
  lemma TwoPicks(c: Catalogue, p: Profile, a: Matching.Event, b: Matching.Event, second: Time, third: Time)
    returns (x: int, y: int)
    requires Suits(c.vocabulary, p, a, second) && Suits(c.vocabulary, p, a, third) && Suits(c.vocabulary, p, b, third)
    requires a in c.events && b in c.events && a.id != b.id && |c.events| <= Suggestions.CANDIDATE_LIMIT
    ensures Pick(c, p, [], second) == Some(x) && Pick(c, p, OneOffer(x), third) == Some(y) && x != y
  {
    SomethingIsPicked(c, p, a, [], second);
    x := Pick(c, p, [], second).value;
    SecondPick(c, p, if x == a.id then b else a, x, third);
    y := Pick(c, p, OneOffer(x), third).value;
  }

  lemma SecondPick(c: Catalogue, p: Profile, e: Matching.Event, x: int, now: Time)
    requires e in c.events && e.id != x && |c.events| <= Suggestions.CANDIDATE_LIMIT && Suits(c.vocabulary, p, e, now)
    ensures Pick(c, p, OneOffer(x), now).Some? && Pick(c, p, OneOffer(x), now) != Some(x)
  {
    SomethingIsPicked(c, p, e, OneOffer(x), now);
    PickIsNew(c, p, Suggestions.Book(OneOffer(x), 2), now);
    assert OneOffer(x)[0].event == x;
  }

  /** For any catalogue with two events that suit the person: shown one by text and then the next on
      a call, the person texts yes, and it is not the one shown that is taken up. */
  lemma YesCanTakeUpAnotherEvent(
    name: string, interests: string, frequency: string, c: Catalogue, a: Matching.Event, b: Matching.Event,
    hello: string, skip: string, yes: string, first: Time, second: Time, third: Time, fourth: Time)
    requires var p := NewPerson(name, interests, frequency).profile;
      && KnownFrom(Name, p) != "" && KnownFrom(EventTypes, p) != ""
      && Suits(c.vocabulary, p, a, second) && Suits(c.vocabulary, p, a, third) && Suits(c.vocabulary, p, b, third)
    requires a in c.events && b in c.events && a.id != b.id && |c.events| <= Suggestions.CANDIDATE_LIMIT
    requires ReadReply(skip) == (Skipped, "") && ClearYes(yes)
    ensures var w := RunFrom(NewPerson(name, interests, frequency), ShownTwoEvents(c, hello, skip, first, second, third));
      && SaysYes(w, ReplyStep(yes, c, fourth))
      && exists shown :: Crossed(w, Do(w, ReplyStep(yes, c, fourth)), shown)
  {
    var x, y := TwoPicks(c, NewPerson(name, interests, frequency).profile, a, b, second, third);
    YesCrosses(name, interests, frequency, c, x, y, hello, skip, yes, first, second, third, fourth);
  }

  lemma OpenByText(w: World)
    requires Inv(w) && |w.sessions| == 2
    requires w.sessions[0].channel == Sms && w.sessions[0].flow == Onboarding && w.sessions[0].open
    ensures FindOpen(w.sessions, Sms, Onboarding) == 0
  {
  }

  // ----- such people and events there are ----------------------------------------------------------

  /** An interest that reading leaves as it is, and that is not against anything. */
  predicate Simple(s: string) {
    ReplyProperties.Plain(s) && (|s| <= 4 || !Text.HasSuffix(s, "s")) && Matching.DislikeIn(s).None?
  }

  lemma SimpleStays(s: string)
    requires Simple(s)
    ensures Text.TrimSpace(s) == s && Text.ToLower(s) == s && Matching.InterestStem(s) == s
  {
    ReplyProperties.TrimmedIsFree(s);
    ReplyProperties.LowerAgain(s);
    ReplyProperties.TrimMark(s);
  }

  lemma LikesOneThing(interest: string)
    requires Simple(interest)
    ensures Matching.PreferencesOf(Matching.InterestList(Text.Split(interest, ','))) == Matching.Preferences([interest], [])
  {
    ReplyProperties.SplitPlain(interest);
    SimpleStays(interest);
    var one := [interest];
    assert one[..0] == [] && Matching.InterestList(one[..0]) == [];
    assert Matching.PreferencesOf(one[..0]) == Matching.Preferences([], []);
  }

  /** An event about one thing, online. */
  function OnlineEvent(id: int, about: string, startsAt: Time): Matching.Event {
    Matching.Event(id, about, startsAt, "", about, "")
  }

  lemma HaystackHoldsTheTitle(e: Matching.Event)
    ensures Text.Contains(Matching.Haystack(e), Text.ToLower(e.title))
  {
    Concatenates(e.title, e.tags, e.city);
    ReplyProperties.LowerContains("", e.title, " " + e.tags + " " + e.city);
  }

  lemma Concatenates(a: string, b: string, c: string)
    ensures "" + a + (" " + b + " " + c) == a + " " + b + " " + c
  {
  }

  lemma OnlineEventIsRelevant(v: Matching.Vocabulary, about: string, id: int, startsAt: Time)
    requires Simple(about)
    ensures Matching.Relevant(v, OnlineEvent(id, about, startsAt), [about])
  {
    var e := OnlineEvent(id, about, startsAt);
    HaystackHoldsTheTitle(e);
    SimpleStays(about);
    OneHit(v, Matching.Haystack(e), about);
    OnlineIsRemote(e);
  }

  /** A marker longer than a text is not in it. */
  lemma {:induction false} LongIsNotContained(s: string, sub: string)
    requires |sub| > |s|
    ensures !Text.Contains(s, sub)
  {
    if s != "" {
      LongIsNotContained(s[1..], sub);
    }
  }

  /** Every audience marker of the service has at least five letters. */
  lemma MarkersAreLong(i: int, j: int)
    requires 0 <= i < |Matching.AUDIENCE_RULES| && 0 <= j < |Matching.AUDIENCE_RULES[i].markers|
    ensures |Matching.AUDIENCE_RULES[i].markers[j]| >= 5
  {
    assert i == 0 || i == 1 || i == 2 || i == 3 || i == 4;
    assert j == 0 || j == 1 || j == 2 || j == 3 || j == 4 || j == 5 || j == 6 || j == 7 || j == 8;
  }

  lemma ShortTextsHaveNoMarker(haystack: string, i: int)
    requires |haystack| <= 4 && 0 <= i < |Matching.AUDIENCE_RULES|
    ensures !Matching.ContainsAny(haystack, Matching.AUDIENCE_RULES[i].markers)
  {
    forall j | 0 <= j < |Matching.AUDIENCE_RULES[i].markers|
      ensures !Text.Contains(haystack, Matching.AUDIENCE_RULES[i].markers[j])
    {
      MarkersAreLong(i, j);
      LongIsNotContained(haystack, Matching.AUDIENCE_RULES[i].markers[j]);
    }
  }

  /** An online event about this is for everybody, by the service's own rules. */
  predicate ForEverybody(about: string) {
    !Matching.WrongAudience(Matching.AUDIENCE_RULES, Matching.Haystack(OnlineEvent(0, about, 0)), [about])
  }

  lemma ShortInterestsAreForEverybody(about: string)
    requires |about| <= 2
    ensures ForEverybody(about)
  {
    var haystack := Matching.Haystack(OnlineEvent(0, about, 0));
    forall i | 0 <= i < |Matching.AUDIENCE_RULES| ensures !Matching.ContainsAny(haystack, Matching.AUDIENCE_RULES[i].markers) {
      ShortTextsHaveNoMarker(haystack, i);
    }
  }

  lemma OnlineIsRemote(e: Matching.Event)
    requires e.city == ""
    ensures Matching.Remote(Matching.CityOf(e))
  {
  }

  lemma OneHit(v: Matching.Vocabulary, haystack: string, about: string)
    requires Simple(about) && Text.Contains(haystack, about)
    ensures Matching.Hits(v, haystack, [about]) == 1
  {
    SimpleStays(about);
    var wanted := [about];
    assert Matching.MatchesInterest(v, haystack, about);
    assert wanted[..0] == [] && Matching.Hits(v, haystack, wanted[..0]) == 0;
  }

  lemma OnlineEventSuits(p: Profile, id: int, startsAt: Time, now: Time)
    requires Simple(p.interests) && ForEverybody(p.interests) && startsAt > now
    ensures Suits(Matching.VOCABULARY, p, OnlineEvent(id, p.interests, startsAt), now)
  {
    assert Matching.Haystack(OnlineEvent(id, p.interests, startsAt)) == Matching.Haystack(OnlineEvent(0, p.interests, 0));
    LikesOneThing(p.interests);
    SimpleStays(p.interests);
    OnlineEventIsRelevant(Matching.VOCABULARY, p.interests, id, startsAt);
  }

  lemma BareIsItself(word: string)
    requires ReplyProperties.Stripped(word) && forall c :: c in word ==> Text.LowerChar(c) == c
    ensures Replies.Bare(word) == word && Text.TrimSpace(word) == word
  {
    ReplyProperties.BareWord(word, "");
    assert word + "" == word;
    ReplyProperties.LowerAgain(word);
    ReplyProperties.TrimmedIsFree(word);
  }

  lemma SkipIsRead()
    ensures ReadReply("skip") == (Skipped, "")
  {
    BareIsItself("skip");
    assert Replies.SKIP_WORDS[0] == "skip";
  }

  lemma YesIsRead()
    ensures ClearYes("yes")
  {
    BareIsItself("yes");
    assert Replies.YES_WORDS[1] == "yes";
    ReplyProperties.YesIsHeardAsAnAnswer("yes");
  }

  /** Two online events about one thing. */
  function TwoOnlineEvents(about: string, startsAt: Time): Catalogue {
    Catalogue(Matching.VOCABULARY, [OnlineEvent(1, about, startsAt), OnlineEvent(2, about, startsAt)])
  }

  /** Whoever signs up with a name and one such interest, open to everybody, can be shown two online
      events about it and have the other one taken up: in the service's own vocabulary, and with both
      events on its list all along. */
  lemma AnyoneCanCrossOffers(name: string, interest: string, hello: string, at: Time)
    requires Text.TrimSpace(Text.TrimSpace(name)) != "" && Simple(interest) && ForEverybody(interest)
    ensures var c := TwoOnlineEvents(interest, at + 1);
      var w := RunFrom(NewPerson(name, interest, ""), ShownTwoEvents(c, hello, "skip", at, at, at));
      && SaysYes(w, ReplyStep("yes", c, at))
      && exists shown :: Crossed(w, Do(w, ReplyStep("yes", c, at)), shown)
  {
    var p := NewPerson(name, interest, "").profile;
    var c := TwoOnlineEvents(interest, at + 1);
    SimpleStays(interest);
    OnlineEventSuits(p, 1, at + 1, at);
    OnlineEventSuits(p, 2, at + 1, at);
    SkipIsRead();
    YesIsRead();
    YesCanTakeUpAnotherEvent(name, interest, "", c, c.events[0], c.events[1], hello, "skip", "yes", at, at, at, at);
  }

  /** Sam, who likes "ai", is one of them. */
  lemma SamCanCrossOffers(hello: string, at: Time)
    ensures var c := TwoOnlineEvents("ai", at + 1);
      var w := RunFrom(NewPerson("Sam", "ai", ""), ShownTwoEvents(c, hello, "skip", at, at, at));
      exists shown :: Crossed(w, Do(w, ReplyStep("yes", c, at)), shown)
  {
    ReplyProperties.TrimmedIsFree("Sam");
    ShortInterestsAreForEverybody("ai");
    AnyoneCanCrossOffers("Sam", "ai", hello, at);
  }
}
