/** Offering events to one person and taking up the newest open offer. */
module Suggestions {
  import opened Clock
  import opened Options
  import opened Matching
  import opened MatchingProperties

  datatype Status = Offered | Accepted

  datatype Offer = Offer(id: int, event: int, status: Status)

  /** The suggestions table of one person. */
  datatype Book = Book(offers: seq<Offer>, nextId: int)

  const EMPTY_BOOK := Book([], 1)
  const CANDIDATE_LIMIT := 1000

  predicate WasOffered(offers: seq<Offer>, event: int) {
    exists i :: 0 <= i < |offers| && offers[i].event == event
  }

  /** Events still to come that this person has not been offered. */
  function NotYetOffered(events: seq<Event>, offers: seq<Offer>, now: Time): seq<Event> {
    if events == [] then []
    else
      var rest, e := NotYetOffered(events[..|events| - 1], offers, now), events[|events| - 1];
      if e.startsAt >= now && !WasOffered(offers, e.id) then rest + [e] else rest
  }

  function InsertByStart(es: seq<Event>, e: Event): seq<Event> {
    if es == [] then [e]
    else if e.startsAt < es[|es| - 1].startsAt then InsertByStart(es[..|es| - 1], e) + [es[|es| - 1]]
    else es + [e]
  }

  function ByStart(es: seq<Event>): seq<Event> {
    if es == [] then [] else InsertByStart(ByStart(es[..|es| - 1]), es[|es| - 1])
  }

  /** The soonest candidates, up to the limit. */
  function Candidates(events: seq<Event>, offers: seq<Offer>, now: Time): seq<Event> {
    var sorted := ByStart(NotYetOffered(events, offers, now));
    if |sorted| <= CANDIDATE_LIMIT then sorted else sorted[..CANDIDATE_LIMIT]
  }

  datatype Suggested = Suggested(book: Book, choice: Option<Match>)

  /** Picks the best candidate and records it as an open offer. */
  function Suggest(v: Vocabulary, interests: seq<string>, events: seq<Event>, b: Book, now: Time): Suggested {
    var best := Best(v, interests, Candidates(events, b.offers, now), now);
    if best.None? then Suggested(b, None)
    else Suggested(Book(b.offers + [Offer(b.nextId, best.value.event.id, Offered)], b.nextId + 1), best)
  }

  /** Where the newest open offer is. */
  function OpenOffer(offers: seq<Offer>): (i: int)
    ensures -1 <= i < |offers|
    ensures i >= 0 ==> offers[i].status == Offered && forall k :: i < k < |offers| ==> offers[k].status != Offered
    ensures i < 0 ==> forall k :: 0 <= k < |offers| ==> offers[k].status != Offered
  {
    if offers == [] then -1
    else if offers[|offers| - 1].status == Offered then |offers| - 1
    else OpenOffer(offers[..|offers| - 1])
  }

  function Accept(b: Book): Book {
    var i := OpenOffer(b.offers);
    if i < 0 then b else b.(offers := b.offers[i := b.offers[i].(status := Accepted)])
  }

  class SuggestionTable {
    var offers: seq<Offer>
    var nextId: int

    constructor ()
      ensures Book(offers, nextId) == EMPTY_BOOK
    {
      offers, nextId := [], 1;
    }

    method SuggestEvent(v: Vocabulary, interests: seq<string>, events: seq<Event>, now: Time)
      returns (choice: Option<Match>)
      modifies this
      ensures Suggested(Book(offers, nextId), choice)
           == Suggest(v, interests, events, old(Book(offers, nextId)), now)
    {
      choice := MatchEvent(v, interests, Candidates(events, offers, now), now);
      if choice.None? {
        return;
      }
      offers := offers + [Offer(nextId, choice.value.event.id, Offered)];
      nextId := nextId + 1;
    }

    method AcceptSuggestion() returns (taken: Option<int>)
      modifies this`offers
      ensures Book(offers, nextId) == Accept(old(Book(offers, nextId)))
      ensures taken == if OpenOffer(old(offers)) < 0 then None else Some(old(offers)[OpenOffer(old(offers))].event)
    {
      var i := |offers| - 1;
      while i >= 0 && offers[i].status != Offered
        invariant -1 <= i < |offers|
        invariant OpenOffer(offers) == OpenOffer(offers[..i + 1])
      {
        assert offers[..i + 1][..i] == offers[..i];
        i := i - 1;
      }
      if i < 0 {
        return None;
      }
      offers := offers[i := offers[i].(status := Accepted)];
      return Some(offers[i].event);
    }
  }

  // ----- runs -----------------------------------------------------------------------------------

  /** Interests may change between turns; the event list does not. */
  datatype Action = SuggestStep(interests: seq<string>, now: Time) | AcceptStep

  function Step(v: Vocabulary, events: seq<Event>, b: Book, a: Action): Book {
    match a
    case SuggestStep(interests, now) => Suggest(v, interests, events, b, now).book
    case AcceptStep => Accept(b)
  }

  function Run(v: Vocabulary, events: seq<Event>, run: seq<Action>): Book {
    if run == [] then EMPTY_BOOK else Step(v, events, Run(v, events, run[..|run| - 1]), run[|run| - 1])
  }

  function Ids(events: seq<Event>): set<int> {
    set i | 0 <= i < |events| :: events[i].id
  }

  function OfferedIds(offers: seq<Offer>): set<int> {
    set i | 0 <= i < |offers| :: offers[i].event
  }

  predicate EachOnce(offers: seq<Offer>) {
    forall i, j :: 0 <= i < j < |offers| ==> offers[i].event != offers[j].event
  }

  /** An event on the list, still to come and never offered to this person. */
  predicate ToCome(events: seq<Event>, offers: seq<Offer>, now: Time, e: Event) {
    e in events && e.startsAt >= now && !WasOffered(offers, e.id)
  }

  predicate SoonestFirst(es: seq<Event>) {
    forall i, j :: 0 <= i < j < |es| ==> es[i].startsAt <= es[j].startsAt
  }

  lemma {:induction false} NotYetOfferedAreToCome(events: seq<Event>, offers: seq<Offer>, now: Time, e: Event)
    ensures e in NotYetOffered(events, offers, now) <==> ToCome(events, offers, now, e)
  {
    if events != [] {
      var n := |events| - 1;
      NotYetOfferedAreToCome(events[..n], offers, now, e);
      assert events == events[..n] + [events[n]];
    }
  }

  lemma {:induction false} InsertByStartKeepsEach(es: seq<Event>, e: Event)
    ensures multiset(InsertByStart(es, e)) == multiset(es) + multiset{e}
  {
    if es != [] {
      InsertByStartKeepsEach(es[..|es| - 1], e);
      assert es == es[..|es| - 1] + [es[|es| - 1]];
    }
  }

  lemma ByStartSnoc(front: seq<Event>, last: Event)
    ensures ByStart(front + [last]) == InsertByStart(ByStart(front), last)
    ensures multiset(front + [last]) == multiset(front) + multiset{last}
  {
    assert (front + [last])[..|front|] == front;
  }

  lemma {:induction false} ByStartKeepsEach(es: seq<Event>)
    ensures multiset(ByStart(es)) == multiset(es)
  {
    if es != [] {
      var front, last := es[..|es| - 1], es[|es| - 1];
      ByStartKeepsEach(front);
      ByStartSnoc(front, last);
      InsertByStartKeepsEach(ByStart(front), last);
      assert es == front + [last];
    }
  }

  /** Nothing in `es` starts after `last`. */
  predicate NoneLater(es: seq<Event>, last: Time) {
    forall i :: 0 <= i < |es| ==> es[i].startsAt <= last
  }

  lemma SoonestFirstSnoc(es: seq<Event>, e: Event)
    ensures SoonestFirst(es + [e]) <==> SoonestFirst(es) && NoneLater(es, e.startsAt)
  {
    var all := es + [e];
    assert all[|es|] == e && forall i :: 0 <= i < |es| ==> all[i] == es[i];
  }

  lemma {:induction false} InsertByStartSorts(es: seq<Event>, e: Event, last: Time)
    requires SoonestFirst(es)
    ensures SoonestFirst(InsertByStart(es, e))
    ensures NoneLater(es, last) && e.startsAt <= last ==> NoneLater(InsertByStart(es, e), last)
  {
    if es == [] {
    } else {
      var front, x := es[..|es| - 1], es[|es| - 1];
      assert es == front + [x];
      SoonestFirstSnoc(front, x);
      if e.startsAt < x.startsAt {
        InsertByStartSorts(front, e, x.startsAt);
        SoonestFirstSnoc(InsertByStart(front, e), x);
        InsertByStartSorts(front, e, last);
      } else {
        SoonestFirstSnoc(es, e);
      }
    }
  }

  lemma {:induction false} ByStartSorts(es: seq<Event>)
    ensures SoonestFirst(ByStart(es))
  {
    if es != [] {
      ByStartSorts(es[..|es| - 1]);
      InsertByStartSorts(ByStart(es[..|es| - 1]), es[|es| - 1], 0);
    }
  }

  /** The candidates are events to come, soonest first, and whatever is left out starts no sooner than
      a full thousand that are in. */
  lemma CandidatesAreTheSoonest(events: seq<Event>, offers: seq<Offer>, now: Time, e: Event)
    ensures var c := Candidates(events, offers, now);
      && SoonestFirst(c) && |c| <= 1000
      && (e in c ==> ToCome(events, offers, now, e))
      && (ToCome(events, offers, now, e) && e !in c ==>
            |c| == 1000 && forall k :: 0 <= k < |c| ==> c[k].startsAt <= e.startsAt)
  {
    var unoffered := NotYetOffered(events, offers, now);
    var sorted := ByStart(unoffered);
    ByStartSorts(unoffered);
    ByStartKeepsEach(unoffered);
    NotYetOfferedAreToCome(events, offers, now, e);
    assert e in sorted <==> e in multiset(sorted);
    assert e in unoffered <==> e in multiset(unoffered);
  }

  /** What is suggested is on the list and was never offered before. */
  lemma SuggestionIsNew(v: Vocabulary, interests: seq<string>, events: seq<Event>, b: Book, now: Time)
    requires Suggest(v, interests, events, b, now).choice.Some?
    ensures var e := Suggest(v, interests, events, b, now).choice.value.event;
      && e.id in Ids(events) && !WasOffered(b.offers, e.id)
      && Eligible(v, e, PreferencesOf(interests).wanted, PreferencesOf(interests).unwanted, now)
  {
    BestIsACandidate(v, interests, Candidates(events, b.offers, now), now);
    CandidatesAreTheSoonest(events, b.offers, now, Suggest(v, interests, events, b, now).choice.value.event);
  }

  /** It is the best there is: no event to come that suits the person comes before it, unless a
      thousand others start as soon. */
  lemma SuggestsTheBestToCome(v: Vocabulary, interests: seq<string>, events: seq<Event>, b: Book, now: Time, e: Event)
    requires ToCome(events, b.offers, now, e)
    requires Eligible(v, e, PreferencesOf(interests).wanted, PreferencesOf(interests).unwanted, now)
    ensures var c, t := Candidates(events, b.offers, now), Suggest(v, interests, events, b, now);
      if e in c
      then t.choice.Some? && !Before(Match(e, Score(v, e, PreferencesOf(interests).wanted, now)), t.choice.value)
      else |c| == 1000 && forall k :: 0 <= k < |c| ==> c[k].startsAt <= e.startsAt
  {
    CandidatesAreTheSoonest(events, b.offers, now, e);
    if e in Candidates(events, b.offers, now) {
      BestIsUnbeaten(v, interests, Candidates(events, b.offers, now), now, e);
    }
  }

  lemma AppendOffer(offers: seq<Offer>, o: Offer)
    ensures OfferedIds(offers + [o]) == OfferedIds(offers) + {o.event}
    ensures EachOnce(offers) && !WasOffered(offers, o.event) ==> EachOnce(offers + [o])
  {
    var longer := offers + [o];
    assert longer[|offers|] == o && forall i :: 0 <= i < |offers| ==> longer[i] == offers[i];
    if !WasOffered(offers, o.event) {
      assert forall i :: 0 <= i < |offers| ==> offers[i].event != o.event;
    }
  }

  lemma SuggestKeepsOnce(v: Vocabulary, interests: seq<string>, events: seq<Event>, b: Book, now: Time)
    requires EachOnce(b.offers)
    ensures var after := Suggest(v, interests, events, b, now).book.offers;
      EachOnce(after) && OfferedIds(after) <= OfferedIds(b.offers) + Ids(events)
  {
    var t := Suggest(v, interests, events, b, now);
    if t.choice.Some? {
      SuggestionIsNew(v, interests, events, b, now);
      AppendOffer(b.offers, Offer(b.nextId, t.choice.value.event.id, Offered));
    }
  }

  lemma AcceptKeepsOnce(b: Book)
    requires EachOnce(b.offers)
    ensures EachOnce(Accept(b).offers) && OfferedIds(Accept(b).offers) == OfferedIds(b.offers)
  {
    var after := Accept(b).offers;
    assert |after| == |b.offers| && forall i :: 0 <= i < |after| ==> after[i].event == b.offers[i].event;
  }

  lemma {:induction false} RunOffersEachOnce(v: Vocabulary, events: seq<Event>, run: seq<Action>)
    ensures EachOnce(Run(v, events, run).offers)
    ensures OfferedIds(Run(v, events, run).offers) <= Ids(events)
  {
    if run != [] {
      var front, a := run[..|run| - 1], run[|run| - 1];
      var b := Run(v, events, front);
      RunOffersEachOnce(v, events, front);
      match a
      case SuggestStep(interests, now) => SuggestKeepsOnce(v, interests, events, b, now);
      case AcceptStep => AcceptKeepsOnce(b);
    }
  }

  lemma {:induction false} DistinctOffersCount(offers: seq<Offer>)
    requires EachOnce(offers)
    ensures |OfferedIds(offers)| == |offers|
  {
    if offers != [] {
      var n := |offers| - 1;
      DistinctOffersCount(offers[..n]);
      assert OfferedIds(offers) == OfferedIds(offers[..n]) + {offers[n].event};
    }
  }

  lemma {:induction false} IdsCount(events: seq<Event>)
    ensures |Ids(events)| <= |events|
  {
    if events != [] {
      var n := |events| - 1;
      IdsCount(events[..n]);
      assert Ids(events) == Ids(events[..n]) + {events[n].id};
    }
  }

  lemma SubsetIsSmaller(a: set<int>, b: set<int>)
    requires a <= b
    ensures |a| <= |b|
    ensures |a| == |b| ==> a == b
  {
    assert b == a + (b - a);
  }

  /** No event is ever offered twice, so there are never more offers than events; and once there
      are as many, every later attempt reports no match, whatever the person says they like. */
  lemma OffersNeverRepeatAndRunOut(v: Vocabulary, events: seq<Event>, run: seq<Action>, interests: seq<string>, now: Time)
    ensures EachOnce(Run(v, events, run).offers)
    ensures |Run(v, events, run).offers| <= |events|
    ensures |Run(v, events, run).offers| == |events| ==>
              Suggest(v, interests, events, Run(v, events, run), now).choice == None
  {
    var b := Run(v, events, run);
    RunOffersEachOnce(v, events, run);
    DistinctOffersCount(b.offers);
    IdsCount(events);
    SubsetIsSmaller(OfferedIds(b.offers), Ids(events));
    if |b.offers| == |events| && Suggest(v, interests, events, b, now).choice.Some? {
      SuggestionIsNew(v, interests, events, b, now);
      assert false;
    }
  }

  /** Every successful suggestion adds one offer and nothing ever removes one. */
  lemma SuccessesAreCounted(v: Vocabulary, events: seq<Event>, b: Book, a: Action)
    ensures |Step(v, events, b, a).offers|
         == |b.offers| + if a.SuggestStep? && Suggest(v, a.interests, events, b, a.now).choice.Some? then 1 else 0
    ensures forall i :: 0 <= i < |b.offers| ==> Step(v, events, b, a).offers[i].event == b.offers[i].event
  {
  }

  /** Offers are numbered in the order they were made, so the newest is the one with the highest
      number. */
  lemma {:induction false} OffersAreNumberedInOrder(v: Vocabulary, events: seq<Event>, run: seq<Action>)
    ensures var b := Run(v, events, run);
      b.nextId == |b.offers| + 1 && forall i :: 0 <= i < |b.offers| ==> b.offers[i].id == i + 1
  {
    if run != [] {
      OffersAreNumberedInOrder(v, events, run[..|run| - 1]);
    }
  }

  /** Accepting takes up the newest open offer and touches no other; with none open it does
      nothing. */
  lemma AcceptTakesTheNewestOpen(b: Book, k: nat)
    requires k < |b.offers|
    ensures |Accept(b).offers| == |b.offers| && Accept(b).nextId == b.nextId
    ensures Accept(b).offers[k] != b.offers[k] <==>
              b.offers[k].status == Offered && forall j :: k < j < |b.offers| ==> b.offers[j].status != Offered
    ensures Accept(b).offers[k] != b.offers[k] ==> Accept(b).offers[k] == b.offers[k].(status := Accepted)
  {
  }
}
