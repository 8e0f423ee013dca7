/** Events offered in the course of an interview: each at most once, and taken up only on a yes. */
module InterviewOffers {
  import opened Clock
  import opened Options
  import opened Checklist
  import opened InterviewInvariant
  import opened InterviewRuns
  import InterviewProgress
  import Suggestions

  // ----- each event once -------------------------------------------------------------------------

  predicate OffersOnce(w: World) { Suggestions.EachOnce(w.book.offers) }

  lemma AskKeepsOnce(w: World, s: int, i: int, c: Catalogue, now: Time)
    requires At(w, s, i) && OffersOnce(w)
    ensures OffersOnce(AskQuestion(w, s, i, c, now).world)
  {
    var interests := Matching.InterestList(Text.Split(w.profile.interests, ','));
    Suggestions.SuggestKeepsOnce(c.vocabulary, interests, c.events, w.book, now);
  }

  lemma SettledKeepsOnce(w: World, s: int, key: Key, status: Status, heard: string, c: Catalogue, now: Time)
    requires 0 <= s < |w.sessions| && OffersOnce(w)
    ensures var w2 := Acknowledge(w, key, status, heard);
      OffersOnce(w2) && OffersOnce(Onward(w2, s, c, now).world)
  {
    Suggestions.AcceptKeepsOnce(w.book);
    var w2 := Acknowledge(w, key, status, heard);
    if Current(w2.sessions[s].items) < |w2.sessions[s].items| {
      AskKeepsOnce(w2, s, Current(w2.sessions[s].items), c, now);
    }
  }

  lemma TurnKeepsOnce(w: World, channel: Channel, inbound: string, c: Catalogue, now: Time)
    requires OffersOnce(w)
    ensures OffersOnce(OnboardingTurn(w, channel, inbound, c, now).world)
  {
    var e := EnsureSession(w, channel, Onboarding, now);
    if e.s >= 0 {
      var items := e.world.sessions[e.s].items;
      var i := Current(items);
      if i < |items| {
        AskKeepsOnce(e.world, e.s, i, c, now);
        var (status, answer) := ReadReply(inbound);
        var r := Record(e.world, e.s, items[i].key, status, answer, now);
        if r.Saved? {
          SettledKeepsOnce(r.world, e.s, r.item.key, status, answer, c, now);
        }
      }
    }
  }

  lemma SaveKeepsOnce(w: World, channel: Channel, key: Key, status: Status, answer: string, c: Catalogue, now: Time)
    requires OffersOnce(w)
    ensures OffersOnce(SaveAnswer(w, channel, key, status, answer, c, now).world)
  {
    var e := EnsureSession(w, channel, FlowFor(w.profile), now);
    if e.s >= 0 {
      var r := Record(e.world, e.s, key, status, answer, now);
      if r.Saved? {
        SettledKeepsOnce(r.world, e.s, r.item.key, r.item.status, r.item.answer, c, now);
      }
    }
  }

  lemma NextQuestionKeepsOnce(w: World, channel: Channel, c: Catalogue, now: Time)
    requires OffersOnce(w)
    ensures OffersOnce(NextQuestion(w, channel, c, now).world)
  {
    var e := EnsureSession(w, channel, FlowFor(w.profile), now);
    if e.s >= 0 && !AllSettled(e.world.sessions[e.s]) {
      AskKeepsOnce(e.world, e.s, Current(e.world.sessions[e.s].items), c, now);
    }
  }

  lemma ReplyKeepsOnce(w: World, inbound: string, c: Catalogue, now: Time)
    requires OffersOnce(w)
    ensures OffersOnce(Reply(w, inbound, c, now).world)
  {
    if !w.profile.Onboarded() {
      TurnKeepsOnce(w, Sms, inbound, c, now);
    }
  }

  lemma StepKeepsOnce(w: World, step: Step)
    requires OffersOnce(w)
    ensures OffersOnce(Do(w, step))
  {
    match step
    case TurnStep(channel, inbound, c, now) =>
      TurnKeepsOnce(w, channel, inbound, c, now);
    case ReplyStep(inbound, c, now) =>
      ReplyKeepsOnce(w, inbound, c, now);
    case NextQuestionStep(channel, c, now) =>
      NextQuestionKeepsOnce(w, channel, c, now);
    case SaveAnswerStep(channel, key, status, answer, c, now) =>
      SaveKeepsOnce(w, channel, key, status, answer, c, now);
    case SuggestStep(c, now) =>
      var interests := Matching.InterestList(Text.Split(w.profile.interests, ','));
      Suggestions.SuggestKeepsOnce(c.vocabulary, interests, c.events, w.book, now);
    case AcceptStep(_) =>
      Suggestions.AcceptKeepsOnce(w.book);
    case _ =>
  }

  /** Over any run, whatever the catalogues and on however many channels the offer question is
      asked, no event is offered to the same person twice. */
  lemma {:induction false} NoEventIsOfferedTwice(w: World, run: seq<Step>)
    requires OffersOnce(w)
    ensures OffersOnce(RunFrom(w, run))
  {
    if run != [] {
      NoEventIsOfferedTwice(w, run[..|run| - 1]);
      StepKeepsOnce(RunFrom(w, run[..|run| - 1]), run[|run| - 1]);
    }
  }

  // ----- taken up only on a yes ------------------------------------------------------------------

  /** The question on the table is the event offer, and it has been put. */
  predicate OfferIsPut(e: Ensured)
    requires -1 <= e.s < |e.world.sessions|
  {
    && e.s >= 0
    && var items := e.world.sessions[e.s].items;
       Current(items) < |items| && items[Current(items)].key.EventOffer? && items[Current(items)].Asked()
  }

  predicate ClearYes(inbound: string) {
    ReadReply(inbound).0.Answered? && Replies.IsYes(ReadReply(inbound).1)
  }

  /** A clear yes to the event offer is saved by the agent. */
  predicate SavesYes(w: World, channel: Channel, key: Key, status: Status, answer: string, now: Time) {
    && key.EventOffer? && status.Answered? && Replies.IsYes(Text.TrimSpace(answer))
    && var e := EnsureSession(w, channel, FlowFor(w.profile), now);
       e.s >= 0 && Record(e.world, e.s, key, status, answer, now).Saved?
  }

  /** In this step the person clearly says yes to the event offer. */
  predicate SaysYes(w: World, step: Step) {
    match step
    case TurnStep(channel, inbound, _, now) =>
      !w.profile.Onboarded() && OfferIsPut(EnsureSession(w, channel, Onboarding, now)) && ClearYes(inbound)
    case ReplyStep(inbound, _, now) =>
      !w.profile.Onboarded() && OfferIsPut(EnsureSession(w, Sms, Onboarding, now)) && ClearYes(inbound)
    case SaveAnswerStep(channel, key, status, answer, _, now) =>
      SavesYes(w, channel, key, status, answer, now)
    case _ => false
  }

  /** The offers are those there were, and perhaps more. */
  predicate BookGrows(b: Suggestions.Book, b': Suggestions.Book) {
    |b.offers| <= |b'.offers| && b'.offers[..|b.offers|] == b.offers
  }

  lemma AskingOnlyAdds(w: World, s: int, i: int, c: Catalogue, now: Time)
    requires At(w, s, i)
    ensures BookGrows(w.book, AskQuestion(w, s, i, c, now).world.book)
  {
  }

  lemma OnwardOnlyAdds(w: World, s: int, c: Catalogue, now: Time)
    requires 0 <= s < |w.sessions|
    ensures BookGrows(w.book, Onward(w, s, c, now).world.book)
  {
    if Current(w.sessions[s].items) < |w.sessions[s].items| {
      AskingOnlyAdds(w, s, Current(w.sessions[s].items), c, now);
    }
  }

  lemma TurnOnlyAdds(w: World, channel: Channel, inbound: string, c: Catalogue, now: Time)
    requires !(OfferIsPut(EnsureSession(w, channel, Onboarding, now)) && ClearYes(inbound))
    ensures BookGrows(w.book, OnboardingTurn(w, channel, inbound, c, now).world.book)
  {
    var e := EnsureSession(w, channel, Onboarding, now);
    if e.s >= 0 {
      var items := e.world.sessions[e.s].items;
      var i := Current(items);
      if i < |items| {
        AskingOnlyAdds(e.world, e.s, i, c, now);
        var (status, answer) := ReadReply(inbound);
        var r := Record(e.world, e.s, items[i].key, status, answer, now);
        if r.Saved? {
          OnwardOnlyAdds(Acknowledge(r.world, r.item.key, status, answer), e.s, c, now);
        }
      }
    }
  }

  lemma AfterSaveOnlyAdds(w: World, s: int, it: Item, c: Catalogue, now: Time)
    requires 0 <= s < |w.sessions|
    requires !(it.key.EventOffer? && it.status.Answered? && Replies.IsYes(it.answer))
    ensures BookGrows(w.book, AfterSave(w, s, it, c, now).world.book)
  {
    OnwardOnlyAdds(w, s, c, now);
  }

  lemma SavedOnlyAdds(w: World, s: int, key: Key, status: Status, answer: string, c: Catalogue, now: Time)
    requires 0 <= s < |w.sessions| && Record(w, s, key, status, answer, now).Saved?
    requires !(key.EventOffer? && status.Answered? && Replies.IsYes(Text.TrimSpace(answer)))
    ensures var r := Record(w, s, key, status, answer, now);
      s < |r.world.sessions| && BookGrows(w.book, AfterSave(r.world, s, r.item, c, now).world.book)
  {
    var r := Record(w, s, key, status, answer, now);
    assert r.item.answer == Text.TrimSpace(answer);
    AfterSaveOnlyAdds(r.world, s, r.item, c, now);
  }

  lemma SaveOnlyAdds(w: World, channel: Channel, key: Key, status: Status, answer: string, c: Catalogue, now: Time)
    requires !SavesYes(w, channel, key, status, answer, now)
    ensures BookGrows(w.book, SaveAnswer(w, channel, key, status, answer, c, now).world.book)
  {
    var e := EnsureSession(w, channel, FlowFor(w.profile), now);
    SaveAnswerIs(w, channel, key, status, answer, c, now);
    if e.s >= 0 && Record(e.world, e.s, key, status, answer, now).Saved? {
      SavedOnlyAdds(e.world, e.s, key, status, answer, c, now);
    }
  }

  lemma ReplyOnlyAdds(w: World, inbound: string, c: Catalogue, now: Time)
    requires !SaysYes(w, ReplyStep(inbound, c, now))
    ensures BookGrows(w.book, Reply(w, inbound, c, now).world.book)
  {
    if !w.profile.Onboarded() {
      TurnOnlyAdds(w, Sms, inbound, c, now);
    }
  }

  lemma SuggestOnlyAdds(w: World, c: Catalogue, interests: seq<string>, now: Time)
    ensures BookGrows(w.book, Suggestions.Suggest(c.vocabulary, interests, c.events, w.book, now).book)
  {
  }

  lemma NextQuestionOnlyAdds(w: World, channel: Channel, c: Catalogue, now: Time)
    ensures BookGrows(w.book, NextQuestion(w, channel, c, now).world.book)
  {
    var e := EnsureSession(w, channel, FlowFor(w.profile), now);
    if e.s >= 0 && !AllSettled(e.world.sessions[e.s]) {
      AskingOnlyAdds(e.world, e.s, Current(e.world.sessions[e.s].items), c, now);
    }
  }

  /** An offer is only ever taken up by the model's own tool or by a step in which the person
      clearly said yes to the event offer; every other step, a yes to anything else included, leaves
      all offers as they were. */
  lemma OffersAreTakenOnlyOnAYes(w: World, step: Step)
    requires !step.AcceptStep? && !SaysYes(w, step)
    ensures BookGrows(w.book, Do(w, step).book)
  {
    match step
    case TurnStep(channel, inbound, c, now) =>
      if !w.profile.Onboarded() {
        TurnOnlyAdds(w, channel, inbound, c, now);
      }
    case ReplyStep(inbound, c, now) =>
      ReplyOnlyAdds(w, inbound, c, now);
    case NextQuestionStep(channel, c, now) =>
      NextQuestionOnlyAdds(w, channel, c, now);
    case SaveAnswerStep(channel, key, status, answer, c, now) =>
      SaveOnlyAdds(w, channel, key, status, answer, c, now);
    case SuggestStep(c, now) =>
      SuggestOnlyAdds(w, c, Matching.InterestList(Text.Split(w.profile.interests, ',')), now);
    case _ =>
  }

  /** Asking for the offer question again offers another event: the words change whenever there is
      anything left to offer, and the earlier offer stays open. */
  lemma PollingOffersAnotherEvent(w: World, s: int, i: int, c: Catalogue, now: Time)
    requires At(w, s, i) && Dynamic(w.sessions[s].items[i].key)
    requires w.sessions[s].items[i].prompt.Offering?
    requires w.sessions[s].items[i].prompt.event in Offered(w)
    ensures AskQuestion(w, s, i, c, now).prompt != w.sessions[s].items[i].prompt
    ensures w.book.offers <= AskQuestion(w, s, i, c, now).world.book.offers
  {
    var interests := Matching.InterestList(Text.Split(w.profile.interests, ','));
    if Suggestions.Suggest(c.vocabulary, interests, c.events, w.book, now).choice.Some? {
      Suggestions.SuggestionIsNew(c.vocabulary, interests, c.events, w.book, now);
    }
  }

  // ----- what a yes takes up ---------------------------------------------------------------------

  /** An offer for event `e` that was open is taken up. */
  predicate TakesUp(b: Suggestions.Book, b': Suggestions.Book, e: int) {
    exists k :: 0 <= k < |b.offers| && k < |b'.offers| && b.offers[k].event == e
      && b.offers[k].status.Offered? && b'.offers[k].status.Accepted?
  }

  /** The newest open offer is for event `e`. */
  predicate NewestOpenIs(b: Suggestions.Book, e: int) {
    var i := Suggestions.OpenOffer(b.offers);
    i >= 0 && b.offers[i].event == e
  }

  /** A yes to the offer is always usable. */
  lemma YesIsSaved(w: World, s: int, answer: string, now: Time)
    requires 0 <= s < |w.sessions| && Current(w.sessions[s].items) < |w.sessions[s].items|
    requires w.sessions[s].items[Current(w.sessions[s].items)].key.EventOffer?
    requires Text.TrimSpace(answer) != ""
    ensures Record(w, s, EventOffer, Answered, answer, now).Saved?
  {
  }

  lemma SavedYesAccepts(w: World, s: int, answer: string, said: string, c: Catalogue, now: Time)
    requires 0 <= s < |w.sessions| && Record(w, s, EventOffer, Answered, answer, now).Saved? && Replies.IsYes(said)
    ensures var w1 := Record(w, s, EventOffer, Answered, answer, now).world;
      var w2 := Acknowledge(w1, EventOffer, Answered, said);
      && s < |w2.sessions| && w2.book == Suggestions.Accept(w.book)
      && BookGrows(w2.book, Onward(w2, s, c, now).world.book)
  {
    var w1 := Record(w, s, EventOffer, Answered, answer, now).world;
    OnwardOnlyAdds(Acknowledge(w1, EventOffer, Answered, said), s, c, now);
  }

  lemma TurnYesAccepts(w: World, channel: Channel, inbound: string, c: Catalogue, now: Time)
    requires OfferIsPut(EnsureSession(w, channel, Onboarding, now)) && ClearYes(inbound)
    ensures BookGrows(Suggestions.Accept(w.book), OnboardingTurn(w, channel, inbound, c, now).world.book)
  {
    var e := EnsureSession(w, channel, Onboarding, now);
    InterviewProgress.TrimTwice(inbound);
    var answer := ReadReply(inbound).1;
    YesIsSaved(e.world, e.s, answer, now);
    SavedYesAccepts(e.world, e.s, answer, answer, c, now);
  }

  lemma ToolYesAccepts(w: World, channel: Channel, answer: string, c: Catalogue, now: Time)
    requires SavesYes(w, channel, EventOffer, Answered, answer, now)
    requires !w.profile.Onboarded()
    ensures BookGrows(Suggestions.Accept(w.book), SaveAnswer(w, channel, EventOffer, Answered, answer, c, now).world.book)
  {
    var e := EnsureSession(w, channel, Onboarding, now);
    SavedYesAccepts(e.world, e.s, answer, Text.TrimSpace(answer), c, now);
    SaveAnswerIs(w, channel, EventOffer, Answered, answer, c, now);
  }

  lemma CheckinsDoNotOffer(w: World, s: int, i: int)
    requires Inv(w) && ItemAt(w, s, i) && w.sessions[s].flow.Checkin?
    ensures !w.sessions[s].items[i].key.EventOffer?
  {
    assert SessionSound(w.sessions[s], Offered(w));
    assert w.sessions[s].items[i].key == CHECKIN_TEMPLATE[i];
  }

  /** Whoever says yes to the offer is still being introduced. */
  lemma OnlyIntroductionsOffer(w: World, step: Step)
    requires Inv(w) && SaysYes(w, step)
    ensures !w.profile.Onboarded()
  {
    if step.SaveAnswerStep? && w.profile.Onboarded() {
      var e := EnsureSession(w, step.channel, Checkin, step.now);
      EnsureKeeps(w, step.channel, step.now);
      CheckinsDoNotOffer(e.world, e.s, Current(e.world.sessions[e.s].items));
    }
  }

  lemma YesAccepts(w: World, step: Step)
    requires Inv(w) && SaysYes(w, step)
    ensures BookGrows(Suggestions.Accept(w.book), Do(w, step).book)
  {
    OnlyIntroductionsOffer(w, step);
    match step
    case TurnStep(channel, inbound, c, now) => TurnYesAccepts(w, channel, inbound, c, now);
    case ReplyStep(inbound, c, now) => TurnYesAccepts(w, Sms, inbound, c, now);
    case SaveAnswerStep(channel, _, _, answer, c, now) => ToolYesAccepts(w, channel, answer, c, now);
  }

  /** With each event offered once, accepting takes up an event's offer exactly when that is the
      newest open one. */
  lemma AcceptTakesUpExactlyWhen(b: Suggestions.Book, b': Suggestions.Book, e: int)
    requires Suggestions.EachOnce(b.offers) && BookGrows(Suggestions.Accept(b), b')
    ensures TakesUp(b, b', e) <==> NewestOpenIs(b, e)
  {
    var i := Suggestions.OpenOffer(b.offers);
    var after := Suggestions.Accept(b).offers;
    assert |after| == |b.offers|;
    forall k | 0 <= k < |b.offers| ensures b'.offers[k] == after[k] {
      assert b'.offers[..|after|][k] == b'.offers[k];
    }
    if NewestOpenIs(b, e) {
      assert b.offers[i].event == e && b.offers[i].status.Offered? && b'.offers[i].status.Accepted?;
    }
  }

  /** In every reachable state, a clear yes takes up the event the person was shown exactly when the
      newest open offer is for that event. */
  lemma YesTakesWhatWasShownExactlyWhen(w: World, step: Step, shown: int)
    requires Inv(w) && OffersOnce(w) && SaysYes(w, step)
    ensures TakesUp(w.book, Do(w, step).book, shown) <==> NewestOpenIs(w.book, shown)
  {
    YesAccepts(w, step);
    AcceptTakesUpExactlyWhen(w.book, Do(w, step).book, shown);
  }
}
