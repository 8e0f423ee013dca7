/** What every step of an interview keeps. */
module InterviewInvariant {
  import opened Clock
  import opened Options
  import opened Checklist
  import Suggestions

  // ----- what holds of every session -------------------------------------------------------------

  predicate ItemSound(it: Item, offered: set<int>) {
    && (it.Settled() <==> it.answeredAt.Some?)
    && (it.status.Answered? ==> it.answer != "")
    && (it.Asked() ==> it.prompt != Blank)
    && (!Dynamic(it.key) ==> it.prompt == Fixed(it.key))
    && (it.prompt.Offering? ==> it.prompt.event in offered)
  }

  predicate FollowsTemplate(s: Session) {
    && !s.channel.UnknownChannel?
    && |s.items| == |Template(s.flow)|
    && forall i :: 0 <= i < |s.items| ==> s.items[i].key == Template(s.flow)[i]
  }

  /** A question that was asked and is not settled is the one on the table. */
  predicate OneOnTheTable(items: seq<Item>) {
    forall i :: 0 <= i < |items| && items[i].Asked() && !items[i].Settled() ==> i == Current(items)
  }

  predicate SessionSound(s: Session, offered: set<int>) {
    && FollowsTemplate(s)
    && (forall i :: 0 <= i < |s.items| ==> ItemSound(s.items[i], offered))
    && OneOnTheTable(s.items)
    && (s.flow.Onboarding? && s.items[3].Settled() ==> s.items[0].Settled())
  }

  predicate AllSettled(s: Session) { Current(s.items) == |s.items| }

  /** An introduction is open exactly while a question is; only the introduced have check-ins, and
      those never close. */
  predicate SessionLive(s: Session, onboarded: bool) {
    match s.flow
    case Onboarding => (s.open <==> !AllSettled(s)) && (!s.open ==> onboarded)
    case Checkin => s.open && onboarded
  }

  predicate Unique(sessions: seq<Session>) {
    forall s, t :: 0 <= s < t < |sessions| ==>
      !(sessions[s].channel == sessions[t].channel && sessions[s].flow == sessions[t].flow)
  }

  function Offered(w: World): set<int> { Suggestions.OfferedIds(w.book.offers) }

  predicate Sound(w: World) {
    && Unique(w.sessions)
    && forall s :: 0 <= s < |w.sessions| ==> SessionSound(w.sessions[s], Offered(w))
  }

  predicate Live(w: World) {
    forall s :: 0 <= s < |w.sessions| ==> SessionLive(w.sessions[s], w.profile.Onboarded())
  }

  predicate Inv(w: World) { Sound(w) && Live(w) }

  // ----- what a step may change ------------------------------------------------------------------

  predicate ItemExtends(a: Item, b: Item) {
    && a.key == b.key
    && (a.Settled() ==> b == a)
    && (a.Asked() ==> b.askedAt == a.askedAt)
  }

  predicate SessionExtends(a: Session, b: Session) {
    && a.channel == b.channel && a.flow == b.flow
    && (!a.open ==> !b.open)
    && |a.items| == |b.items|
    && forall i :: 0 <= i < |a.items| ==> ItemExtends(a.items[i], b.items[i])
  }

  /** Whatever is newly settled had everything before it settled already. */
  predicate InOrder(a: seq<Item>, b: seq<Item>)
    requires |a| == |b|
  {
    forall i, j :: 0 <= j < i < |a| && !a[i].Settled() && b[i].Settled() ==> a[j].Settled()
  }

  predicate Extends(a: World, b: World) {
    && |a.sessions| <= |b.sessions|
    && (forall s :: 0 <= s < |a.sessions| ==> SessionExtends(a.sessions[s], b.sessions[s]))
    && (a.profile.Onboarded() ==> b.profile.onboardedAt == a.profile.onboardedAt)
    && Offered(a) <= Offered(b)
  }

  predicate StepsInOrder(a: World, b: World)
    requires Extends(a, b)
  {
    forall s :: 0 <= s < |a.sessions| ==> InOrder(a.sessions[s].items, b.sessions[s].items)
  }

  lemma ExtendsTransitive(a: World, b: World, c: World)
    requires Extends(a, b) && Extends(b, c)
    ensures Extends(a, c)
  {
    forall s | 0 <= s < |a.sessions| ensures SessionExtends(a.sessions[s], c.sessions[s]) {
      var x, y, z := a.sessions[s], b.sessions[s], c.sessions[s];
      forall i | 0 <= i < |x.items| ensures ItemExtends(x.items[i], z.items[i]) {
        assert ItemExtends(x.items[i], y.items[i]) && ItemExtends(y.items[i], z.items[i]);
      }
    }
  }

  lemma ExtendsReflexive(a: World)
    ensures Extends(a, a) && StepsInOrder(a, a)
  {
  }

  lemma CurrentIs(items: seq<Item>, i: nat)
    requires i <= |items| && forall k :: 0 <= k < i ==> items[k].Settled()
    requires i < |items| ==> !items[i].Settled()
    ensures Current(items) == i
  {
  }

  // ----- creating a session ----------------------------------------------------------------------

  lemma StartItemSound(key: Key, w: World, now: Time)
    ensures ItemSound(StartItem(key, w, now), Offered(w))
    ensures !StartItem(key, w, now).Asked()
    ensures key.EventOffer? ==> !StartItem(key, w, now).Settled()
  {
  }

  lemma FreshSessionSound(channel: Channel, w: World, now: Time)
    requires !channel.UnknownChannel?
    ensures var flow := FlowFor(w.profile);
      var s := Session(channel, flow, true, StartItems(Template(flow), w, now));
      SessionSound(s, Offered(w)) && SessionLive(s, w.profile.Onboarded())
  {
    var flow := FlowFor(w.profile);
    var s := Session(channel, flow, true, StartItems(Template(flow), w, now));
    forall i | 0 <= i < |s.items| ensures ItemSound(s.items[i], Offered(w)) && !s.items[i].Asked() {
      StartItemSound(Template(flow)[i], w, now);
    }
    if flow.Onboarding? {
      StartItemSound(Template(flow)[3], w, now);
      assert !s.items[3].Settled();
    }
  }

  /** The flow a person is in has no session on a channel where it has no open one. */
  lemma NoneOpenIsNone(w: World, channel: Channel, s: int)
    requires Live(w) && FindOpen(w.sessions, channel, FlowFor(w.profile)) < 0 && 0 <= s < |w.sessions|
    ensures !(w.sessions[s].channel == channel && w.sessions[s].flow == FlowFor(w.profile))
  {
    assert SessionLive(w.sessions[s], w.profile.Onboarded());
  }

  lemma AppendKeeps(w: World, created: Session)
    requires Inv(w) && SessionSound(created, Offered(w)) && SessionLive(created, w.profile.Onboarded())
    requires forall s :: 0 <= s < |w.sessions| ==>
               !(w.sessions[s].channel == created.channel && w.sessions[s].flow == created.flow)
    ensures var w' := w.(sessions := w.sessions + [created]);
      Inv(w') && Extends(w, w') && StepsInOrder(w, w')
  {
    var w' := w.(sessions := w.sessions + [created]);
    forall s | 0 <= s < |w'.sessions|
      ensures SessionSound(w'.sessions[s], Offered(w')) && SessionLive(w'.sessions[s], w'.profile.Onboarded())
      ensures s < |w.sessions| ==> w'.sessions[s] == w.sessions[s]
    {
    }
    ExtendsReflexive(w);
  }

  lemma EnsureKeeps(w: World, channel: Channel, now: Time)
    requires Inv(w)
    ensures var e := EnsureSession(w, channel, FlowFor(w.profile), now);
      Inv(e.world) && Extends(w, e.world) && StepsInOrder(w, e.world)
      && e.world.profile == w.profile && e.world.book == w.book
      && w.sessions <= e.world.sessions
  {
    var flow := FlowFor(w.profile);
    ExtendsReflexive(w);
    if !channel.UnknownChannel? && FindOpen(w.sessions, channel, flow) < 0 {
      FreshSessionSound(channel, w, now);
      forall s | 0 <= s < |w.sessions|
        ensures !(w.sessions[s].channel == channel && w.sessions[s].flow == flow)
      {
        NoneOpenIsNone(w, channel, s);
      }
      AppendKeeps(w, Session(channel, flow, true, StartItems(Template(flow), w, now)));
    }
  }

  // ----- asking ----------------------------------------------------------------------------------

  /** `b` is `a` with the current item asked, and perhaps worded anew. */
  predicate AsksCurrent(a: Session, b: Session, now: Time) {
    var i := Current(a.items);
    && i < |a.items| == |b.items|
    && b == a.(items := a.items[i := b.items[i]])
    && b.items[i] == a.items[i].(prompt := b.items[i].prompt,
                                 askedAt := if a.items[i].Asked() then a.items[i].askedAt else Some(now))
  }

  lemma AskedRows(a: Session, b: Session, k: int, before: set<int>, offered: set<int>, now: Time)
    requires AsksCurrent(a, b, now) && before <= offered && 0 <= k < |a.items|
    requires ItemSound(a.items[k], before) && ItemSound(b.items[Current(a.items)], offered)
    ensures ItemSound(b.items[k], offered) && ItemExtends(a.items[k], b.items[k])
    ensures b.items[k].status == a.items[k].status && b.items[k].key == a.items[k].key
    ensures k != Current(a.items) ==> b.items[k] == a.items[k]
  {
  }

  lemma AskingKeepsSession(a: Session, b: Session, before: set<int>, offered: set<int>, now: Time)
    requires SessionSound(a, before) && before <= offered
    requires AsksCurrent(a, b, now)
    requires ItemSound(b.items[Current(a.items)], offered)
    ensures SessionSound(b, offered) && SessionExtends(a, b) && InOrder(a.items, b.items)
    ensures Current(b.items) == Current(a.items)
    ensures forall onboarded :: SessionLive(a, onboarded) ==> SessionLive(b, onboarded)
  {
    forall k | 0 <= k < |a.items|
      ensures ItemSound(b.items[k], offered) && ItemExtends(a.items[k], b.items[k])
      ensures b.items[k].status == a.items[k].status && b.items[k].key == a.items[k].key
      ensures k != Current(a.items) ==> b.items[k] == a.items[k]
    {
      AskedRows(a, b, k, before, offered, now);
    }
    CurrentIs(b.items, Current(a.items));
  }

  lemma WordingKeepsOffers(w: World, c: Catalogue, interests: seq<string>, now: Time)
    ensures var t := Suggestions.Suggest(c.vocabulary, interests, c.events, w.book, now);
      && Offered(w) <= Suggestions.OfferedIds(t.book.offers)
      && (t.choice.Some? ==> t.choice.value.event.id in Suggestions.OfferedIds(t.book.offers))
  {
    var t := Suggestions.Suggest(c.vocabulary, interests, c.events, w.book, now);
    if t.choice.Some? {
      var n := |w.book.offers|;
      assert t.book.offers[n].event == t.choice.value.event.id;
      assert forall i :: 0 <= i < n ==> t.book.offers[i] == w.book.offers[i];
    }
  }

  /** Replacing one session by a sound successor keeps the rest. */
  lemma ReplaceKeeps(w: World, s: int, w': World)
    requires Sound(w) && 0 <= s < |w.sessions| && |w'.sessions| == |w.sessions|
    requires w'.sessions == w.sessions[s := w'.sessions[s]]
    requires Offered(w) <= Offered(w')
    requires SessionSound(w'.sessions[s], Offered(w')) && SessionExtends(w.sessions[s], w'.sessions[s])
    requires InOrder(w.sessions[s].items, w'.sessions[s].items)
    requires w.profile.Onboarded() ==> w'.profile.onboardedAt == w.profile.onboardedAt
    ensures Sound(w') && Extends(w, w') && StepsInOrder(w, w')
  {
    forall t | 0 <= t < |w.sessions| && t != s ensures SessionSound(w'.sessions[t], Offered(w')) {
      assert w'.sessions[t] == w.sessions[t];
      assert SessionSound(w.sessions[t], Offered(w));
    }
  }

  lemma LiveAfterReplace(w: World, s: int, w': World)
    requires Live(w) && 0 <= s < |w.sessions| && |w'.sessions| == |w.sessions|
    requires w'.sessions == w.sessions[s := w'.sessions[s]]
    requires w.profile.Onboarded() ==> w'.profile.Onboarded()
    requires SessionLive(w'.sessions[s], w'.profile.Onboarded())
    ensures Live(w')
  {
    forall t | 0 <= t < |w.sessions| && t != s ensures SessionLive(w'.sessions[t], w'.profile.Onboarded()) {
      assert SessionLive(w.sessions[t], w.profile.Onboarded());
    }
  }

  lemma AskKeeps(w: World, s: int, c: Catalogue, now: Time)
    requires Inv(w) && 0 <= s < |w.sessions| && !AllSettled(w.sessions[s])
    ensures var a := AskQuestion(w, s, Current(w.sessions[s].items), c, now);
      && Inv(a.world) && Extends(w, a.world) && StepsInOrder(w, a.world)
      && a.world.profile == w.profile && |a.world.sessions| == |w.sessions|
      && a.world.sessions == w.sessions[s := a.world.sessions[s]]
      && AsksCurrent(w.sessions[s], a.world.sessions[s], now)
      && a.prompt != Blank
      && a.world.sessions[s].items[Current(w.sessions[s].items)].prompt == a.prompt
  {
    var i := Current(w.sessions[s].items);
    var it := w.sessions[s].items[i];
    var a := AskQuestion(w, s, i, c, now);
    assert ItemSound(it, Offered(w));
    var interests := Matching.InterestList(Text.Split(w.profile.interests, ','));
    WordingKeepsOffers(w, c, interests, now);
    AskingKeepsSession(w.sessions[s], a.world.sessions[s], Offered(w), Offered(a.world), now);
    ReplaceKeeps(w, s, a.world);
    LiveAfterReplace(w, s, a.world);
  }

  lemma MarkAskedKeeps(w: World, s: int, now: Time)
    requires Inv(w) && 0 <= s < |w.sessions| && !AllSettled(w.sessions[s]) && w.sessions[s].flow.Checkin?
    ensures var w' := MarkAsked(w, s, Current(w.sessions[s].items), now);
      && Inv(w') && Extends(w, w') && StepsInOrder(w, w')
      && w'.sessions == w.sessions[s := w'.sessions[s]]
      && AsksCurrent(w.sessions[s], w'.sessions[s], now)
  {
    var i := Current(w.sessions[s].items);
    var w' := MarkAsked(w, s, i, now);
    assert ItemSound(w.sessions[s].items[i], Offered(w));
    AskingKeepsSession(w.sessions[s], w'.sessions[s], Offered(w), Offered(w'), now);
    ReplaceKeeps(w, s, w');
    LiveAfterReplace(w, s, w');
  }

  // ----- settling --------------------------------------------------------------------------------

  /** `b` is `a` with the current item settled. */
  predicate SettlesCurrent(a: Session, b: Session) {
    var i := Current(a.items);
    && i < |a.items| == |b.items|
    && b == a.(items := a.items[i := b.items[i]])
    && b.items[i].Settled()
    && b.items[i] == a.items[i].(status := b.items[i].status, answer := b.items[i].answer,
                                 source := b.items[i].source, answeredAt := b.items[i].answeredAt)
  }

  lemma SettlingMovesOn(a: Session, b: Session)
    requires SettlesCurrent(a, b)
    ensures Current(b.items) > Current(a.items)
  {
    var i := Current(a.items);
    assert forall k :: 0 <= k < i ==> b.items[k] == a.items[k];
  }

  /** Nothing is on the table once the current question is settled. */
  lemma NothingElseAsked(a: Session, b: Session, k: int)
    requires OneOnTheTable(a.items) && SettlesCurrent(a, b)
    requires 0 <= k < |b.items| && !b.items[k].Settled()
    ensures !b.items[k].Asked()
  {
    assert k != Current(a.items) && a.items[k] == b.items[k];
  }

  lemma SettlingKeepsSession(a: Session, b: Session, offered: set<int>)
    requires SessionSound(a, offered) && SettlesCurrent(a, b)
    requires ItemSound(b.items[Current(a.items)], offered)
    ensures SessionSound(b, offered) && SessionExtends(a, b) && InOrder(a.items, b.items)
    ensures Current(b.items) > Current(a.items)
  {
    var i := Current(a.items);
    SettlingMovesOn(a, b);
    forall k | 0 <= k < |b.items|
      ensures ItemSound(b.items[k], offered) && ItemExtends(a.items[k], b.items[k])
      ensures b.items[k].key == a.items[k].key
    {
      assert k != i ==> b.items[k] == a.items[k];
      assert ItemSound(a.items[k], offered);
    }
    assert OneOnTheTable(b.items) by {
      forall k | 0 <= k < |b.items| && !b.items[k].Settled() ensures !b.items[k].Asked() {
        NothingElseAsked(a, b, k);
      }
    }
  }

  lemma SettlingKeepsAll(w: World, s: int, w': World)
    requires Inv(w) && 0 <= s < |w.sessions| == |w'.sessions| && w'.sessions == w.sessions[s := w'.sessions[s]]
    requires w'.profile.onboardedAt == w.profile.onboardedAt && w'.book == w.book
    requires SettlesCurrent(w.sessions[s], w'.sessions[s])
    requires ItemSound(w'.sessions[s].items[Current(w.sessions[s].items)], Offered(w))
    ensures Sound(w') && Extends(w, w') && StepsInOrder(w, w')
    ensures Current(w'.sessions[s].items) > Current(w.sessions[s].items)
    ensures w.sessions[s].flow.Checkin? || !AllSettled(w'.sessions[s]) ==> Live(w')
  {
    assert SessionLive(w.sessions[s], w.profile.Onboarded());
    SettlingKeepsSession(w.sessions[s], w'.sessions[s], Offered(w));
    ReplaceKeeps(w, s, w');
    if w.sessions[s].flow.Checkin? || !AllSettled(w'.sessions[s]) {
      LiveAfterReplace(w, s, w');
    }
  }

  /** A saved answer settles the current item of its session and nothing else; the session may be
      complete now, and is otherwise as live as it was. */
  lemma RecordKeeps(w: World, s: int, key: Key, status: Status, answer: string, now: Time)
    requires Inv(w) && 0 <= s < |w.sessions|
    requires Record(w, s, key, status, answer, now).Saved?
    ensures var r := Record(w, s, key, status, answer, now);
      && Sound(r.world) && Extends(w, r.world) && StepsInOrder(w, r.world)
      && r.world.profile.onboardedAt == w.profile.onboardedAt && r.world.book == w.book
      && r.world.sessions == w.sessions[s := r.world.sessions[s]]
      && SettlesCurrent(w.sessions[s], r.world.sessions[s])
      && Current(r.world.sessions[s].items) > Current(w.sessions[s].items)
      && r.item == r.world.sessions[s].items[Current(w.sessions[s].items)]
      && r.item.key == key
      && (w.sessions[s].flow.Checkin? || !AllSettled(r.world.sessions[s]) ==> Live(r.world))
  {
    var r := Record(w, s, key, status, answer, now);
    var items := w.sessions[s].items;
    assert ItemSound(items[Current(items)], Offered(w));
    SettlingKeepsAll(w, s, r.world);
  }

  lemma AcceptKeepsIds(b: Suggestions.Book)
    ensures Suggestions.OfferedIds(Suggestions.Accept(b).offers) == Suggestions.OfferedIds(b.offers)
  {
    var after := Suggestions.Accept(b).offers;
    assert |after| == |b.offers|;
    assert forall i :: 0 <= i < |after| ==> after[i].event == b.offers[i].event;
  }

  /** Taking up an offer leaves sessions and profile alone and drops no suggestion. */
  lemma AcknowledgeKeeps(w: World, key: Key, status: Status, answer: string)
    ensures var w' := Acknowledge(w, key, status, answer);
      w'.sessions == w.sessions && w'.profile == w.profile && Offered(w') == Offered(w)
  {
    AcceptKeepsIds(w.book);
  }

  lemma FinishKeeps(w: World, s: int, now: Time)
    requires Sound(w) && 0 <= s < |w.sessions| && w.sessions[s].flow.Onboarding? && AllSettled(w.sessions[s])
    requires forall t :: 0 <= t < |w.sessions| && t != s ==> SessionLive(w.sessions[t], w.profile.Onboarded())
    ensures var w' := FinishOnboarding(w, s, now);
      && Inv(w') && Extends(w, w') && StepsInOrder(w, w') && w'.profile.Onboarded()
      && w'.sessions == w.sessions[s := w'.sessions[s]]
      && w'.sessions[s] == w.sessions[s].(open := false)
  {
    var w' := FinishOnboarding(w, s, now);
    assert SessionSound(w.sessions[s], Offered(w));
    ReplaceKeeps(w, s, w');
  }

  // ----- composite -------------------------------------------------------------------------------

  /** From a saved answer to the end of the turn: the next question is asked, or the introduction
      ends. */
  lemma OnwardKeeps(w: World, s: int, c: Catalogue, now: Time)
    requires Sound(w) && 0 <= s < |w.sessions|
    requires AllSettled(w.sessions[s]) ==> w.sessions[s].flow.Onboarding?
    requires !AllSettled(w.sessions[s]) ==> Live(w)
    requires forall t :: 0 <= t < |w.sessions| && t != s ==> SessionLive(w.sessions[t], w.profile.Onboarded())
    ensures var w' := Onward(w, s, c, now).world;
      && Inv(w') && Extends(w, w') && StepsInOrder(w, w')
      && w'.sessions == w.sessions[s := w'.sessions[s]]
      && (AllSettled(w.sessions[s]) ==> w'.sessions[s] == w.sessions[s].(open := false) && w'.profile.Onboarded())
      && (!AllSettled(w.sessions[s]) ==> AsksCurrent(w.sessions[s], w'.sessions[s], now) && w'.profile == w.profile)
  {
    if AllSettled(w.sessions[s]) {
      FinishKeeps(w, s, now);
    } else {
      AskKeeps(w, s, c, now);
    }
  }

  /** With a question of session `s` settled in `w2`, the turn ends well in `w3`. */
  predicate SettledOn(w: World, s: int, w2: World, w3: World, now: Time) {
    && 0 <= s < |w.sessions| == |w2.sessions| && |w3.sessions| == |w.sessions|
    && Inv(w3) && Extends(w, w3) && StepsInOrder(w, w3)
    && w3.sessions == w.sessions[s := w3.sessions[s]]
    && (AllSettled(w2.sessions[s]) ==> w3.sessions[s] == w2.sessions[s].(open := false) && w3.profile.Onboarded())
    && (!AllSettled(w2.sessions[s]) ==> AsksCurrent(w2.sessions[s], w3.sessions[s], now))
  }

  lemma OthersStayLive(w: World, w2: World, s: int)
    requires Live(w) && 0 <= s < |w.sessions| == |w2.sessions| && w2.sessions == w.sessions[s := w2.sessions[s]]
    requires w2.profile.Onboarded() == w.profile.Onboarded()
    ensures forall t :: 0 <= t < |w2.sessions| && t != s ==> SessionLive(w2.sessions[t], w2.profile.Onboarded())
  {
    forall t | 0 <= t < |w2.sessions| && t != s ensures SessionLive(w2.sessions[t], w2.profile.Onboarded()) {
      assert w2.sessions[t] == w.sessions[t];
      assert SessionLive(w.sessions[t], w.profile.Onboarded());
    }
  }

  /** From a session with one question newly settled to the end of the turn. */
  lemma SettledThenOnward(w: World, w2: World, s: int, c: Catalogue, now: Time)
    requires Live(w) && Sound(w2) && Extends(w, w2) && StepsInOrder(w, w2)
    requires 0 <= s < |w.sessions| && w2.sessions == w.sessions[s := w2.sessions[s]]
    requires w2.profile.Onboarded() == w.profile.Onboarded()
    requires AllSettled(w2.sessions[s]) ==> w2.sessions[s].flow.Onboarding?
    requires !AllSettled(w2.sessions[s]) ==> Live(w2)
    ensures SettledOn(w, s, w2, Onward(w2, s, c, now).world, now)
  {
    OthersStayLive(w, w2, s);
    OnwardKeeps(w2, s, c, now);
    BothSteps(w, w2, s, Onward(w2, s, c, now).world, now);
  }

  lemma BothSteps(w: World, w2: World, s: int, w3: World, now: Time)
    requires Extends(w, w2) && StepsInOrder(w, w2) && Inv(w3) && Extends(w2, w3)
    requires 0 <= s < |w.sessions| == |w2.sessions| == |w3.sessions|
    requires w2.sessions == w.sessions[s := w2.sessions[s]] && w3.sessions == w2.sessions[s := w3.sessions[s]]
    requires if AllSettled(w2.sessions[s])
             then w3.sessions[s] == w2.sessions[s].(open := false) && w3.profile.Onboarded()
             else AsksCurrent(w2.sessions[s], w3.sessions[s], now)
    ensures SettledOn(w, s, w2, w3, now)
  {
    OnlySettlingSettles(w2.sessions[s], w3.sessions[s], now);
    TwoStepsInOrder(w, s, w2, w3);
  }

  lemma OnlySettlingSettles(a: Session, b: Session, now: Time)
    requires b == a.(open := false) || AsksCurrent(a, b, now)
    ensures |a.items| == |b.items| && forall i :: 0 <= i < |a.items| ==> b.items[i].status == a.items[i].status
  {
  }

  /** A saved answer and all it brings about. */
  lemma SettleKeeps(
    w: World, s: int, key: Key, status: Status, answer: string, heard: string, c: Catalogue, now: Time)
    requires Inv(w) && 0 <= s < |w.sessions|
    requires Record(w, s, key, status, answer, now).Saved?
    requires var r := Record(w, s, key, status, answer, now);
      s < |r.world.sessions| && AllSettled(r.world.sessions[s]) ==> w.sessions[s].flow.Onboarding?
    ensures var r := Record(w, s, key, status, answer, now);
      var w2 := Acknowledge(r.world, key, status, heard);
      && s < |w2.sessions|
      && w2.sessions == r.world.sessions && w2.profile == r.world.profile
      && SettledOn(w, s, w2, Onward(w2, s, c, now).world, now)
  {
    var r := Record(w, s, key, status, answer, now);
    var w2 := Acknowledge(r.world, key, status, heard);
    RecordKeeps(w, s, key, status, answer, now);
    AcknowledgeKeeps(r.world, key, status, heard);
    SoundSame(r.world, w2);
    SettledThenOnward(w, w2, s, c, now);
  }

  lemma SoundSame(w: World, w': World)
    requires Sound(w) && w'.sessions == w.sessions && Offered(w') == Offered(w) && w'.profile == w.profile
    ensures Sound(w') && (Live(w) ==> Live(w'))
    ensures forall b :: Extends(b, w) ==> Extends(b, w')
    ensures forall b :: Extends(b, w) && StepsInOrder(b, w) ==> StepsInOrder(b, w')
  {
  }

  /** Settling one item and then settling nothing is still in order. */
  lemma TwoStepsInOrder(w: World, s: int, w2: World, w3: World)
    requires Extends(w, w2) && StepsInOrder(w, w2) && Extends(w2, w3)
    requires 0 <= s < |w.sessions| == |w2.sessions| && |w3.sessions| == |w2.sessions|
    requires w3.sessions == w2.sessions[s := w3.sessions[s]]
    requires forall i :: 0 <= i < |w2.sessions[s].items| ==>
               w3.sessions[s].items[i].status == w2.sessions[s].items[i].status
    ensures Extends(w, w3) && StepsInOrder(w, w3)
  {
    ExtendsTransitive(w, w2, w3);
    assert InOrder(w.sessions[s].items, w2.sessions[s].items);
    forall t | 0 <= t < |w.sessions| ensures InOrder(w.sessions[t].items, w3.sessions[t].items) {
      assert InOrder(w.sessions[t].items, w2.sessions[t].items);
    }
  }
}
