/** Introductions come to an end: how many turns are left, and what uses them up. */
module InterviewProgress {
  import opened Clock
  import opened Options
  import opened Checklist
  import opened InterviewInvariant
  import opened InterviewRuns

  function CountOpen(items: seq<Item>): nat {
    if items == [] then 0
    else CountOpen(items[..|items| - 1]) + if items[|items| - 1].Settled() then 0 else 1
  }

  /** Unsettled questions, and one more if the current one has yet to be put. */
  function Remaining(items: seq<Item>): nat {
    CountOpen(items) + if Current(items) < |items| && !items[Current(items)].Asked() then 1 else 0
  }

  lemma {:induction false} CountAfterUpdate(items: seq<Item>, i: nat, it: Item)
    requires i < |items|
    ensures CountOpen(items[i := it]) + (if items[i].Settled() then 0 else 1)
         == CountOpen(items) + if it.Settled() then 0 else 1
  {
    var n := |items| - 1;
    if i < n {
      assert items[i := it][..n] == items[..n][i := it];
      CountAfterUpdate(items[..n], i, it);
    } else {
      assert items[i := it][..n] == items[..n];
    }
  }

  lemma {:induction false} CountShrinks(a: seq<Item>, b: seq<Item>)
    requires |a| == |b| && forall i :: 0 <= i < |a| ==> a[i].Settled() ==> b[i].Settled()
    ensures CountOpen(b) <= CountOpen(a) <= |a|
    ensures forall i :: 0 <= i < |a| && !a[i].Settled() && b[i].Settled() ==> CountOpen(b) < CountOpen(a)
  {
    if a != [] {
      var n := |a| - 1;
      CountShrinks(a[..n], b[..n]);
      forall i | 0 <= i < |a| && !a[i].Settled() && b[i].Settled() ensures CountOpen(b) < CountOpen(a) {
        if i < n {
          assert !a[..n][i].Settled() && b[..n][i].Settled();
        }
      }
    }
  }

  lemma {:induction false} NothingOpen(items: seq<Item>)
    ensures CountOpen(items) == 0 <==> Current(items) == |items|
  {
    if items != [] {
      var n := |items| - 1;
      NothingOpen(items[..n]);
      var c := Current(items[..n]);
      if c < n {
        CurrentIs(items, c);
      } else if !items[n].Settled() {
        CurrentIs(items, n);
      } else {
        CurrentIs(items, n + 1);
      }
    }
  }

  lemma NothingRemains(items: seq<Item>)
    ensures Remaining(items) == 0 <==> Current(items) == |items|
  {
    NothingOpen(items);
  }

  lemma AskingUsesOne(a: Session, b: Session, now: Time)
    requires AsksCurrent(a, b, now)
    ensures Remaining(b.items) == CountOpen(b.items) == CountOpen(a.items)
  {
    var i := Current(a.items);
    CountAfterUpdate(a.items, i, b.items[i]);
    CurrentIs(b.items, i);
  }

  lemma SettlingUsesOne(a: Session, b: Session)
    requires SettlesCurrent(a, b)
    ensures CountOpen(b.items) == CountOpen(a.items) - 1
  {
    var i := Current(a.items);
    CountAfterUpdate(a.items, i, b.items[i]);
  }

  // ----- one turn --------------------------------------------------------------------------------

  /** A reply that settles the current question. */
  predicate Usable(p: Profile, key: Key, inbound: string) {
    var (status, answer) := ReadReply(inbound);
    && !status.Unanswered?
    && (status.Answered? ==> Persisted(p, key, answer).Some?)
  }

  /** A turn that puts the current question, or carries a usable reply to it. */
  predicate Productive(w: World, s: int, inbound: string)
    requires 0 <= s < |w.sessions|
  {
    var items := w.sessions[s].items;
    var i := Current(items);
    i < |items| && (!items[i].Asked() || Usable(w.profile, items[i].key, inbound))
  }

  lemma SavedWhenUsable(w: World, s: int, inbound: string, now: Time)
    requires 0 <= s < |w.sessions| && !AllSettled(w.sessions[s])
    ensures var (status, answer) := ReadReply(inbound);
      var key := w.sessions[s].items[Current(w.sessions[s].items)].key;
      Usable(w.profile, key, inbound) <==> !status.Unanswered? && Record(w, s, key, status, answer, now).Saved?
  {
    TrimTwice(inbound);
  }

  lemma {:induction false} TrimLeftAgain(s: string)
    requires s == "" || !Text.IsSpace(s[0])
    ensures Text.TrimLeft(s) == s
  {
  }

  lemma {:induction false} TrimRightKeepsFirst(s: string)
    requires s == "" || !Text.IsSpace(s[0])
    ensures Text.TrimRight(s) == "" || !Text.IsSpace(Text.TrimRight(s)[0])
  {
    assert Text.TrimRight(s) <= s;
  }

  lemma TrimTwice(s: string)
    ensures Text.TrimSpace(Text.TrimSpace(s)) == Text.TrimSpace(s)
  {
    TrimRightKeepsFirst(Text.TrimLeft(s));
    TrimLeftAgain(Text.TrimSpace(s));
  }

  /** What an introduction's turn does once a usable reply to its current question is in. */
  lemma SettledTurnUsesOne(
    w: World, s: int, key: Key, status: Status, answer: string, heard: string, c: Catalogue, now: Time)
    requires Inv(w) && 0 <= s < |w.sessions| && w.sessions[s].flow.Onboarding? && !AllSettled(w.sessions[s])
    requires Record(w, s, key, status, answer, now).Saved?
    ensures var w1 := Record(w, s, key, status, answer, now).world;
      var w3 := Onward(Acknowledge(w1, key, status, heard), s, c, now).world;
      && |w3.sessions| == |w.sessions|
      && Remaining(w3.sessions[s].items) == CountOpen(w.sessions[s].items) - 1
  {
    RecordKeeps(w, s, key, status, answer, now);
    SettleKeeps(w, s, key, status, answer, heard, c, now);
    var w1 := Record(w, s, key, status, answer, now).world;
    var w2 := Acknowledge(w1, key, status, heard);
    var w3 := Onward(w2, s, c, now).world;
    SettlingUsesOne(w.sessions[s], w1.sessions[s]);
    if AllSettled(w2.sessions[s]) {
      NothingRemains(w3.sessions[s].items);
      NothingOpen(w3.sessions[s].items);
    } else {
      AskingUsesOne(w2.sessions[s], w3.sessions[s], now);
    }
  }

  /** A turn that puts the current question or carries a usable reply uses up exactly one of the
      turns remaining; any other turn changes nothing at all. */
  lemma TurnUsesOneOrNothing(w: World, channel: Channel, inbound: string, c: Catalogue, now: Time)
    requires Inv(w) && !w.profile.Onboarded() && !channel.UnknownChannel?
    ensures var e := EnsureSession(w, channel, Onboarding, now);
      var w' := OnboardingTurn(w, channel, inbound, c, now).world;
      && e.s < |w'.sessions|
      && (Productive(e.world, e.s, inbound) ==>
            Remaining(w'.sessions[e.s].items) == Remaining(e.world.sessions[e.s].items) - 1)
      && (!Productive(e.world, e.s, inbound) ==> w' == e.world)
  {
    var e := EnsureSession(w, channel, Onboarding, now);
    EnsureKeeps(w, channel, now);
    var a := e.world.sessions[e.s];
    assert SessionLive(a, false);
    var i := Current(a.items);
    if !a.items[i].Asked() {
      AskKeeps(e.world, e.s, c, now);
      AskingUsesOne(a, OnboardingTurn(w, channel, inbound, c, now).world.sessions[e.s], now);
    } else {
      SavedWhenUsable(e.world, e.s, inbound, now);
      var (status, answer) := ReadReply(inbound);
      if Usable(e.world.profile, a.items[i].key, inbound) {
        RecordKeeps(e.world, e.s, a.items[i].key, status, answer, now);
        SettledTurnUsesOne(e.world, e.s, a.items[i].key, status, answer, answer, c, now);
      }
    }
  }

  /** Whether the introduction is over, however one looks at it. */
  predicate OverOrNot(t: Turn, s: int, now: Time) {
    && 0 <= s < |t.world.sessions|
    && (Remaining(t.world.sessions[s].items) == 0 <==> !t.world.sessions[s].open)
    && (Remaining(t.world.sessions[s].items) == 0 <==> t.world.profile.onboardedAt == Some(now))
    && (Remaining(t.world.sessions[s].items) == 0 <==> t.said.Closing?)
  }

  lemma AskedIsNotOver(w: World, s: int, c: Catalogue, now: Time)
    requires Inv(w) && 0 <= s < |w.sessions| && !w.profile.Onboarded()
    requires w.sessions[s].open && !AllSettled(w.sessions[s])
    ensures var a := AskQuestion(w, s, Current(w.sessions[s].items), c, now);
      OverOrNot(Turn(a.world, Ask(a.prompt)), s, now)
  {
    var a := AskQuestion(w, s, Current(w.sessions[s].items), c, now);
    AskKeeps(w, s, c, now);
    AskingUsesOne(w.sessions[s], a.world.sessions[s], now);
    NothingOpen(w.sessions[s].items);
  }

  lemma OnwardOverOrNot(w: World, s: int, c: Catalogue, now: Time)
    requires Sound(w) && 0 <= s < |w.sessions| && !w.profile.Onboarded() && w.sessions[s].open
    requires !AllSettled(w.sessions[s]) ==> Live(w)
    ensures OverOrNot(Onward(w, s, c, now), s, now)
  {
    if AllSettled(w.sessions[s]) {
      NothingRemains(w.sessions[s].items);
    } else {
      AskedIsNotOver(w, s, c, now);
    }
  }

  lemma SettledOverOrNot(
    w: World, s: int, key: Key, status: Status, answer: string, heard: string, c: Catalogue, now: Time)
    requires Inv(w) && 0 <= s < |w.sessions| && !w.profile.Onboarded()
    requires w.sessions[s].flow.Onboarding? && w.sessions[s].open
    requires Record(w, s, key, status, answer, now).Saved?
    ensures var w1 := Record(w, s, key, status, answer, now).world;
      OverOrNot(Onward(Acknowledge(w1, key, status, heard), s, c, now), s, now)
  {
    RecordKeeps(w, s, key, status, answer, now);
    var w1 := Record(w, s, key, status, answer, now).world;
    AcknowledgeKeeps(w1, key, status, heard);
    SoundSame(w1, Acknowledge(w1, key, status, heard));
    OnwardOverOrNot(Acknowledge(w1, key, status, heard), s, c, now);
  }

  /** The turn that uses up the last of them is the one that stamps the profile and closes the
      session. */
  lemma LastTurnFinishes(w: World, channel: Channel, inbound: string, c: Catalogue, now: Time)
    requires Inv(w) && !w.profile.Onboarded() && !channel.UnknownChannel?
    ensures OverOrNot(OnboardingTurn(w, channel, inbound, c, now), EnsureSession(w, channel, Onboarding, now).s, now)
  {
    var e := EnsureSession(w, channel, Onboarding, now);
    EnsureKeeps(w, channel, now);
    var a := e.world.sessions[e.s];
    assert SessionLive(a, false);
    var i := Current(a.items);
    if !a.items[i].Asked() {
      AskedIsNotOver(e.world, e.s, c, now);
    } else {
      NothingRemains(a.items);
      var (status, answer) := ReadReply(inbound);
      if !status.Unanswered? && Record(e.world, e.s, a.items[i].key, status, answer, now).Saved? {
        RecordKeeps(e.world, e.s, a.items[i].key, status, answer, now);
        SettledOverOrNot(e.world, e.s, a.items[i].key, status, answer, answer, c, now);
      }
    }
  }

  // ----- the same by phone -----------------------------------------------------------------------

  /** Asking for the next question uses up one turn when the question had not been put before, and
      none when it had. */
  lemma AskingToolUsesOneOrNone(w: World, channel: Channel, c: Catalogue, now: Time)
    requires Inv(w) && !w.profile.Onboarded() && !channel.UnknownChannel?
    ensures var e := EnsureSession(w, channel, Onboarding, now);
      var w' := NextQuestion(w, channel, c, now).world;
      var a := e.world.sessions[e.s].items;
      && e.s < |w'.sessions| && Current(a) < |a|
      && Remaining(w'.sessions[e.s].items) == Remaining(a) - if a[Current(a)].Asked() then 0 else 1
  {
    var e := EnsureSession(w, channel, Onboarding, now);
    EnsureKeeps(w, channel, now);
    var a := e.world.sessions[e.s];
    assert SessionLive(a, false);
    AskKeeps(e.world, e.s, c, now);
    AskingUsesOne(a, NextQuestion(w, channel, c, now).world.sessions[e.s], now);
  }

  /** A saved answer uses up the turn of its question, and also the turn of putting it when the
      agent had not asked for it first; a refused answer changes nothing.  The answer that uses up
      the last of them stamps the profile and closes the session. */
  lemma SavingToolUsesItsTurns(
    w: World, channel: Channel, key: Key, status: Status, answer: string, c: Catalogue, now: Time)
    requires Inv(w) && !w.profile.Onboarded() && !channel.UnknownChannel?
    ensures var e := EnsureSession(w, channel, Onboarding, now);
      var t := SaveAnswer(w, channel, key, status, answer, c, now);
      var a := e.world.sessions[e.s].items;
      && e.s < |t.world.sessions| && Current(a) < |a|
      && (Record(e.world, e.s, key, status, answer, now).Saved? ==>
            && OverOrNot(t, e.s, now)
            && Remaining(t.world.sessions[e.s].items) == Remaining(a) - if a[Current(a)].Asked() then 1 else 2)
      && (Record(e.world, e.s, key, status, answer, now).Refused? ==> t.world == e.world)
  {
    var e := EnsureSession(w, channel, Onboarding, now);
    EnsureKeeps(w, channel, now);
    assert SessionLive(e.world.sessions[e.s], false);
    var r := Record(e.world, e.s, key, status, answer, now);
    if r.Saved? {
      RecordKeeps(e.world, e.s, key, status, answer, now);
      SettledTurnUsesOne(e.world, e.s, key, status, answer, r.item.answer, c, now);
      SettledOverOrNot(e.world, e.s, key, status, answer, r.item.answer, c, now);
    }
  }

  // ----- any step --------------------------------------------------------------------------------

  /** Nothing anyone does makes an introduction longer. */
  lemma RemainingNeverGrows(a: Session, b: Session)
    requires SessionExtends(a, b)
    ensures Remaining(b.items) <= Remaining(a.items)
  {
    var i, j := Current(a.items), Current(b.items);
    forall k | 0 <= k < |a.items| && a.items[k].Settled() ensures b.items[k].Settled() {
      assert ItemExtends(a.items[k], b.items[k]);
    }
    CountShrinks(a.items, b.items);
    if i < |a.items| {
      assert ItemExtends(a.items[i], b.items[i]);
    }
    assert forall k :: 0 <= k < i ==> b.items[k].Settled();
  }

  /** The turn of an introduction that a step is, if the person is not onboarded: an inbound text
      is one over SMS. */
  datatype TurnOf = NoTurn | TurnOf(channel: Channel, inbound: string, c: Catalogue, now: Time)

  function AsTurn(step: Step): TurnOf {
    match step
    case TurnStep(channel, inbound, c, now) => TurnOf(channel, inbound, c, now)
    case ReplyStep(inbound, c, now) => TurnOf(Sms, inbound, c, now)
    case _ => NoTurn
  }

  lemma TurnStepsTakeTurns(w: World, step: Step)
    requires !w.profile.Onboarded() && AsTurn(step).TurnOf?
    ensures var t := AsTurn(step);
      Do(w, step) == OnboardingTurn(w, t.channel, t.inbound, t.c, t.now).world
  {
  }

  /** A step that is a productive turn of session `s`. */
  predicate UsesATurn(w: World, step: Step, s: int) {
    && AsTurn(step).TurnOf? && !w.profile.Onboarded() && !AsTurn(step).channel.UnknownChannel?
    && 0 <= s < |w.sessions|
    && FindOpen(w.sessions, AsTurn(step).channel, Onboarding) == s
    && Productive(w, s, AsTurn(step).inbound)
  }

  function TurnsUsed(w: World, run: seq<Step>, s: int): nat {
    if run == [] then 0
    else
      var front, step := run[..|run| - 1], run[|run| - 1];
      TurnsUsed(w, front, s) + if UsesATurn(RunFrom(w, front), step, s) then 1 else 0
  }

  lemma StepUsesTurns(w: World, step: Step, s: int)
    requires Inv(w) && 0 <= s < |w.sessions|
    ensures s < |Do(w, step).sessions|
    ensures Remaining(Do(w, step).sessions[s].items)
         <= Remaining(w.sessions[s].items) - if UsesATurn(w, step, s) then 1 else 0
  {
    StepKeeps(w, step);
    RemainingNeverGrows(w.sessions[s], Do(w, step).sessions[s]);
    if UsesATurn(w, step, s) {
      var t := AsTurn(step);
      TurnStepsTakeTurns(w, step);
      TurnUsesOneOrNothing(w, t.channel, t.inbound, t.c, t.now);
    }
  }

  lemma CountBounded(items: seq<Item>)
    ensures Remaining(items) <= |items| + 1
  {
    CountShrinks(items, items);
  }

  /** Whatever else happens on whichever channel, an introduction takes at most as many productive
      turns as it has left, and never more than six; when none are left it is closed and the
      person is onboarded. */
  lemma {:induction false} IntroductionsEnd(w: World, run: seq<Step>, s: int)
    requires Inv(w) && 0 <= s < |w.sessions| && w.sessions[s].flow.Onboarding?
    ensures s < |RunFrom(w, run).sessions|
    ensures var w' := RunFrom(w, run);
      && TurnsUsed(w, run, s) + Remaining(w'.sessions[s].items) <= Remaining(w.sessions[s].items) <= 6
      && (Remaining(w'.sessions[s].items) == 0 <==> !w'.sessions[s].open)
      && (Remaining(w'.sessions[s].items) == 0 ==> w'.profile.Onboarded())
  {
    RunKeeps(w, run);
    var w' := RunFrom(w, run);
    assert SessionSound(w.sessions[s], Offered(w));
    CountBounded(w.sessions[s].items);
    NothingRemains(w'.sessions[s].items);
    assert SessionExtends(w.sessions[s], w'.sessions[s]);
    assert SessionLive(w'.sessions[s], w'.profile.Onboarded());
    if run != [] {
      var front := run[..|run| - 1];
      IntroductionsEnd(w, front, s);
      RunKeeps(w, front);
      StepUsesTurns(RunFrom(w, front), run[|run| - 1], s);
    }
  }

  predicate OnlyTurnsOf(run: seq<Step>, channel: Channel) {
    forall k :: 0 <= k < |run| ==> AsTurn(run[k]).TurnOf? && AsTurn(run[k]).channel == channel
  }

  /** A settled introduction has nothing left to use up. */
  lemma NothingLeftStaysSo(w: World, w': World, s: int)
    requires Extends(w, w') && 0 <= s < |w.sessions| && Remaining(w.sessions[s].items) == 0
    ensures Remaining(w'.sessions[s].items) == 0
  {
    RemainingNeverGrows(w.sessions[s], w'.sessions[s]);
  }

  /** Left to its own turns, inbound texts included, an introduction is over after exactly as many
      productive turns as it had left: each uses one, and the others use none. */
  lemma {:induction false} TurnsAloneAreExact(w: World, run: seq<Step>, s: int)
    requires Inv(w) && 0 <= s < |w.sessions| && !w.profile.Onboarded()
    requires w.sessions[s].flow.Onboarding? && OnlyTurnsOf(run, w.sessions[s].channel)
    ensures s < |RunFrom(w, run).sessions|
    ensures TurnsUsed(w, run, s) == Remaining(w.sessions[s].items) - Remaining(RunFrom(w, run).sessions[s].items)
    ensures RunFrom(w, run).profile.Onboarded() <==> TurnsUsed(w, run, s) == Remaining(w.sessions[s].items)
    ensures !RunFrom(w, run).profile.Onboarded() ==> |RunFrom(w, run).sessions| == |w.sessions|
  {
    RunKeeps(w, run);
    if run == [] {
      assert SessionLive(w.sessions[s], false);
      NothingRemains(w.sessions[s].items);
    } else {
      var front, step := run[..|run| - 1], run[|run| - 1];
      TurnsAloneAreExact(w, front, s);
      RunKeeps(w, front);
      var mid := RunFrom(w, front);
      assert SessionExtends(w.sessions[s], mid.sessions[s]);
      StepKeeps(mid, step);
      if mid.profile.Onboarded() {
        NothingLeftStaysSo(mid, Do(mid, step), s);
      } else {
        OneTurnAlone(mid, step, s);
      }
    }
  }

  lemma TheOpenOneIsFound(w: World, s: int)
    requires Inv(w) && 0 <= s < |w.sessions| && w.sessions[s].open
    ensures FindOpen(w.sessions, w.sessions[s].channel, w.sessions[s].flow) == s
  {
  }

  lemma OneTurnAlone(w: World, step: Step, s: int)
    requires Inv(w) && !w.profile.Onboarded() && 0 <= s < |w.sessions| && w.sessions[s].flow.Onboarding?
    requires AsTurn(step).TurnOf? && AsTurn(step).channel == w.sessions[s].channel
    ensures var w' := Do(w, step);
      && |w'.sessions| == |w.sessions|
      && Remaining(w.sessions[s].items) - Remaining(w'.sessions[s].items) == (if UsesATurn(w, step, s) then 1 else 0)
      && (w'.profile.Onboarded() <==> Remaining(w'.sessions[s].items) == 0)
  {
    var t := AsTurn(step);
    assert SessionLive(w.sessions[s], false);
    assert SessionSound(w.sessions[s], Offered(w));
    TheOpenOneIsFound(w, s);
    TurnStepsTakeTurns(w, step);
    TurnUsesOneOrNothing(w, t.channel, t.inbound, t.c, t.now);
    LastTurnFinishes(w, t.channel, t.inbound, t.c, t.now);
    TurnAddsNoSession(w, t.channel, t.inbound, t.c, t.now, s);
  }

  lemma OnwardAddsNoSession(w: World, s: int, c: Catalogue, now: Time)
    requires 0 <= s < |w.sessions|
    ensures var w' := Onward(w, s, c, now).world;
      && |w'.sessions| == |w.sessions|
      && (w'.profile == w.profile || w'.profile == MarkOnboarded(w.profile, now))
  {
  }

  lemma RecordAddsNoSession(w: World, s: int, key: Key, status: Status, answer: string, now: Time)
    requires 0 <= s < |w.sessions|
    ensures var r := Record(w, s, key, status, answer, now);
      r.Saved? ==> |r.world.sessions| == |w.sessions| && r.world.profile.onboardedAt == w.profile.onboardedAt
  {
  }

  lemma TurnAddsNoSession(w: World, channel: Channel, inbound: string, c: Catalogue, now: Time, s: int)
    requires !w.profile.Onboarded() && !channel.UnknownChannel?
    requires FindOpen(w.sessions, channel, Onboarding) == s >= 0
    ensures var w' := OnboardingTurn(w, channel, inbound, c, now).world;
      |w'.sessions| == |w.sessions| && (!w'.profile.Onboarded() || w'.profile.onboardedAt == Some(now))
  {
    var i := Current(w.sessions[s].items);
    if i < |w.sessions[s].items| && w.sessions[s].items[i].Asked() {
      var key := w.sessions[s].items[i].key;
      var (status, answer) := ReadReply(inbound);
      var r := Record(w, s, key, status, answer, now);
      RecordAddsNoSession(w, s, key, status, answer, now);
      if r.Saved? {
        var w2 := Acknowledge(r.world, r.item.key, status, answer);
        OnwardAddsNoSession(w2, s, c, now);
      }
    }
  }

  /** Someone about whom nothing is known takes all six. */
  lemma FreshIntroductionTakesSix(channel: Channel, frequency: string, now: Time)
    requires !channel.UnknownChannel?
    ensures var e := EnsureSession(NewPerson("", "", frequency), channel, Onboarding, now);
      Remaining(e.world.sessions[e.s].items) == 6
  {
    var w := NewPerson("", "", frequency);
    var items := StartItems(ONBOARDING_TEMPLATE, w, now);
    forall i | 0 <= i < 5 ensures !items[i].Settled() && !items[i].Asked() {
      assert items[i] == StartItem(ONBOARDING_TEMPLATE[i], w, now);
      assert Text.TrimSpace(Text.TrimSpace("")) == "";
    }
    AllOpen(items);
    CurrentIs(items, 0);
  }

  lemma {:induction false} AllOpen(items: seq<Item>)
    requires forall i :: 0 <= i < |items| ==> !items[i].Settled()
    ensures CountOpen(items) == |items|
  {
    if items != [] {
      AllOpen(items[..|items| - 1]);
    }
  }
}
