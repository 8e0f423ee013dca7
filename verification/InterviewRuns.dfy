/** Interviews over whole runs: turns on any channel, tool calls, and what is said elsewhere. */
module InterviewRuns {
  import opened Clock
  import opened Options
  import opened Checklist
  import opened InterviewInvariant
  import Suggestions

  datatype Step =
    | TurnStep(channel: Channel, inbound: string, c: Catalogue, now: Time)   // an introduction's turn
    | ReplyStep(inbound: string, c: Catalogue, now: Time)                    // an inbound text
    | NextQuestionStep(channel: Channel, c: Catalogue, now: Time)
    | SaveAnswerStep(channel: Channel, key: Key, status: Status, answer: string, c: Catalogue, now: Time)
    | BriefingStep(now: Time)                                                // before a call is placed
    | SetNameStep(name: string, now: Time)
    | SaveOnboardingStep(name: string, interests: string, frequency: string, now: Time)
    | SignUpStep(name: string, interests: string, frequency: string, now: Time)
    | FrequencyStep(frequency: string, now: Time)
    | SuggestStep(c: Catalogue, now: Time)                                   // the model's tools
    | AcceptStep(now: Time)

  function Do(w: World, step: Step): World {
    match step
    case TurnStep(channel, inbound, c, now) =>
      if w.profile.Onboarded() then w else OnboardingTurn(w, channel, inbound, c, now).world
    case ReplyStep(inbound, c, now) => Reply(w, inbound, c, now).world
    case NextQuestionStep(channel, c, now) => NextQuestion(w, channel, c, now).world
    case SaveAnswerStep(channel, key, status, answer, c, now) =>
      SaveAnswer(w, channel, key, status, answer, c, now).world
    case BriefingStep(now) => EnsureSession(w, Call, FlowFor(w.profile), now).world
    case SetNameStep(name, now) => SetName(w, name, now).GetOr(w)
    case SaveOnboardingStep(name, interests, frequency, now) =>
      w.(profile := SaveOnboarding(w.profile, name, interests, frequency, now))
    case SignUpStep(name, interests, frequency, _) =>
      w.(profile := SignUpAgain(w.profile, name, interests, frequency))
    case FrequencyStep(frequency, _) => w.(profile := w.profile.(frequency := frequency))
    case SuggestStep(c, now) =>
      var interests := Matching.InterestList(Text.Split(w.profile.interests, ','));
      w.(book := Suggestions.Suggest(c.vocabulary, interests, c.events, w.book, now).book)
    case AcceptStep(_) => w.(book := Suggestions.Accept(w.book))
  }

  function RunFrom(w: World, run: seq<Step>): World {
    if run == [] then w else Do(RunFrom(w, run[..|run| - 1]), run[|run| - 1])
  }

  /** A repeated delivery of an answer finds or starts the session and goes no further, which is
      what a delivery with no usable status does: so repeats are among the steps. */
  lemma RepeatIsAStep(w: World, channel: Channel, key: Key, answer: string, c: Catalogue, now: Time)
    ensures Do(w, SaveAnswerStep(channel, key, Unanswered, answer, c, now))
         == EnsureSession(w, channel, FlowFor(w.profile), now).world
  {
  }

  /** Someone the service has only just met. */
  function NewPerson(name: string, interests: string, frequency: string): World {
    World(Profile(name, interests, frequency, None), [], Suggestions.EMPTY_BOOK)
  }

  // ----- one step --------------------------------------------------------------------------------

  /** What every step guarantees. */
  predicate Kept(w: World, w': World) {
    Inv(w') && Extends(w, w') && StepsInOrder(w, w')
  }

  lemma AfterEnsure(w: World, e: World, w': World)
    requires w.sessions <= e.sessions && e.profile == w.profile && Offered(w) <= Offered(e)
    requires Kept(e, w')
    ensures Kept(w, w')
  {
    forall s | 0 <= s < |w.sessions|
      ensures SessionExtends(w.sessions[s], w'.sessions[s]) && InOrder(w.sessions[s].items, w'.sessions[s].items)
    {
      assert e.sessions[s] == w.sessions[s];
      assert SessionExtends(e.sessions[s], w'.sessions[s]);
    }
  }

  /** A settled introduction question, from the saved answer onwards. */
  lemma SettleKept(
    w: World, s: int, key: Key, status: Status, answer: string, heard: string, c: Catalogue, now: Time)
    requires Inv(w) && 0 <= s < |w.sessions|
    requires Record(w, s, key, status, answer, now).Saved?
    requires var r := Record(w, s, key, status, answer, now);
      s < |r.world.sessions| && AllSettled(r.world.sessions[s]) ==> w.sessions[s].flow.Onboarding?
    ensures var w2 := Acknowledge(Record(w, s, key, status, answer, now).world, key, status, heard);
      s < |w2.sessions| && Kept(w, Onward(w2, s, c, now).world)
  {
    SettleKeeps(w, s, key, status, answer, heard, c, now);
  }

  lemma TurnKeeps(w: World, channel: Channel, inbound: string, c: Catalogue, now: Time)
    requires Inv(w) && !w.profile.Onboarded()
    ensures Kept(w, OnboardingTurn(w, channel, inbound, c, now).world)
  {
    var e := EnsureSession(w, channel, Onboarding, now);
    EnsureKeeps(w, channel, now);
    ExtendsReflexive(e.world);
    ExtendsReflexive(w);
    if e.s >= 0 {
      var items := e.world.sessions[e.s].items;
      var i := Current(items);
      assert SessionLive(e.world.sessions[e.s], false);
      if !items[i].Asked() {
        AskKeeps(e.world, e.s, c, now);
      } else {
        var (status, answer) := ReadReply(inbound);
        if !status.Unanswered? {
          var r := Record(e.world, e.s, items[i].key, status, answer, now);
          if r.Saved? {
            RecordKeeps(e.world, e.s, items[i].key, status, answer, now);
            SettleKept(e.world, e.s, items[i].key, status, answer, answer, c, now);
          }
        }
      }
      AfterEnsure(w, e.world, OnboardingTurn(w, channel, inbound, c, now).world);
    }
  }

  /** A check-in answer, and the next question when there is one. */
  lemma CheckinSavedKept(w: World, s: int, key: Key, status: Status, answer: string, now: Time)
    requires Inv(w) && 0 <= s < |w.sessions| && w.sessions[s].flow.Checkin?
    requires Record(w, s, key, status, answer, now).Saved?
    ensures var w1 := Record(w, s, key, status, answer, now).world;
      && s < |w1.sessions| && Kept(w, w1)
      && (!AllSettled(w1.sessions[s]) ==> Kept(w, MarkAsked(w1, s, Current(w1.sessions[s].items), now)))
  {
    RecordKeeps(w, s, key, status, answer, now);
    var w1 := Record(w, s, key, status, answer, now).world;
    if !AllSettled(w1.sessions[s]) {
      MarkAskedKeeps(w1, s, now);
      var w2 := MarkAsked(w1, s, Current(w1.sessions[s].items), now);
      OnlySettlingSettles(w1.sessions[s], w2.sessions[s], now);
      TwoStepsInOrder(w, s, w1, w2);
    }
  }

  lemma InterviewReplyKeeps(w: World, inbound: string, now: Time)
    requires Inv(w) && w.profile.Onboarded()
    ensures Kept(w, InterviewReply(w, inbound, now).world)
  {
    var e := EnsureSession(w, Sms, Checkin, now);
    EnsureKeeps(w, Sms, now);
    ExtendsReflexive(e.world);
    var items := e.world.sessions[e.s].items;
    var i := Current(items);
    if i < |items| {
      if !items[i].Asked() {
        MarkAskedKeeps(e.world, e.s, now);
      } else {
        var (status, answer) := ReadReply(inbound);
        if !status.Unanswered? && Record(e.world, e.s, items[i].key, status, answer, now).Saved? {
          CheckinSavedKept(e.world, e.s, items[i].key, status, answer, now);
        }
      }
    }
    AfterEnsure(w, e.world, InterviewReply(w, inbound, now).world);
  }

  lemma NextQuestionKeeps(w: World, channel: Channel, c: Catalogue, now: Time)
    requires Inv(w)
    ensures Kept(w, NextQuestion(w, channel, c, now).world)
  {
    var e := EnsureSession(w, channel, FlowFor(w.profile), now);
    EnsureKeeps(w, channel, now);
    ExtendsReflexive(e.world);
    if e.s >= 0 && !AllSettled(e.world.sessions[e.s]) {
      AskKeeps(e.world, e.s, c, now);
    }
    AfterEnsure(w, e.world, NextQuestion(w, channel, c, now).world);
  }

  lemma SavedKeeps(w: World, s: int, key: Key, status: Status, answer: string, c: Catalogue, now: Time)
    requires Inv(w) && 0 <= s < |w.sessions|
    requires Record(w, s, key, status, answer, now).Saved?
    ensures var r := Record(w, s, key, status, answer, now);
      Kept(w, AfterSave(r.world, s, r.item, c, now).world)
  {
    var r := Record(w, s, key, status, answer, now);
    RecordKeeps(w, s, key, status, answer, now);
    if w.sessions[s].flow.Checkin? && AllSettled(r.world.sessions[s]) {
      AcknowledgeKeeps(r.world, r.item.key, r.item.status, r.item.answer);
      SoundSame(r.world, AfterSave(r.world, s, r.item, c, now).world);
    } else {
      SettleKept(w, s, key, status, answer, r.item.answer, c, now);
    }
  }

  lemma SaveAnswerIs(
    w: World, channel: Channel, key: Key, status: Status, answer: string, c: Catalogue, now: Time)
    ensures var e := EnsureSession(w, channel, FlowFor(w.profile), now);
      var w' := SaveAnswer(w, channel, key, status, answer, c, now).world;
      if e.s < 0 then w' == w
      else
        var r := Record(e.world, e.s, key, status, answer, now);
        if r.Refused? then w' == e.world else w' == AfterSave(r.world, e.s, r.item, c, now).world
  {
  }

  lemma SaveAnswerKeeps(
    w: World, channel: Channel, key: Key, status: Status, answer: string, c: Catalogue, now: Time)
    requires Inv(w)
    ensures Kept(w, SaveAnswer(w, channel, key, status, answer, c, now).world)
  {
    var e := EnsureSession(w, channel, FlowFor(w.profile), now);
    var w' := SaveAnswer(w, channel, key, status, answer, c, now).world;
    SaveAnswerIs(w, channel, key, status, answer, c, now);
    EnsureKeeps(w, channel, now);
    ExtendsReflexive(e.world);
    if e.s >= 0 && Record(e.world, e.s, key, status, answer, now).Saved? {
      SavedKeeps(e.world, e.s, key, status, answer, c, now);
    }
    if e.s >= 0 {
      AfterEnsure(w, e.world, w');
    }
  }

  lemma NamingItems(a: Session, name: string, now: Time, offered: set<int>)
    requires SessionSound(a, offered) && name != ""
    requires a.flow.Onboarding? && !a.items[0].Settled()
    ensures var after := NameItems(a.items, name, now);
      && |after| == |a.items|
      && after[0].Settled() && ItemSound(after[0], offered) && ItemExtends(a.items[0], after[0])
      && forall k :: 0 < k < |after| ==> after[k] == a.items[k]
  {
    assert ItemSound(a.items[0], offered);
  }

  lemma NothingToName(a: Session, name: string, now: Time, offered: set<int>)
    requires SessionSound(a, offered) && (a.flow.Checkin? || a.items[0].Settled())
    ensures NameItems(a.items, name, now) == a.items
  {
  }

  /** Settling the open name question of one session. */
  lemma NamingKeepsSession(a: Session, name: string, now: Time, offered: set<int>, onboarded: bool)
    requires SessionSound(a, offered) && SessionLive(a, onboarded) && name != ""
    ensures var b := a.(items := NameItems(a.items, name, now));
      && SessionSound(b, offered) && SessionLive(b, onboarded) && SessionExtends(a, b) && InOrder(a.items, b.items)
  {
    if a.flow.Checkin? || a.items[0].Settled() {
      NothingToName(a, name, now, offered);
    } else {
      NamingItems(a, name, now, offered);
      NameSettledKeeps(a, a.(items := NameItems(a.items, name, now)), offered, onboarded);
    }
  }

  lemma NameSettledKeeps(a: Session, b: Session, offered: set<int>, onboarded: bool)
    requires SessionSound(a, offered) && SessionLive(a, onboarded) && a.flow.Onboarding? && !a.items[0].Settled()
    requires b == a.(items := b.items) && |b.items| == |a.items|
    requires b.items[0].Settled() && ItemSound(b.items[0], offered) && ItemExtends(a.items[0], b.items[0])
    requires forall k :: 0 < k < |b.items| ==> b.items[k] == a.items[k]
    ensures SessionSound(b, offered) && SessionLive(b, onboarded) && SessionExtends(a, b) && InOrder(a.items, b.items)
  {
    CurrentIs(a.items, 0);
    assert !a.items[3].Settled() && !b.items[3].Settled();
    assert OneOnTheTable(b.items) by {
      forall k | 0 <= k < |b.items| && !b.items[k].Settled() ensures !b.items[k].Asked() {
        assert k > 0 && b.items[k] == a.items[k];
      }
    }
    forall k | 0 <= k < |b.items| ensures ItemSound(b.items[k], offered) {
      assert ItemSound(a.items[k], offered);
    }
  }

  lemma SessionsKeep(w: World, w': World)
    requires Unique(w.sessions) && |w'.sessions| == |w.sessions| && w'.book == w.book
    requires w'.profile.onboardedAt == w.profile.onboardedAt
    requires forall s :: 0 <= s < |w.sessions| ==>
               SessionSound(w'.sessions[s], Offered(w)) && SessionLive(w'.sessions[s], w.profile.Onboarded())
    requires forall s :: 0 <= s < |w.sessions| ==>
               SessionExtends(w.sessions[s], w'.sessions[s]) && InOrder(w.sessions[s].items, w'.sessions[s].items)
    ensures Kept(w, w')
  {
    assert forall s :: 0 <= s < |w.sessions| ==>
      w'.sessions[s].channel == w.sessions[s].channel && w'.sessions[s].flow == w.sessions[s].flow;
  }

  lemma SetNameKeeps(w: World, raw: string, now: Time)
    requires Inv(w) && SetName(w, raw, now).Some?
    ensures Kept(w, SetName(w, raw, now).value)
  {
    var w' := SetName(w, raw, now).value;
    forall s | 0 <= s < |w.sessions|
      ensures SessionSound(w'.sessions[s], Offered(w)) && SessionLive(w'.sessions[s], w.profile.Onboarded())
      ensures SessionExtends(w.sessions[s], w'.sessions[s]) && InOrder(w.sessions[s].items, w'.sessions[s].items)
    {
      NamingKeepsSession(w.sessions[s], Replies.NormaliseName(raw), now, Offered(w), w.profile.Onboarded());
    }
    SessionsKeep(w, w');
  }

  /** A profile edit that takes back no onboarding. */
  lemma ProfileKeeps(w: World, p: Profile)
    requires Inv(w) && (w.profile.Onboarded() ==> p.onboardedAt == w.profile.onboardedAt)
    ensures Kept(w, w.(profile := p))
  {
    var w' := w.(profile := p);
    assert Sound(w');
    forall s | 0 <= s < |w.sessions| ensures SessionLive(w'.sessions[s], p.Onboarded()) {
      assert SessionLive(w.sessions[s], w.profile.Onboarded());
    }
    ExtendsReflexive(w);
  }

  /** Suggestions come and are taken up without touching a session. */
  lemma BookKeeps(w: World, b: Suggestions.Book)
    requires Inv(w) && Offered(w) <= Suggestions.OfferedIds(b.offers)
    ensures Kept(w, w.(book := b))
  {
    var w' := w.(book := b);
    forall s | 0 <= s < |w.sessions| ensures SessionSound(w'.sessions[s], Offered(w')) {
      assert SessionSound(w.sessions[s], Offered(w));
      forall i | 0 <= i < |w.sessions[s].items| ensures ItemSound(w.sessions[s].items[i], Offered(w')) {
        assert ItemSound(w.sessions[s].items[i], Offered(w));
      }
    }
    ExtendsReflexive(w);
  }

  lemma StepKeeps(w: World, step: Step)
    requires Inv(w)
    ensures Kept(w, Do(w, step))
  {
    ExtendsReflexive(w);
    match step
    case TurnStep(channel, inbound, c, now) =>
      if !w.profile.Onboarded() {
        TurnKeeps(w, channel, inbound, c, now);
      }
    case ReplyStep(inbound, c, now) =>
      if w.profile.Onboarded() {
        InterviewReplyKeeps(w, inbound, now);
      } else {
        TurnKeeps(w, Sms, inbound, c, now);
      }
    case NextQuestionStep(channel, c, now) => NextQuestionKeeps(w, channel, c, now);
    case SaveAnswerStep(channel, key, status, answer, c, now) =>
      SaveAnswerKeeps(w, channel, key, status, answer, c, now);
    case BriefingStep(now) => EnsureKeeps(w, Call, now);
    case SetNameStep(name, now) =>
      if SetName(w, name, now).Some? {
        SetNameKeeps(w, name, now);
      }
    case SaveOnboardingStep(name, interests, frequency, now) =>
      ProfileKeeps(w, SaveOnboarding(w.profile, name, interests, frequency, now));
    case SignUpStep(name, interests, frequency, _) =>
      ProfileKeeps(w, SignUpAgain(w.profile, name, interests, frequency));
    case FrequencyStep(frequency, _) => ProfileKeeps(w, w.profile.(frequency := frequency));
    case SuggestStep(c, now) =>
      var interests := Matching.InterestList(Text.Split(w.profile.interests, ','));
      WordingKeepsOffers(w, c, interests, now);
      BookKeeps(w, Suggestions.Suggest(c.vocabulary, interests, c.events, w.book, now).book);
    case AcceptStep(_) =>
      AcceptKeepsIds(w.book);
      BookKeeps(w, Suggestions.Accept(w.book));
  }

  // ----- whole runs ------------------------------------------------------------------------------

  lemma {:induction false} RunKeeps(w: World, run: seq<Step>)
    requires Inv(w)
    ensures Inv(RunFrom(w, run)) && Extends(w, RunFrom(w, run))
  {
    ExtendsReflexive(w);
    if run != [] {
      var mid := RunFrom(w, run[..|run| - 1]);
      RunKeeps(w, run[..|run| - 1]);
      StepKeeps(mid, run[|run| - 1]);
      ExtendsTransitive(w, mid, RunFrom(w, run));
    }
  }

  predicate ItemAt(w: World, s: int, i: int) {
    0 <= s < |w.sessions| && 0 <= i < |w.sessions[s].items|
  }

  /** Once an item is settled its whole row is settled for good. */
  lemma SettledForGood(w: World, run: seq<Step>, s: int, i: int)
    requires Inv(w) && ItemAt(w, s, i) && w.sessions[s].items[i].Settled()
    ensures ItemAt(RunFrom(w, run), s, i) && RunFrom(w, run).sessions[s].items[i] == w.sessions[s].items[i]
  {
    RunKeeps(w, run);
    assert SessionExtends(w.sessions[s], RunFrom(w, run).sessions[s]);
    assert ItemExtends(w.sessions[s].items[i], RunFrom(w, run).sessions[s].items[i]);
  }

  /** Worlds each of which follows from the one before as a step's does. */
  predicate Chain(ws: seq<World>) {
    && (forall k :: 0 <= k < |ws| ==> Inv(ws[k]))
    && forall k :: 0 < k < |ws| ==> Kept(ws[k - 1], ws[k])
  }

  /** The worlds a run goes through, first to last. */
  function History(w: World, run: seq<Step>): (ws: seq<World>)
    ensures |ws| == |run| + 1 && ws[0] == w && ws[|run|] == RunFrom(w, run)
  {
    if run == [] then [w] else History(w, run[..|run| - 1]) + [RunFrom(w, run)]
  }

  lemma {:induction false} HistoryIsAChain(w: World, run: seq<Step>)
    requires Inv(w)
    ensures Chain(History(w, run))
  {
    if run != [] {
      var front, step := run[..|run| - 1], run[|run| - 1];
      HistoryIsAChain(w, front);
      RunKeeps(w, front);
      StepKeeps(RunFrom(w, front), step);
      ChainSnoc(History(w, front), RunFrom(w, run));
    }
  }

  lemma ChainSnoc(ws: seq<World>, w: World)
    requires Chain(ws) && ws != [] && Kept(ws[|ws| - 1], w)
    ensures Chain(ws + [w])
  {
  }

  lemma {:induction false} ChainExtends(ws: seq<World>, a: int, b: int)
    requires Chain(ws) && 0 <= a <= b < |ws|
    ensures Extends(ws[a], ws[b])
    decreases b - a
  {
    if a == b {
      ExtendsReflexive(ws[a]);
    } else {
      ChainExtends(ws, a, b - 1);
      assert Kept(ws[b - 1], ws[b]);
      ExtendsTransitive(ws[a], ws[b - 1], ws[b]);
    }
  }

  /** Step `k` settles an item that was there and was open. */
  predicate SettledBy(ws: seq<World>, k: int, s: int, i: int) {
    && 0 <= k < |ws| - 1
    && ItemAt(ws[k], s, i) && !ws[k].sessions[s].items[i].Settled()
    && ItemAt(ws[k + 1], s, i) && ws[k + 1].sessions[s].items[i].Settled()
  }

  lemma EverythingBeforeIsSettled(ws: seq<World>, k: int, s: int, i: int, j: int)
    requires Chain(ws) && SettledBy(ws, k, s, i) && 0 <= j <= i
    ensures ItemAt(ws[k + 1], s, j) && ws[k + 1].sessions[s].items[j].Settled()
  {
    assert Kept(ws[k], ws[k + 1]);
    var a, b := ws[k].sessions[s], ws[k + 1].sessions[s];
    assert SessionExtends(a, b) && InOrder(a.items, b.items) && ItemExtends(a.items[j], b.items[j]);
  }

  /** The items of a session are settled in strictly increasing position. */
  lemma SettledInOrder(ws: seq<World>, k: int, l: int, s: int, i: int, j: int)
    requires Chain(ws) && k < l && SettledBy(ws, k, s, i) && SettledBy(ws, l, s, j)
    ensures i < j
  {
    if j <= i {
      EverythingBeforeIsSettled(ws, k, s, i, j);
      ChainExtends(ws, k + 1, l);
    }
  }

  /** And one at a time. */
  lemma OneAtATime(ws: seq<World>, k: int, s: int, i: int, j: int)
    requires Chain(ws) && SettledBy(ws, k, s, i) && SettledBy(ws, k, s, j)
    ensures i == j
  {
    assert Kept(ws[k], ws[k + 1]);
    assert InOrder(ws[k].sessions[s].items, ws[k + 1].sessions[s].items);
  }

  /** On every run, a question that was asked and not settled is the first unsettled one of its
      session, it has words, and an offer in it names an event that was in fact suggested. */
  lemma OnlyTheCurrentQuestionIsOnTheTable(
    name: string, interests: string, frequency: string, run: seq<Step>, s: int, i: int)
    requires ItemAt(RunFrom(NewPerson(name, interests, frequency), run), s, i)
    ensures var w := RunFrom(NewPerson(name, interests, frequency), run);
      var it := w.sessions[s].items[i];
      && (it.Asked() ==> it.prompt != Blank)
      && (it.Asked() && !it.Settled() ==> forall k :: 0 <= k < i ==> w.sessions[s].items[k].Settled())
      && (it.prompt.Offering? ==> Suggestions.WasOffered(w.book.offers, it.prompt.event))
  {
    var start := NewPerson(name, interests, frequency);
    RunKeeps(start, run);
    var w := RunFrom(start, run);
    assert SessionSound(w.sessions[s], Offered(w));
    assert ItemSound(w.sessions[s].items[i], Offered(w));
  }

  /** Onboarding is for good, every check-in session belongs to someone onboarded, and an
      introduction is closed exactly when its last question is settled. */
  lemma OnboardingIsOneWay(w: World, run: seq<Step>, s: int)
    requires Inv(w) && 0 <= s < |RunFrom(w, run).sessions|
    ensures w.profile.Onboarded() ==> RunFrom(w, run).profile.onboardedAt == w.profile.onboardedAt
    ensures var w' := RunFrom(w, run);
      && (w'.sessions[s].flow.Checkin? ==> w'.profile.Onboarded() && w'.sessions[s].open)
      && (w'.sessions[s].flow.Onboarding? ==> (w'.sessions[s].open <==> !AllSettled(w'.sessions[s])))
      && (!w'.sessions[s].open ==> w'.profile.Onboarded())
  {
    RunKeeps(w, run);
    assert SessionLive(RunFrom(w, run).sessions[s], RunFrom(w, run).profile.Onboarded());
  }
}
