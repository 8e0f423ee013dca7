/** What is remembered between sessions, and what is never asked again. */
module InterviewMemory {
  import opened Clock
  import opened Options
  import opened Checklist
  import opened InterviewInvariant
  import opened InterviewRuns
  import InterviewProgress
  import Text

  lemma {:induction false} RowsHold(sessions: seq<Session>, s: int, i: int)
    requires 0 <= s < |sessions| && 0 <= i < |sessions[s].items|
    ensures sessions[s].items[i] in Rows(sessions)
  {
    var n := |sessions| - 1;
    if s < n {
      RowsHold(sessions[..n], s, i);
    }
  }

  /** Some session of `w` holds `it`. */
  predicate HeldBy(sessions: seq<Session>, it: Item) {
    exists s, i :: 0 <= s < |sessions| && 0 <= i < |sessions[s].items| && sessions[s].items[i] == it
  }

  lemma {:induction false} RowsAreHeld(sessions: seq<Session>, it: Item)
    requires it in Rows(sessions)
    ensures HeldBy(sessions, it)
  {
    var n := |sessions| - 1;
    if it in sessions[n].items {
      var i :| 0 <= i < |sessions[n].items| && sessions[n].items[i] == it;
    } else {
      RowsAreHeld(sessions[..n], it);
      var s, i :| 0 <= s < n && 0 <= i < |sessions[..n][s].items| && sessions[..n][s].items[i] == it;
      assert sessions[s].items[i] == it;
    }
  }

  /** Somebody answered or refused the question in some session. */
  ghost predicate EverSaid(w: World, key: Key) {
    exists s, i :: ItemAt(w, s, i) && Speaks(w.sessions[s].items[i], key)
  }

  lemma SaidIsFound(w: World, key: Key)
    ensures EverSaid(w, key) <==> LastSettled(Rows(w.sessions), key).Some?
  {
    var last := LastSettled(Rows(w.sessions), key);
    if last.Some? {
      RowsAreHeld(w.sessions, last.value);
      var s, i :| 0 <= s < |w.sessions| && 0 <= i < |w.sessions[s].items| && w.sessions[s].items[i] == last.value;
      assert ItemAt(w, s, i);
    } else if EverSaid(w, key) {
      var s, i :| ItemAt(w, s, i) && Speaks(w.sessions[s].items[i], key);
      RowsHold(w.sessions, s, i);
    }
  }

  /** The row every other row that speaks is no newer than. */
  ghost predicate NewestSaying(w: World, key: Key, it: Item) {
    && HeldBy(w.sessions, it) && Speaks(it, key)
    && forall s, i :: ItemAt(w, s, i) && Speaks(w.sessions[s].items[i], key) ==> StampOf(w.sessions[s].items[i]) <= StampOf(it)
  }

  /** The profile has a name, or interests, to show. */
  predicate OnProfile(p: Profile, key: Key) {
    (key.Name? && Text.TrimSpace(p.DisplayName()) != "") || (key.EventTypes? && Text.TrimSpace(p.interests) != "")
  }

  /** A question starts a new session settled exactly when it is not tied to one session and is
      either on the profile, or was answered or refused with a stamp still inside its time to
      live.  A question only ever skipped starts unanswered. */
  lemma StartsSettledExactlyWhen(w: World, key: Key, now: Time)
    ensures StartItem(key, w, now).Settled() <==>
              && !PerSession(key)
              && (|| OnProfile(w.profile, key)
                  || (Ttl(key) == 0 && EverSaid(w, key))
                  || (exists it :: NewestSaying(w, key, it) && now - StampOf(it) <= Ttl(key)))
  {
    SaidIsFound(w, key);
    var last := LastSettled(Rows(w.sessions), key);
    if last.Some? {
      RowsAreHeld(w.sessions, last.value);
      forall s, i | ItemAt(w, s, i) && Speaks(w.sessions[s].items[i], key)
        ensures StampOf(w.sessions[s].items[i]) <= StampOf(last.value)
      {
        RowsHold(w.sessions, s, i);
      }
      assert NewestSaying(w, key, last.value);
      NewestAgree(w, key, last.value);
    }
  }

  /** And it starts with the answer there is: the name or the interests on the profile, else the words
      and the status of what was said last; a question that is not settled starts blank. */
  lemma StartsWithWhatIsKnown(w: World, key: Key, now: Time)
    ensures var start := StartItem(key, w, now);
      if !start.Settled() then start.answer == "" && start.answeredAt.None?
      else
        && start.answeredAt == Some(now)
        && (if OnProfile(w.profile, key)
            then start.status.Answered? && start.source == OnFile
                 && start.answer == Text.TrimSpace(if key.Name? then w.profile.DisplayName() else w.profile.interests)
            else start.source == Conversation
                 && exists it :: NewestSaying(w, key, it) && start.status == it.status && start.answer == it.answer)
  {
    SaidIsFound(w, key);
    var last := LastSettled(Rows(w.sessions), key);
    if last.Some? {
      RowsAreHeld(w.sessions, last.value);
      forall s, i | ItemAt(w, s, i) && Speaks(w.sessions[s].items[i], key)
        ensures StampOf(w.sessions[s].items[i]) <= StampOf(last.value)
      {
        RowsHold(w.sessions, s, i);
      }
      assert NewestSaying(w, key, last.value);
    }
  }

  lemma SaidOnceSaidAlways(w: World, run: seq<Step>, key: Key)
    requires Inv(w) && EverSaid(w, key)
    ensures EverSaid(RunFrom(w, run), key)
  {
    var s, i :| ItemAt(w, s, i) && Speaks(w.sessions[s].items[i], key);
    SettledForGood(w, run, s, i);
    assert ItemAt(RunFrom(w, run), s, i) && Speaks(RunFrom(w, run).sessions[s].items[i], key);
  }

  /** Once a standing question has been answered or refused anywhere, every session created later
      starts with it settled, whatever happens in between. */
  lemma NeverAskedAgain(w: World, run: seq<Step>, s: int, i: int, now: Time)
    requires Inv(w) && ItemAt(w, s, i)
    requires w.sessions[s].items[i].status in {Answered, Declined}
    requires !PerSession(w.sessions[s].items[i].key) && Ttl(w.sessions[s].items[i].key) == 0
    ensures StartItem(w.sessions[s].items[i].key, RunFrom(w, run), now).Settled()
  {
    var it := w.sessions[s].items[i];
    assert SessionSound(w.sessions[s], Offered(w)) && ItemSound(it, Offered(w));
    assert Speaks(it, it.key);
    SaidOnceSaidAlways(w, run, it.key);
    StartsSettledExactlyWhen(RunFrom(w, run), it.key, now);
  }

  /** All sessions but `s` are as they were. */
  predicate TouchesOnly(a: seq<Session>, s: int, b: seq<Session>) {
    |b| == |a| && forall t :: 0 <= t < |a| && t != s ==> b[t] == a[t]
  }

  lemma OnwardTouchesOne(w: World, s: int, c: Catalogue, now: Time)
    requires 0 <= s < |w.sessions|
    ensures TouchesOnly(w.sessions, s, Onward(w, s, c, now).world.sessions)
  {
  }

  lemma RecordTouchesOne(w: World, s: int, key: Key, status: Status, answer: string, now: Time)
    requires 0 <= s < |w.sessions| && Record(w, s, key, status, answer, now).Saved?
    ensures TouchesOnly(w.sessions, s, Record(w, s, key, status, answer, now).world.sessions)
  {
  }

  lemma TurnTouchesOne(w: World, channel: Channel, inbound: string, c: Catalogue, now: Time)
    ensures var e := EnsureSession(w, channel, Onboarding, now);
      TouchesOnly(e.world.sessions, e.s, OnboardingTurn(w, channel, inbound, c, now).world.sessions)
  {
    var e := EnsureSession(w, channel, Onboarding, now);
    if e.s >= 0 {
      var items := e.world.sessions[e.s].items;
      var i := Current(items);
      if i < |items| && items[i].Asked() {
        var (status, answer) := ReadReply(inbound);
        var r := Record(e.world, e.s, items[i].key, status, answer, now);
        if r.Saved? {
          RecordTouchesOne(e.world, e.s, items[i].key, status, answer, now);
          OnwardTouchesOne(Acknowledge(r.world, r.item.key, status, answer), e.s, c, now);
        }
      }
    }
  }

  lemma InterviewReplyTouchesOne(w: World, inbound: string, now: Time)
    ensures var e := EnsureSession(w, Sms, Checkin, now);
      TouchesOnly(e.world.sessions, e.s, InterviewReply(w, inbound, now).world.sessions)
  {
    var e := EnsureSession(w, Sms, Checkin, now);
    var items := e.world.sessions[e.s].items;
    var i := Current(items);
    if i < |items| && items[i].Asked() {
      var (status, answer) := ReadReply(inbound);
      if Record(e.world, e.s, items[i].key, status, answer, now).Saved? {
        RecordTouchesOne(e.world, e.s, items[i].key, status, answer, now);
      }
    }
  }

  lemma SaveTouchesOne(w: World, channel: Channel, key: Key, status: Status, answer: string, c: Catalogue, now: Time)
    ensures var e := EnsureSession(w, channel, FlowFor(w.profile), now);
      TouchesOnly(e.world.sessions, e.s, SaveAnswer(w, channel, key, status, answer, c, now).world.sessions)
  {
    var e := EnsureSession(w, channel, FlowFor(w.profile), now);
    SaveAnswerIs(w, channel, key, status, answer, c, now);
    if e.s >= 0 {
      var r := Record(e.world, e.s, key, status, answer, now);
      if r.Saved? {
        RecordTouchesOne(e.world, e.s, key, status, answer, now);
        OnwardTouchesOne(Acknowledge(r.world, r.item.key, r.item.status, r.item.answer), e.s, c, now);
      }
    }
  }

  lemma NextQuestionTouchesOne(w: World, channel: Channel, c: Catalogue, now: Time)
    ensures var e := EnsureSession(w, channel, FlowFor(w.profile), now);
      TouchesOnly(e.world.sessions, e.s, NextQuestion(w, channel, c, now).world.sessions)
  {
  }

  /** The channel a step takes place on, if it is one that asks or hears anything. */
  function ChannelOf(step: Step): Option<Channel> {
    match step
    case TurnStep(channel, _, _, _) => Some(channel)
    case ReplyStep(_, _, _) => Some(Sms)
    case NextQuestionStep(channel, _, _) => Some(channel)
    case SaveAnswerStep(channel, _, _, _, _, _) => Some(channel)
    case _ => None
  }

  lemma EnsureLeavesOthers(w: World, channel: Channel, flow: Flow, now: Time, t: int)
    requires 0 <= t < |w.sessions| && w.sessions[t].channel != channel
    ensures var e := EnsureSession(w, channel, flow, now);
      t < |e.world.sessions| && e.world.sessions[t] == w.sessions[t] && t != e.s
  {
  }

  /** The promise is about sessions created later: whatever is asked or said on one channel, by text
      or through the agent, leaves a session already under way on another exactly as it was.  Only
      a name given elsewhere reaches across. */
  lemma OpenSessionsDoNotHear(w: World, step: Step, t: int)
    requires 0 <= t < |w.sessions| && ChannelOf(step) != Some(w.sessions[t].channel) && !step.SetNameStep?
    ensures t < |Do(w, step).sessions| && Do(w, step).sessions[t] == w.sessions[t]
  {
    match step
    case TurnStep(channel, inbound, c, now) =>
      EnsureLeavesOthers(w, channel, Onboarding, now, t);
      TurnTouchesOne(w, channel, inbound, c, now);
    case ReplyStep(inbound, c, now) =>
      EnsureLeavesOthers(w, Sms, FlowFor(w.profile), now, t);
      if w.profile.Onboarded() {
        InterviewReplyTouchesOne(w, inbound, now);
      } else {
        TurnTouchesOne(w, Sms, inbound, c, now);
      }
    case NextQuestionStep(channel, c, now) =>
      EnsureLeavesOthers(w, channel, FlowFor(w.profile), now, t);
      NextQuestionTouchesOne(w, channel, c, now);
    case SaveAnswerStep(channel, key, status, answer, c, now) =>
      EnsureLeavesOthers(w, channel, FlowFor(w.profile), now, t);
      SaveTouchesOne(w, channel, key, status, answer, c, now);
    case _ =>
  }

  lemma CarriedIsNewest(w: World, it: Item, channel: Channel, now: Time)
    requires Inv(w) && w.profile.Onboarded() && !channel.UnknownChannel?
    requires FindOpen(w.sessions, channel, Checkin) < 0
    requires NewestSaying(w, EveningAvailability, it) && 0 <= now - StampOf(it) <= Ttl(EveningAvailability)
    ensures var w' := EnsureSession(w, channel, Checkin, now).world;
      NewestSaying(w', EveningAvailability, StartItem(EveningAvailability, w, now))
      && StampOf(StartItem(EveningAvailability, w, now)) == now
  {
    var w' := EnsureSession(w, channel, Checkin, now).world;
    var copy := StartItem(EveningAvailability, w, now);
    StartsSettledExactlyWhen(w, EveningAvailability, now);
    var n := |w.sessions|;
    assert w'.sessions[n].items[0] == copy;
    forall s, i | ItemAt(w', s, i) && Speaks(w'.sessions[s].items[i], EveningAvailability)
      ensures StampOf(w'.sessions[s].items[i]) <= now
    {
      if s < n {
        assert w'.sessions[s] == w.sessions[s] && ItemAt(w, s, i);
      }
    }
  }

  /** An answer gone stale is not carried, and stays the newest there is. */
  lemma StaleStaysNewest(w: World, it: Item, channel: Channel, now: Time)
    requires Inv(w) && w.profile.Onboarded() && !channel.UnknownChannel?
    requires FindOpen(w.sessions, channel, Checkin) < 0
    requires NewestSaying(w, EveningAvailability, it) && now - StampOf(it) > Ttl(EveningAvailability)
    ensures NewestSaying(EnsureSession(w, channel, Checkin, now).world, EveningAvailability, it)
  {
    var w' := EnsureSession(w, channel, Checkin, now).world;
    var n := |w.sessions|;
    StartsSettledExactlyWhen(w, EveningAvailability, now);
    NewestAgree(w, EveningAvailability, it);
    HeldInFront(w.sessions, w'.sessions, it);
    forall s, i | ItemAt(w', s, i) && Speaks(w'.sessions[s].items[i], EveningAvailability)
      ensures StampOf(w'.sessions[s].items[i]) <= StampOf(it)
    {
      if s < n {
        assert w'.sessions[s] == w.sessions[s] && ItemAt(w, s, i);
      }
    }
  }

  lemma HeldInFront(front: seq<Session>, all: seq<Session>, it: Item)
    requires front <= all && HeldBy(front, it)
    ensures HeldBy(all, it)
  {
    var s, i :| 0 <= s < |front| && 0 <= i < |front[s].items| && front[s].items[i] == it;
    assert all[s] == front[s];
  }

  /** The newest answer decides, and nobody's profile does. */
  lemma EveningStartsSettledExactlyWhen(w: World, it: Item, now: Time)
    requires NewestSaying(w, EveningAvailability, it)
    ensures StartItem(EveningAvailability, w, now).Settled() <==> now - StampOf(it) <= 20 * HOUR
  {
    StartsSettledExactlyWhen(w, EveningAvailability, now);
    NewestAgree(w, EveningAvailability, it);
  }

  /** Carrying an answer stamps it anew.  Asked for directly, an answer is good for twenty hours; by
      way of a session started in between it is good exactly when it was good when that session
      started and the copy made then is good now, and so for up to forty. */
  lemma CarriedAnswersOutliveTheirTtl(w: World, it: Item, channel: Channel, hop: Time, now: Time)
    requires Inv(w) && w.profile.Onboarded() && !channel.UnknownChannel?
    requires FindOpen(w.sessions, channel, Checkin) < 0
    requires NewestSaying(w, EveningAvailability, it) && StampOf(it) <= hop <= now
    ensures StartItem(EveningAvailability, w, now).Settled() <==> now - StampOf(it) <= 20 * HOUR
    ensures StartItem(EveningAvailability, EnsureSession(w, channel, Checkin, hop).world, now).Settled()
       <==> hop - StampOf(it) <= 20 * HOUR && now - hop <= 20 * HOUR
  {
    EveningStartsSettledExactlyWhen(w, it, now);
    var w' := EnsureSession(w, channel, Checkin, hop).world;
    if hop - StampOf(it) <= 20 * HOUR {
      CarriedIsNewest(w, it, channel, hop);
      EveningStartsSettledExactlyWhen(w', StartItem(EveningAvailability, w, hop), now);
    } else {
      StaleStaysNewest(w, it, channel, hop);
      EveningStartsSettledExactlyWhen(w', it, now);
    }
  }

  lemma NewestAgree(w: World, key: Key, it: Item)
    requires NewestSaying(w, key, it)
    ensures forall other :: NewestSaying(w, key, other) ==> StampOf(other) == StampOf(it)
  {
    var s, i :| 0 <= s < |w.sessions| && 0 <= i < |w.sessions[s].items| && w.sessions[s].items[i] == it;
    assert ItemAt(w, s, i);
    forall other | NewestSaying(w, key, other) ensures StampOf(other) == StampOf(it) {
      var s', i' :| 0 <= s' < |w.sessions| && 0 <= i' < |w.sessions[s'].items| && w.sessions[s'].items[i'] == other;
      assert ItemAt(w, s', i');
    }
  }

  // ----- how many sessions there can be ----------------------------------------------------------

  function Place(s: Session): int
    requires !s.channel.UnknownChannel?
    ensures 0 <= Place(s) < 6
  {
    (match s.channel case Call => 0 case Sms => 1 case _ => 2) + if s.flow.Onboarding? then 0 else 3
  }

  lemma {:induction false} PlacesAreDistinct(sessions: seq<Session>, places: set<int>)
    requires Unique(sessions) && forall s :: 0 <= s < |sessions| ==> !sessions[s].channel.UnknownChannel?
    requires forall s :: 0 <= s < |sessions| ==> Place(sessions[s]) in places
    ensures |sessions| <= |places|
  {
    if sessions != [] {
      var n := |sessions| - 1;
      PlacesAreDistinct(sessions[..n], places - {Place(sessions[n])});
    }
  }

  /** Over any run there is at most one session for each channel and flow, so at most six in all. */
  lemma SessionsAreFew(w: World)
    requires Inv(w)
    ensures |w.sessions| <= 6
  {
    var places := {0, 1, 2, 3, 4, 5};
    forall s | 0 <= s < |w.sessions| ensures !w.sessions[s].channel.UnknownChannel? {
      assert SessionSound(w.sessions[s], Offered(w));
    }
    PlacesAreDistinct(w.sessions, places);
  }

  /** The check-in questions are asked once per channel and never again, the evening question with
      its twenty hours included: the session stays open, so none is started afresh.  The agent is
      told there is nothing to ask, and a text goes to the model. */
  lemma CheckinsAreAskedOnce(w: World, run: seq<Step>, s: int, inbound: string, c: Catalogue, now: Time)
    requires Inv(w) && 0 <= s < |w.sessions|
    requires w.sessions[s].flow.Checkin? && AllSettled(w.sessions[s])
    ensures NextQuestion(RunFrom(w, run), w.sessions[s].channel, c, now) == Turn(RunFrom(w, run), Complete)
    ensures w.sessions[s].channel.Sms? ==>
              InterviewReply(RunFrom(w, run), inbound, now) == Turn(RunFrom(w, run), Unhandled)
  {
    RunKeeps(w, run);
    var w' := RunFrom(w, run);
    var a, b := w.sessions[s], w'.sessions[s];
    assert SessionExtends(a, b) && SessionLive(b, w'.profile.Onboarded());
    assert SessionSound(a, Offered(w));
    InterviewProgress.RemainingNeverGrows(a, b);
    InterviewProgress.NothingRemains(a.items);
    InterviewProgress.NothingRemains(b.items);
    InterviewProgress.TheOpenOneIsFound(w', s);
  }
  // ----- one check-in question -------------------------------------------------------------------

  /** What is said puts this question to the person, for the first time or again. */
  predicate Puts(said: Said, key: Key) {
    (said.Ask? || said.AskAgain? || said.DidNotGet?) && said.prompt == Fixed(key)
  }

  /** Question `i` of check-in session `s` is settled, and texts and tools on its channel go to that
      session. */
  predicate SettledHere(w: World, s: int, i: int) {
    && Inv(w) && ItemAt(w, s, i) && w.sessions[s].flow.Checkin? && w.sessions[s].items[i].Settled()
    && FindOpen(w.sessions, w.sessions[s].channel, Checkin) == s
  }

  lemma StaysSettledHere(w: World, run: seq<Step>, s: int, i: int)
    requires Inv(w) && ItemAt(w, s, i) && w.sessions[s].flow.Checkin? && w.sessions[s].items[i].Settled()
    ensures SettledHere(RunFrom(w, run), s, i) && RunFrom(w, run).sessions[s].items[i] == w.sessions[s].items[i]
    ensures RunFrom(w, run).sessions[s].channel == w.sessions[s].channel
  {
    RunKeeps(w, run);
    SettledForGood(w, run, s, i);
    var w' := RunFrom(w, run);
    assert SessionExtends(w.sessions[s], w'.sessions[s]) && SessionLive(w'.sessions[s], w'.profile.Onboarded());
    InterviewProgress.TheOpenOneIsFound(w', s);
  }

  /** Each check-in question has its own words. */
  lemma OtherQuestionsDiffer(w: World, s: int, i: int, j: int)
    requires Inv(w) && ItemAt(w, s, i) && ItemAt(w, s, j) && i != j && w.sessions[s].flow.Checkin?
    ensures !Dynamic(w.sessions[s].items[j].key)
    ensures w.sessions[s].items[j].prompt == Fixed(w.sessions[s].items[j].key) != Fixed(w.sessions[s].items[i].key)
  {
    var ses := w.sessions[s];
    assert SessionSound(ses, Offered(w)) && ItemSound(ses.items[j], Offered(w));
    assert ses.items[i].key == CHECKIN_TEMPLATE[i] && ses.items[j].key == CHECKIN_TEMPLATE[j];
  }

  lemma ToolDoesNotPut(w: World, s: int, i: int, c: Catalogue, now: Time)
    requires SettledHere(w, s, i)
    ensures !Puts(NextQuestion(w, w.sessions[s].channel, c, now).said, w.sessions[s].items[i].key)
  {
    assert SessionSound(w.sessions[s], Offered(w)) && SessionLive(w.sessions[s], w.profile.Onboarded());
    var j := Current(w.sessions[s].items);
    if j < |w.sessions[s].items| {
      OtherQuestionsDiffer(w, s, i, j);
    }
  }

  /** Once saved, session `s` has the same questions as before, and the settled one still is. */
  predicate StillSettled(w: World, w1: World, s: int, i: int) {
    && ItemAt(w, s, i) && ItemAt(w1, s, i) && |w1.sessions[s].items| == |w.sessions[s].items|
    && w1.sessions[s].flow == w.sessions[s].flow && w1.sessions[s].items[i].Settled()
    && forall k :: 0 <= k < |w.sessions[s].items| ==>
         w1.sessions[s].items[k].prompt == w.sessions[s].items[k].prompt
         && w1.sessions[s].items[k].key == w.sessions[s].items[k].key
  }

  lemma PuttingStaysSettled(w: World, s: int, i: int, j: int, it: Item, p: Profile)
    requires ItemAt(w, s, i) && ItemAt(w, s, j) && w.sessions[s].items[i].Settled() && it.Settled()
    requires it.key == w.sessions[s].items[j].key && it.prompt == w.sessions[s].items[j].prompt
    ensures StillSettled(w, Put(w, s, j, it).(profile := p), s, i)
  {
  }

  /** Settling the current question leaves the others' words, and what was settled. */
  lemma RecordedStaysSettled(w: World, s: int, i: int, key: Key, status: Status, answer: string, now: Time)
    requires SettledHere(w, s, i) && Record(w, s, key, status, answer, now).Saved?
    ensures var r := Record(w, s, key, status, answer, now);
      StillSettled(w, r.world, s, i)
  {
    var r := Record(w, s, key, status, answer, now);
    PuttingStaysSettled(w, s, i, Current(w.sessions[s].items), r.item, r.world.profile);
  }

  lemma TextDoesNotPut(w: World, s: int, i: int, inbound: string, now: Time)
    requires SettledHere(w, s, i) && w.sessions[s].channel.Sms?
    ensures !Puts(InterviewReply(w, inbound, now).said, w.sessions[s].items[i].key)
  {
    var items := w.sessions[s].items;
    var j := Current(items);
    if j < |items| {
      OtherQuestionsDiffer(w, s, i, j);
      var (status, answer) := ReadReply(inbound);
      var r := Record(w, s, items[j].key, status, answer, now);
      if r.Saved? {
        RecordedStaysSettled(w, s, i, items[j].key, status, answer, now);
        var next := Current(r.world.sessions[s].items);
        if next < |items| {
          OtherQuestionsDiffer(w, s, i, next);
        }
      }
    }
  }

  lemma OnwardPuts(w: World, s: int, c: Catalogue, now: Time)
    requires 0 <= s < |w.sessions| && Current(w.sessions[s].items) < |w.sessions[s].items|
    requires !Dynamic(w.sessions[s].items[Current(w.sessions[s].items)].key)
    ensures Onward(w, s, c, now).said == Ask(w.sessions[s].items[Current(w.sessions[s].items)].prompt)
  {
  }

  lemma GoingOnDoesNotPut(w: World, w1: World, s: int, i: int, it: Item, c: Catalogue, now: Time)
    requires SettledHere(w, s, i) && StillSettled(w, w1, s, i)
    ensures !Puts(AfterSave(w1, s, it, c, now).said, w.sessions[s].items[i].key)
  {
    var w2 := Acknowledge(w1, it.key, it.status, it.answer);
    assert w2.sessions == w1.sessions;
    var next := Current(w2.sessions[s].items);
    if next < |w2.sessions[s].items| {
      OtherQuestionsDiffer(w, s, i, next);
      OnwardPuts(w2, s, c, now);
    }
  }

  lemma SavingDoesNotPut(w: World, s: int, i: int, key: Key, status: Status, answer: string, c: Catalogue, now: Time)
    requires SettledHere(w, s, i)
    ensures !Puts(SaveAnswer(w, w.sessions[s].channel, key, status, answer, c, now).said, w.sessions[s].items[i].key)
  {
    assert SessionSound(w.sessions[s], Offered(w)) && SessionLive(w.sessions[s], w.profile.Onboarded());
    if Record(w, s, key, status, answer, now).Saved? {
      RecordedStaysSettled(w, s, i, key, status, answer, now);
      var r := Record(w, s, key, status, answer, now);
      GoingOnDoesNotPut(w, r.world, s, i, r.item, c, now);
    }
  }

  /** Each check-in question by itself: once settled on a channel its row stays as it is, stamp and
      all, and on no run is it put there again, not by text, not when the agent asks what is next, not
      after an answer is saved.  The evening question is one of them, however long ago it was. */
  lemma SettledCheckinIsNeverPutAgain(
    w: World, run: seq<Step>, s: int, i: int, inbound: string, key: Key, status: Status, answer: string,
    c: Catalogue, now: Time)
    requires Inv(w) && ItemAt(w, s, i) && w.sessions[s].flow.Checkin? && w.sessions[s].items[i].Settled()
    ensures var w' := RunFrom(w, run);
      var channel, asked := w.sessions[s].channel, w.sessions[s].items[i].key;
      && ItemAt(w', s, i) && w'.sessions[s].items[i] == w.sessions[s].items[i]
      && !Puts(NextQuestion(w', channel, c, now).said, asked)
      && !Puts(SaveAnswer(w', channel, key, status, answer, c, now).said, asked)
      && (channel.Sms? ==> !Puts(InterviewReply(w', inbound, now).said, asked))
  {
    StaysSettledHere(w, run, s, i);
    var w' := RunFrom(w, run);
    ToolDoesNotPut(w', s, i, c, now);
    SavingDoesNotPut(w', s, i, key, status, answer, c, now);
    if w.sessions[s].channel.Sms? {
      TextDoesNotPut(w', s, i, inbound, now);
    }
  }
}
