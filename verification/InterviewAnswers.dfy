/** What a reply does to the question it answers, said without the steps in between: from the words
    of a text, or the status the agent gives, to the row, the profile and the scheduler. */
module InterviewAnswers {
  import opened Clock
  import opened Options
  import opened Checklist
  import opened InterviewRuns
  import InterviewLastWord
  import InterviewProgress
  import Outreach
  import Replies
  import Scheduler
  import Text

  // ----- what should come of a reply -------------------------------------------------------------

  /** Words the question can do something with. */
  predicate Acceptable(key: Key, words: string) {
    match key
    case Name => Replies.NormaliseName(words) != ""
    case EventTypes => Replies.NormaliseInterests(words) != ""
    case _ => true
  }

  function Filed(it: Item, status: Status, words: string, now: Time): Item {
    Item(it.key, it.prompt, status, words, Conversation, it.askedAt, Some(now))
  }

  /** A skip and a refusal are kept as what they are, without words; an answer with its words, when
      they can be used; silence and anything else leaves the question as it was. */
  function RowAfter(it: Item, heard: Replies.Reading, now: Time): Item {
    match heard
    case Silence => it
    case Skip => Filed(it, Skipped, "", now)
    case Refusal => Filed(it, Declined, "", now)
    case Says(words) => if Acceptable(it.key, words) then Filed(it, Answered, words, now) else it
  }

  /** What a person has told about themselves: a name and interests in the form they are kept, and a
      cadence when the answer about check-ins names one. */
  predicate ToldBy(before: Profile, after: Profile, key: Key, words: string) {
    && after.name == (if key.Name? then Replies.NormaliseName(words) else before.name)
    && after.interests == (if key.EventTypes? then Replies.NormaliseInterests(words) else before.interests)
    && after.frequency == (if key.CheckinConsent? && Replies.NormaliseFrequency(words) != ""
                           then Replies.NormaliseFrequency(words) else before.frequency)
  }

  predicate ToldNothing(before: Profile, after: Profile) {
    after.name == before.name && after.interests == before.interests && after.frequency == before.frequency
  }

  predicate ProfileFollows(before: Profile, after: Profile, key: Key, heard: Replies.Reading) {
    if heard.Says? && Acceptable(key, heard.answer) then ToldBy(before, after, key, heard.answer)
    else ToldNothing(before, after)
  }

  /** The current question of session `s` has been put. */
  predicate Waiting(w: World, s: int) {
    0 <= s < |w.sessions|
    && var items := w.sessions[s].items;
       Current(items) < |items| && items[Current(items)].Asked()
  }

  /** Question `i` of session `s` is now `it`. */
  predicate RowIs(w: World, s: int, i: int, it: Item) {
    ItemAt(w, s, i) && w.sessions[s].items[i] == it
  }

  // ----- recording -------------------------------------------------------------------------------

  /** What comes of recording a status and words for the current question. */
  predicate RecordedAs(w: World, s: int, key: Key, status: Status, words: string, now: Time)
    requires 0 <= s < |w.sessions|
  {
    var items := w.sessions[s].items;
    var i := Current(items);
    var r := Record(w, s, key, status, words, now);
    if i < |items| && items[i].key == key && !status.Unanswered?
       && (status.Answered? ==> Text.TrimSpace(words) != "" && Acceptable(key, Text.TrimSpace(words)))
    then
      && r.Saved? && r.item == Filed(items[i], status, Text.TrimSpace(words), now)
      && r.world.book == w.book && RowIs(r.world, s, i, r.item) && |r.world.sessions| == |w.sessions|
      && |r.world.sessions[s].items| == |items| && Current(r.world.sessions[s].items) > i
      && (if status.Answered? then ToldBy(w.profile, r.world.profile, key, Text.TrimSpace(words))
          else ToldNothing(w.profile, r.world.profile))
    else r.Refused?
  }

  lemma PersistedTells(p: Profile, key: Key, words: string)
    ensures Persisted(p, key, words).Some? <==> Acceptable(key, words)
    ensures Persisted(p, key, words).Some? ==> ToldBy(p, Persisted(p, key, words).value, key, words)
  {
  }

  lemma PutSettles(w: World, s: int, it: Item, p: Profile)
    requires 0 <= s < |w.sessions| && Current(w.sessions[s].items) < |w.sessions[s].items| && it.Settled()
    ensures var i := Current(w.sessions[s].items);
      var w1 := Put(w, s, i, it).(profile := p);
      && w1.book == w.book && w1.profile == p && RowIs(w1, s, i, it) && |w1.sessions| == |w.sessions|
      && |w1.sessions[s].items| == |w.sessions[s].items| && Current(w1.sessions[s].items) > i
  {
    var items := w.sessions[s].items;
    var i := Current(items);
    assert forall k :: 0 <= k < i ==> items[i := it][k] == items[k];
  }

  lemma RecordFiles(w: World, s: int, key: Key, status: Status, words: string, now: Time)
    requires 0 <= s < |w.sessions|
    ensures RecordedAs(w, s, key, status, words, now)
  {
    var items := w.sessions[s].items;
    var i := Current(items);
    var said := Text.TrimSpace(words);
    PersistedTells(w.profile, key, said);
    if i < |items| && !status.Unanswered? {
      var p := if status.Answered? then Persisted(w.profile, key, said).GetOr(w.profile) else w.profile;
      PutSettles(w, s, Filed(items[i], status, said, now), p);
      RecordIs(w, s, key, status, words, now);
    }
  }

  lemma RecordIs(w: World, s: int, key: Key, status: Status, words: string, now: Time)
    requires 0 <= s < |w.sessions| && Current(w.sessions[s].items) < |w.sessions[s].items| && !status.Unanswered?
    ensures var items := w.sessions[s].items;
      var i := Current(items);
      var said := Text.TrimSpace(words);
      var p := if status.Answered? then Persisted(w.profile, key, said) else Some(w.profile);
      if items[i].key == key && (status.Answered? ==> said != "") && p.Some?
      then Record(w, s, key, status, words, now)
           == Saved(Put(w, s, i, Filed(items[i], status, said, now)).(profile := p.value), Filed(items[i], status, said, now))
      else Record(w, s, key, status, words, now).Refused?
  {
  }

  /** Going on leaves a settled row and what was told alone. */
  lemma OnwardLeaves(w: World, s: int, i: int, c: Catalogue, now: Time)
    requires ItemAt(w, s, i) && i < Current(w.sessions[s].items)
    ensures RowIs(Onward(w, s, c, now).world, s, i, w.sessions[s].items[i])
    ensures ToldNothing(w.profile, Onward(w, s, c, now).world.profile)
  {
  }

  lemma AfterSaveLeaves(w: World, s: int, i: int, it: Item, c: Catalogue, now: Time)
    requires ItemAt(w, s, i) && i < Current(w.sessions[s].items)
    ensures RowIs(AfterSave(w, s, it, c, now).world, s, i, w.sessions[s].items[i])
    ensures ToldNothing(w.profile, AfterSave(w, s, it, c, now).world.profile)
  {
    OnwardLeaves(Acknowledge(w, it.key, it.status, it.answer), s, i, c, now);
  }

  lemma MarkingLeaves(w: World, s: int, i: int, next: int, now: Time)
    requires ItemAt(w, s, i) && ItemAt(w, s, next) && i < next
    ensures RowIs(MarkAsked(w, s, next, now), s, i, w.sessions[s].items[i])
    ensures MarkAsked(w, s, next, now).profile == w.profile
  {
  }

  lemma ToldOnward(p: Profile, q: Profile, r: Profile, key: Key, words: string)
    requires ToldNothing(q, r)
    ensures ToldBy(p, q, key, words) ==> ToldBy(p, r, key, words)
    ensures ToldNothing(p, q) ==> ToldNothing(p, r)
  {
  }

  // ----- an introduction -------------------------------------------------------------------------

  /** The reply has been filed as it was heard. */
  predicate FiledAs(w: World, s: int, heard: Replies.Reading, w': World, now: Time) {
    Waiting(w, s)
    && var i := Current(w.sessions[s].items);
       && RowIs(w', s, i, RowAfter(w.sessions[s].items[i], heard, now))
       && ProfileFollows(w.profile, w'.profile, w.sessions[s].items[i].key, heard)
  }

  lemma NothingHeard(w: World, s: int, heard: Replies.Reading, now: Time)
    requires Waiting(w, s)
    requires heard.Silence? || (heard.Says? && !Acceptable(w.sessions[s].items[Current(w.sessions[s].items)].key, heard.answer))
    ensures FiledAs(w, s, heard, w, now)
  {
  }

  /** Recorded, and gone on from. */
  lemma SavedAndOnward(w: World, s: int, heard: Replies.Reading, status: Status, words: string, w1: World, w2: World, now: Time)
    requires Waiting(w, s)
    requires var it := w.sessions[s].items[Current(w.sessions[s].items)];
      && RowAfter(it, heard, now) == Filed(it, status, words, now)
      && RowIs(w1, s, Current(w.sessions[s].items), Filed(it, status, words, now))
      && (heard.Says? ==> Acceptable(it.key, heard.answer) && ToldBy(w.profile, w1.profile, it.key, heard.answer))
      && (!heard.Says? ==> ToldNothing(w.profile, w1.profile))
    requires RowIs(w2, s, Current(w.sessions[s].items), w1.sessions[s].items[Current(w.sessions[s].items)])
    requires ToldNothing(w1.profile, w2.profile)
    ensures FiledAs(w, s, heard, w2, now)
  {
  }

  /** The words a reading comes with, and the status it stands for. */
  function StatusOf(heard: Replies.Reading): Status {
    match heard
    case Silence => Unanswered
    case Skip => Skipped
    case Refusal => Declined
    case Says(_) => Answered
  }

  function WordsOf(heard: Replies.Reading): string {
    if heard.Says? then heard.answer else ""
  }

  lemma ReadingsAreTrimmed(inbound: string)
    ensures var words := WordsOf(Replies.Classify(inbound)); Text.TrimSpace(words) == words
    ensures Replies.Classify(inbound).Says? ==> WordsOf(Replies.Classify(inbound)) != ""
  {
    InterviewProgress.TrimTwice(inbound);
    assert Text.TrimSpace("") == "";
  }

  lemma TakeReplyFiles(w: World, s: int, inbound: string, c: Catalogue, now: Time)
    requires Waiting(w, s)
    ensures FiledAs(w, s, Replies.Classify(inbound), TakeReply(w, s, inbound, c, now).world, now)
  {
    var heard := Replies.Classify(inbound);
    var i := Current(w.sessions[s].items);
    var key := w.sessions[s].items[i].key;
    if heard.Silence? || (heard.Says? && !Acceptable(key, heard.answer)) {
      NothingHeard(w, s, heard, now);
    }
    ReadingsAreTrimmed(inbound);
    RecordFiles(w, s, key, StatusOf(heard), WordsOf(heard), now);
    var r := Record(w, s, key, StatusOf(heard), WordsOf(heard), now);
    if r.Saved? {
      var w2 := Acknowledge(r.world, key, StatusOf(heard), WordsOf(heard));
      OnwardLeaves(w2, s, i, c, now);
      SavedAndOnward(w, s, heard, StatusOf(heard), WordsOf(heard), r.world, Onward(w2, s, c, now).world, now);
    }
  }

  /** A turn of an introduction, on whichever channel, files the reply to the question that was put
      as what it was: a refusal as a refusal, a skip as a skip, an answer with its words and what they
      tell, and silence as nothing. */
  lemma TurnFilesWhatWasHeard(w: World, channel: Channel, inbound: string, c: Catalogue, now: Time)
    requires !channel.UnknownChannel? && Waiting(w, FindOpen(w.sessions, channel, Onboarding))
    ensures FiledAs(w, FindOpen(w.sessions, channel, Onboarding), Replies.Classify(inbound),
                    OnboardingTurn(w, channel, inbound, c, now).world, now)
  {
    TakeReplyFiles(w, FindOpen(w.sessions, channel, Onboarding), inbound, c, now);
  }

  /** And so does a text in answer to a check-in question. */
  lemma CheckinFilesWhatWasHeard(w: World, inbound: string, now: Time)
    requires Waiting(w, FindOpen(w.sessions, Sms, Checkin))
    ensures FiledAs(w, FindOpen(w.sessions, Sms, Checkin), Replies.Classify(inbound), InterviewReply(w, inbound, now).world, now)
  {
    var s := FindOpen(w.sessions, Sms, Checkin);
    var heard := Replies.Classify(inbound);
    var i := Current(w.sessions[s].items);
    var key := w.sessions[s].items[i].key;
    if heard.Silence? || (heard.Says? && !Acceptable(key, heard.answer)) {
      NothingHeard(w, s, heard, now);
    }
    ReadingsAreTrimmed(inbound);
    RecordFiles(w, s, key, StatusOf(heard), WordsOf(heard), now);
    var r := Record(w, s, key, StatusOf(heard), WordsOf(heard), now);
    if r.Saved? {
      var next := Current(r.world.sessions[s].items);
      var w2 := if next < |r.world.sessions[s].items| then MarkAsked(r.world, s, next, now) else r.world;
      if next < |r.world.sessions[s].items| {
        MarkingLeaves(r.world, s, i, next, now);
      }
      assert InterviewReply(w, inbound, now).world == w2;
      SavedAndOnward(w, s, heard, StatusOf(heard), WordsOf(heard), r.world, w2, now);
    }
  }

  // ----- what is said back -----------------------------------------------------------------------

  /** Silence is asked again, an answer that cannot be used is not understood, and anything else is
      gone on from: with the question that is current then, which is put with these words, or with the
      end when there is none. */
  predicate SaidBack(it: Item, heard: Replies.Reading, said: Said, after: seq<Item>, end: Said) {
    if heard.Silence? then said == AskAgain(it.prompt)
    else if heard.Says? && !Acceptable(it.key, heard.answer) then said == DidNotGet(it.prompt)
    else if Current(after) == |after| then said == end
    else said == Ask(after[Current(after)].prompt) && after[Current(after)].Asked()
  }

  lemma AskingPuts(items: seq<Item>, it: Item)
    requires Current(items) < |items| && it.status == items[Current(items)].status
    ensures Current(items[Current(items) := it]) == Current(items)
  {
    var after := items[Current(items) := it];
    assert after[Current(items)] == it && forall k :: 0 <= k < Current(items) ==> after[k] == items[k];
  }

  lemma OnwardSays(w: World, s: int, it: Item, heard: Replies.Reading, c: Catalogue, now: Time)
    requires 0 <= s < |w.sessions|
    requires !heard.Silence? && (heard.Says? ==> Acceptable(it.key, heard.answer))
    ensures var turn := Onward(w, s, c, now);
      && 0 <= s < |turn.world.sessions|
      && SaidBack(it, heard, turn.said, turn.world.sessions[s].items, Closing(Agreed(turn.world)))
  {
    var items := w.sessions[s].items;
    if Current(items) < |items| {
      var a := AskQuestion(w, s, Current(items), c, now);
      AskingPuts(items, a.world.sessions[s].items[Current(items)]);
      assert a.world.sessions[s].items == items[Current(items) := a.world.sessions[s].items[Current(items)]];
    }
  }

  /** What a turn of an introduction says to the reply to the question that was put. */
  lemma TurnSaysWhatFollows(w: World, channel: Channel, inbound: string, c: Catalogue, now: Time)
    requires !channel.UnknownChannel? && Waiting(w, FindOpen(w.sessions, channel, Onboarding))
    ensures var s, turn := FindOpen(w.sessions, channel, Onboarding), OnboardingTurn(w, channel, inbound, c, now);
      && s < |turn.world.sessions|
      && SaidBack(w.sessions[s].items[Current(w.sessions[s].items)], Replies.Classify(inbound), turn.said,
                  turn.world.sessions[s].items, Closing(Agreed(turn.world)))
  {
    var s := FindOpen(w.sessions, channel, Onboarding);
    var heard := Replies.Classify(inbound);
    var it := w.sessions[s].items[Current(w.sessions[s].items)];
    ReadingsAreTrimmed(inbound);
    RecordFiles(w, s, it.key, StatusOf(heard), WordsOf(heard), now);
    var r := Record(w, s, it.key, StatusOf(heard), WordsOf(heard), now);
    if r.Saved? {
      OnwardSays(Acknowledge(r.world, it.key, StatusOf(heard), WordsOf(heard)), s, it, heard, c, now);
    }
  }

  lemma MarkingSays(w: World, s: int, it: Item, heard: Replies.Reading, now: Time)
    requires 0 <= s < |w.sessions| && Current(w.sessions[s].items) < |w.sessions[s].items|
    requires !heard.Silence? && (heard.Says? ==> Acceptable(it.key, heard.answer))
    ensures var next := Current(w.sessions[s].items);
      SaidBack(it, heard, Ask(w.sessions[s].items[next].prompt), MarkAsked(w, s, next, now).sessions[s].items, Complete)
  {
    var items := w.sessions[s].items;
    AskingPuts(items, MarkAsked(w, s, Current(items), now).sessions[s].items[Current(items)]);
  }

  /** The turn of a check-in reply, by what is recorded. */
  lemma CheckinTurn(w: World, inbound: string, now: Time)
    requires Waiting(w, FindOpen(w.sessions, Sms, Checkin)) && !Replies.Classify(inbound).Silence?
    ensures var s, heard := FindOpen(w.sessions, Sms, Checkin), Replies.Classify(inbound);
      var it := w.sessions[s].items[Current(w.sessions[s].items)];
      match Record(w, s, it.key, StatusOf(heard), WordsOf(heard), now)
      case Refused(why) => InterviewReply(w, inbound, now).said == if why.Unusable? then DidNotGet(it.prompt) else Ask(it.prompt)
      case Saved(w1, _) =>
        0 <= s < |w1.sessions|
        && var after := w1.sessions[s].items;
           InterviewReply(w, inbound, now)
           == if Current(after) == |after| then Turn(w1, Complete)
              else Turn(MarkAsked(w1, s, Current(after), now), Ask(after[Current(after)].prompt))
  {
  }

  lemma RefusedAsUnusable(w: World, s: int, words: string, now: Time)
    requires Waiting(w, s)
    requires var it := w.sessions[s].items[Current(w.sessions[s].items)];
      words != "" && Text.TrimSpace(words) == words && !Acceptable(it.key, words)
    ensures Record(w, s, w.sessions[s].items[Current(w.sessions[s].items)].key, Answered, words, now) == Refused(Unusable)
  {
    PersistedTells(w.profile, w.sessions[s].items[Current(w.sessions[s].items)].key, words);
  }

  /** And a check-in question by text. */
  lemma CheckinSaysWhatFollows(w: World, inbound: string, now: Time)
    requires Waiting(w, FindOpen(w.sessions, Sms, Checkin))
    ensures var s, turn := FindOpen(w.sessions, Sms, Checkin), InterviewReply(w, inbound, now);
      && s < |turn.world.sessions|
      && SaidBack(w.sessions[s].items[Current(w.sessions[s].items)], Replies.Classify(inbound), turn.said,
                  turn.world.sessions[s].items, Complete)
  {
    var s := FindOpen(w.sessions, Sms, Checkin);
    var heard := Replies.Classify(inbound);
    var it := w.sessions[s].items[Current(w.sessions[s].items)];
    if !heard.Silence? {
      ReadingsAreTrimmed(inbound);
      CheckinTurn(w, inbound, now);
      if heard.Says? && !Acceptable(it.key, heard.answer) {
        RefusedAsUnusable(w, s, heard.answer, now);
      } else {
        CheckinSaved(w, s, it, heard, now);
      }
    }
  }

  lemma CheckinSaved(w: World, s: int, it: Item, heard: Replies.Reading, now: Time)
    requires Waiting(w, s) && it == w.sessions[s].items[Current(w.sessions[s].items)]
    requires !heard.Silence? && (heard.Says? ==> Acceptable(it.key, heard.answer))
    requires Text.TrimSpace(WordsOf(heard)) == WordsOf(heard) && (heard.Says? ==> WordsOf(heard) != "")
    ensures var r := Record(w, s, it.key, StatusOf(heard), WordsOf(heard), now);
      && r.Saved? && 0 <= s < |r.world.sessions|
      && var after := r.world.sessions[s].items;
         if Current(after) == |after| then SaidBack(it, heard, Complete, after, Complete)
         else SaidBack(it, heard, Ask(after[Current(after)].prompt), MarkAsked(r.world, s, Current(after), now).sessions[s].items, Complete)
  {
    RecordFiles(w, s, it.key, StatusOf(heard), WordsOf(heard), now);
    var r := Record(w, s, it.key, StatusOf(heard), WordsOf(heard), now);
    if Current(r.world.sessions[s].items) < |r.world.sessions[s].items| {
      MarkingSays(r.world, s, it, heard, now);
    }
  }

  /** What the agent saves is kept as the agent gives it, exactly when it is for the current question
      and can be used; otherwise the session is found or started and nothing is saved. */
  lemma SavedAsGiven(w: World, channel: Channel, key: Key, status: Status, words: string, c: Catalogue, now: Time)
    requires !channel.UnknownChannel?
    ensures var e := EnsureSession(w, channel, FlowFor(w.profile), now);
      var items := e.world.sessions[e.s].items;
      var i := Current(items);
      var said := Text.TrimSpace(words);
      var w' := SaveAnswer(w, channel, key, status, words, c, now).world;
      if i < |items| && items[i].key == key && !status.Unanswered? && (status.Answered? ==> said != "" && Acceptable(key, said))
      then RowIs(w', e.s, i, Filed(items[i], status, said, now))
           && (if status.Answered? then ToldBy(w.profile, w'.profile, key, said) else ToldNothing(w.profile, w'.profile))
      else w' == e.world
  {
    var e := EnsureSession(w, channel, FlowFor(w.profile), now);
    RecordFiles(e.world, e.s, key, status, words, now);
    var r := Record(e.world, e.s, key, status, words, now);
    if r.Saved? {
      var i := Current(e.world.sessions[e.s].items);
      AfterSaveLeaves(r.world, e.s, i, r.item, c, now);
      ToldOnward(w.profile, r.world.profile, AfterSave(r.world, e.s, r.item, c, now).world.profile, key, Text.TrimSpace(words));
    }
  }

  // ----- what is learned elsewhere ---------------------------------------------------------------

  /** A row once a name has been given: an open name question is settled with it, as being on file. */
  function RowOnceNamed(it: Item, name: string, now: Time): Item {
    if it.key.Name? && it.status.Unanswered? then Item(Name, it.prompt, Answered, name, OnFile, it.askedAt, Some(now)) else it
  }

  predicate NamedThroughout(before: seq<Session>, after: seq<Session>, name: string, now: Time) {
    && |after| == |before|
    && (forall s :: 0 <= s < |before| ==>
          && after[s].channel == before[s].channel && after[s].flow == before[s].flow && after[s].open == before[s].open
          && |after[s].items| == |before[s].items|)
    && (forall s, i :: 0 <= s < |before| && 0 <= i < |before[s].items| ==>
          after[s].items[i] == RowOnceNamed(before[s].items[i], name, now))
  }

  /** Giving one's name puts it on the profile and settles every open question for it, in every session
      and with nothing else changed; something that is no name changes nothing. */
  lemma NamingSettlesEveryOpenName(w: World, raw: string, now: Time)
    ensures var name, named := Replies.NormaliseName(raw), SetName(w, raw, now);
      if name == "" then named.None?
      else named.Some? && named.value.profile == w.profile.(name := name) && named.value.book == w.book
           && NamedThroughout(w.sessions, named.value.sessions, name, now)
  {
  }

  /** What an interview on a call has learned is kept as far as it can be used, over what was there; and
      the person is introduced from then on exactly when there is both a name and interests to show, or
      they were before. */
  lemma LearnedIsKept(p: Profile, name: string, interests: string, frequency: string, now: Time)
    ensures var p', n, i, f := SaveOnboarding(p, name, interests, frequency, now),
        Replies.NormaliseName(name), Replies.NormaliseInterests(interests), Text.TrimSpace(frequency);
      && p'.name == (if n == "" then p.name else n)
      && p'.interests == (if i == "" then p.interests else i)
      && p'.frequency == (if f in {"daily", "twice-daily", "weekdays"} then f else p.frequency)
      && (p'.Onboarded() <==> p.Onboarded() || (Text.TrimSpace(p'.name) != "" && Text.TrimSpace(p'.interests) != ""))
      && (p'.Onboarded() ==> p'.onboardedAt == if p.Onboarded() then p.onboardedAt else Some(now))
  {
  }

  /** Signing up again takes the name and cadence given, keeps the interests on file when none are
      given, and never takes an introduction back. */
  lemma SigningUpAgainKeeps(p: Profile, name: string, interests: string, frequency: string)
    ensures var p' := SignUpAgain(p, name, interests, frequency);
      && p'.name == name && p'.frequency == frequency && p'.onboardedAt == p.onboardedAt
      && p'.interests == if Text.TrimSpace(interests) == "" then p.interests else interests
  {
  }

  // ----- as far as the scheduler -----------------------------------------------------------------

  predicate ConsentIsPut(w: World) {
    && !w.profile.Onboarded()
    && var s := FindOpen(w.sessions, Sms, Onboarding);
       Waiting(w, s) && w.sessions[s].items[Current(w.sessions[s].items)].key.CheckinConsent?
  }

  lemma ConsentHeard(w: World, inbound: string, c: Catalogue, now: Time)
    requires ConsentIsPut(w)
    ensures var heard := Replies.Classify(inbound);
      InterviewLastWord.HeardBy(w, ReplyStep(inbound, c, now))
      == if heard.Silence? then None
         else Some(InterviewLastWord.Heard(CheckinConsent, InterviewLastWord.Word(StatusOf(heard), WordsOf(heard))))
  {
    var s := FindOpen(w.sessions, Sms, Onboarding);
    var heard := Replies.Classify(inbound);
    ReadingsAreTrimmed(inbound);
    RecordFiles(w, s, CheckinConsent, StatusOf(heard), WordsOf(heard), now);
  }

  /** From the words of a text to the scheduler: once the question about check-ins has been put by
      text, a text that refuses it stops them, whenever the person may be due; one that answers it
      lets them through whenever due; a skip and silence leave what was on file. */
  lemma ConsentByTextDecides(
    name: string, interests: string, frequency: string, run: seq<Step>, inbound: string, c: Catalogue, now: Time,
    zone: Scheduler.Zone, last: Option<Time>, later: Time)
    requires InterviewLastWord.Increasing(run + [ReplyStep(inbound, c, now)])
    requires ConsentIsPut(RunFrom(NewPerson(name, interests, frequency), run))
    ensures var w := RunFrom(NewPerson(name, interests, frequency), run);
      var w' := Do(w, ReplyStep(inbound, c, now));
      var view := Outreach.SchedulerView(w');
      match Replies.Classify(inbound)
      case Refusal => Outreach.ConsentOnFile(w') == Some(Scheduler.Refused) && !Scheduler.Fires(zone, view, last, later)
      case Says(_) => Outreach.ConsentOnFile(w') == Some(Scheduler.Agreed)
                      && (Scheduler.Fires(zone, view, last, later) <==> Scheduler.Due(zone, view, last, later))
      case _ => Outreach.ConsentOnFile(w') == Outreach.ConsentOnFile(w)
  {
    var start := NewPerson(name, interests, frequency);
    var step := ReplyStep(inbound, c, now);
    assert (run + [step])[..|run|] == run;
    IncreasingFront(run, step);
    WordOnFile(name, interests, frequency, run);
    WordOnFile(name, interests, frequency, run + [step]);
    ConsentHeard(RunFrom(start, run), inbound, c, now);
  }

  /** What the scheduler finds on file is the last word. */
  lemma WordOnFile(name: string, interests: string, frequency: string, run: seq<Step>)
    requires InterviewLastWord.Increasing(run)
    ensures var start := NewPerson(name, interests, frequency);
      Outreach.ConsentOnFile(RunFrom(start, run))
      == match InterviewLastWord.LastWord(start, run, CheckinConsent)
         case None => None
         case Some(word) => Some(if word.status == Answered then Scheduler.Agreed else Scheduler.Refused)
  {
    InterviewLastWord.TheLastWordStands(name, interests, frequency, run, CheckinConsent);
  }

  lemma IncreasingFront(run: seq<Step>, step: Step)
    requires InterviewLastWord.Increasing(run + [step])
    ensures InterviewLastWord.Increasing(run)
  {
    forall i, j | 0 <= i < j < |run| ensures run[i].now < run[j].now {
      assert (run + [step])[i] == run[i] && (run + [step])[j] == run[j];
    }
  }
}
