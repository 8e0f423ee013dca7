/** Someone who skips every question by text: what they are told, and what the scheduler does. */
module SkippedConsent {
  import opened Clock
  import opened Options
  import opened Checklist
  import opened CrossedOffers
  import opened InterviewInvariant
  import opened InterviewRuns
  import Outreach
  import Scheduler

  /** The introduction by text of somebody who gave a name and interests when signing up has come to
      question `i`, which has been put; nothing after it is settled. */
  predicate Along(w: World, p: Profile, i: int) {
    && w.profile == p && !p.Onboarded() && |w.sessions| == 1 && 2 <= i < 5
    && w.sessions[0].channel == Sms && w.sessions[0].flow == Onboarding && w.sessions[0].open
    && AlongItems(w.sessions[0].items, i)
    && w.sessions[0].items[i].Asked()
  }

  predicate AlongItems(items: seq<Item>, i: int) {
    && |items| == 5
    && (forall k :: 0 <= k < 5 ==> items[k].key == ONBOARDING_TEMPLATE[k])
    && (forall k :: 0 <= k < 5 ==> (items[k].Settled() <==> k < i))
  }

  lemma ConsentStartsOpen(start: World, now: Time)
    requires start.sessions == []
    ensures !StartItem(CheckinConsent, start, now).Settled()
  {
  }

  lemma MarkedIsAlong(w: World, now: Time)
    requires !w.profile.Onboarded() && |w.sessions| == 1
    requires w.sessions[0].channel == Sms && w.sessions[0].flow == Onboarding && w.sessions[0].open
    requires AlongItems(w.sessions[0].items, 2)
    ensures Along(MarkAsked(w, 0, 2, now), w.profile, 2)
  {
  }

  lemma NewSessionIsAlong(start: World, now: Time)
    requires KnownButForTime(start) && start.sessions == []
    ensures var e := EnsureSession(start, Sms, Onboarding, now);
      && e.s == 0 && |e.world.sessions| == 1 && e.world.profile == start.profile
      && AlongItems(e.world.sessions[0].items, 2)
      && !e.world.sessions[0].items[2].Asked()
  {
    NewSessionIsAtEventTime(start, Sms, now);
    ConsentStartsOpen(start, now);
  }

  lemma FirstTextMarksTheTime(start: World, hello: string, c: Catalogue, now: Time)
    requires KnownButForTime(start) && start.sessions == []
    ensures Do(start, ReplyStep(hello, c, now)) == MarkAsked(EnsureSession(start, Sms, Onboarding, now).world, 0, 2, now)
  {
    NewSessionIsAlong(start, now);
    var e := EnsureSession(start, Sms, Onboarding, now);
    CurrentIs(e.world.sessions[0].items, 2);
    FirstTextIs(start, hello, c, now);
    AskingForTime(e.world, 0, c, now);
  }

  lemma FirstTextPutsTheTime(start: World, hello: string, c: Catalogue, now: Time)
    requires KnownButForTime(start) && start.sessions == []
    ensures Along(Do(start, ReplyStep(hello, c, now)), start.profile, 2)
  {
    NewSessionIsAlong(start, now);
    FirstTextMarksTheTime(start, hello, c, now);
    MarkedIsAlong(EnsureSession(start, Sms, Onboarding, now).world, now);
  }

  /** The current question skipped. */
  predicate Passed(w: World, i: int, w1: World) {
    && 0 <= i < 5 && |w.sessions| == 1 && |w1.sessions| == 1 && |w.sessions[0].items| == 5
    && w1.profile == w.profile && w1.book == w.book
    && w1.sessions[0] == w.sessions[0].(items := w1.sessions[0].items)
    && AlongItems(w1.sessions[0].items, i + 1) && w1.sessions[0].items[i].status == Skipped
  }

  lemma SkipIsRecorded(w: World, i: int, now: Time)
    requires Along(w, w.profile, i)
    ensures var r := Record(w, 0, w.sessions[0].items[i].key, Skipped, "", now);
      r.Saved? && r.item.status == Skipped && Passed(w, i, r.world)
  {
    CurrentIs(w.sessions[0].items, i);
  }

  lemma SkipGoesOn(w: World, i: int, skip: string, c: Catalogue, now: Time)
    requires Along(w, w.profile, i) && ReadReply(skip) == (Skipped, "")
    ensures var r := Record(w, 0, w.sessions[0].items[i].key, Skipped, "", now);
      r.Saved? && Passed(w, i, r.world) && Reply(w, skip, c, now) == Onward(r.world, 0, c, now)
  {
    CurrentIs(w.sessions[0].items, i);
    OneSession(w);
    SkipIsRecorded(w, i, now);
  }

  /** Question `j` has been put, and nothing else has changed in the session. */
  predicate PutNext(w1: World, j: int, w2: World) {
    && |w1.sessions| == 1 && |w2.sessions| == 1 && w2.profile == w1.profile
    && 0 <= j < |w1.sessions[0].items| == |w2.sessions[0].items|
    && w2.sessions[0] == w1.sessions[0].(items := w2.sessions[0].items)
    && (forall k :: 0 <= k < |w1.sessions[0].items| && k != j ==> w2.sessions[0].items[k] == w1.sessions[0].items[k])
    && w2.sessions[0].items[j].key == w1.sessions[0].items[j].key
    && w2.sessions[0].items[j].status == w1.sessions[0].items[j].status
    && w2.sessions[0].items[j].Asked()
  }

  lemma OnwardPutsTheNext(w1: World, j: int, c: Catalogue, now: Time)
    requires |w1.sessions| == 1 && 0 <= j < |w1.sessions[0].items| && Current(w1.sessions[0].items) == j
    ensures PutNext(w1, j, Onward(w1, 0, c, now).world)
  {
  }

  lemma PutKeepsAlong(w: World, i: int, w1: World, w2: World)
    requires Along(w, w.profile, i) && i < 4 && Passed(w, i, w1) && PutNext(w1, i + 1, w2)
    ensures Along(w2, w.profile, i + 1)
  {
  }

  lemma AskingTheNext(w: World, i: int, w1: World, c: Catalogue, now: Time)
    requires Along(w, w.profile, i) && i < 4 && Passed(w, i, w1)
    ensures Along(Onward(w1, 0, c, now).world, w.profile, i + 1)
  {
    CurrentIs(w1.sessions[0].items, i + 1);
    OnwardPutsTheNext(w1, i + 1, c, now);
    PutKeepsAlong(w, i, w1, Onward(w1, 0, c, now).world);
  }

  /** A skip brings on the next question. */
  lemma SkipMovesOn(w: World, p: Profile, i: int, skip: string, c: Catalogue, now: Time)
    requires Along(w, p, i) && i < 4 && ReadReply(skip) == (Skipped, "")
    ensures Along(Do(w, ReplyStep(skip, c, now)), p, i + 1)
  {
    SkipGoesOn(w, i, skip, c, now);
    AskingTheNext(w, i, Record(w, 0, w.sessions[0].items[i].key, Skipped, "", now).world, c, now);
  }

  lemma FinishSaysDeclined(w: World, w1: World, c: Catalogue, now: Time)
    requires Along(w, w.profile, 4) && Passed(w, 4, w1)
    ensures var t := Onward(w1, 0, c, now);
      && t.said == Closing(false)
      && t.world.profile == w.profile.(onboardedAt := Some(now))
      && LastSettled(Rows(t.world.sessions), CheckinConsent).None?
  {
    var items := w1.sessions[0].items;
    CurrentIs(items, 5);
    var done := FinishOnboarding(w1, 0, now);
    OneSession(done);
    NobodySaid(items, CheckinConsent);
  }

  /** Skipping the last question, consent, earns the line that nothing is scheduled. */
  lemma LastSkip(w: World, p: Profile, skip: string, c: Catalogue, now: Time)
    requires Along(w, p, 4) && ReadReply(skip) == (Skipped, "")
    ensures var t := Reply(w, skip, c, now);
      && t.said == Closing(false)
      && t.world.profile == p.(onboardedAt := Some(now))
      && Outreach.ConsentOnFile(t.world).None?
  {
    SkipGoesOn(w, 4, skip, c, now);
    FinishSaysDeclined(w, Record(w, 0, w.sessions[0].items[4].key, Skipped, "", now).world, c, now);
  }

  /** A text, and then the time and the offer are skipped; the catalogues may be any. */
  function TextAndTwoSkips(
    hello: string, skip: string, c1: Catalogue, c2: Catalogue, c3: Catalogue, first: Time, second: Time, third: Time): seq<Step>
  {
    [ReplyStep(hello, c1, first)] + [ReplyStep(skip, c2, second)] + [ReplyStep(skip, c3, third)]
  }

  lemma ConsentIsPut(start: World, hello: string, skip: string, c1: Catalogue, c2: Catalogue, c3: Catalogue,
                     first: Time, second: Time, third: Time)
    requires KnownButForTime(start) && start.sessions == [] && ReadReply(skip) == (Skipped, "")
    ensures Along(RunFrom(start, TextAndTwoSkips(hello, skip, c1, c2, c3, first, second, third)), start.profile, 4)
  {
    var s1, s2, s3 := ReplyStep(hello, c1, first), ReplyStep(skip, c2, second), ReplyStep(skip, c3, third);
    RunSnoc(start, [], s1);
    RunSnoc(start, [s1], s2);
    RunSnoc(start, [s1] + [s2], s3);
    assert [] + [s1] == [s1];
    FirstTextPutsTheTime(start, hello, c1, first);
    SkipMovesOn(Do(start, s1), start.profile, 2, skip, c2, second);
    SkipMovesOn(Do(Do(start, s1), s2), start.profile, 3, skip, c3, third);
  }

  /** London in winter. */
  const GREENWICH: Scheduler.Zone := (t: Time) => 0

  /** Nine in the morning of the first Thursday in the week after `t`. */
  function ThursdayAtNine(t: Time): Time {
    (t / (7 * DAY) + 1) * (7 * DAY) + 9 * HOUR
  }

  lemma ThursdayIsToCome(t: Time)
    ensures ThursdayAtNine(t) > t
  {
  }

  lemma NineOnADay(k: int)
    ensures (k * DAY + 9 * HOUR) / DAY == k && (k * DAY + 9 * HOUR) % DAY == 9 * HOUR
  {
  }

  /** On a Thursday at nine every schedule there is has a slot. */
  lemma EverybodyIsDueOnThursdays(p: Scheduler.Profile, t: Time)
    requires p.onboarded
    ensures Scheduler.Due(GREENWICH, p, None, ThursdayAtNine(t))
  {
    var week := t / (7 * DAY) + 1;
    assert ThursdayAtNine(t) == (7 * week) * DAY + 9 * HOUR;
    NineOnADay(7 * week);
  }

  /** Someone who signs up with a name and interests, whatever cadence, and then skips every question
      by text is told that nothing is scheduled; and from then on they are fired at whenever they
      are due, for instance at nine the next Thursday. */
  lemma SkippersAreToldOneThingAndSentAnother(
    name: string, interests: string, frequency: string, hello: string, skip: string,
    c1: Catalogue, c2: Catalogue, c3: Catalogue, c4: Catalogue, first: Time, second: Time, third: Time, fourth: Time,
    zone: Scheduler.Zone, last: Option<Time>, now: Time)
    requires var p := NewPerson(name, interests, frequency).profile; KnownFrom(Name, p) != "" && KnownFrom(EventTypes, p) != ""
    requires ReadReply(skip) == (Skipped, "")
    ensures var w := RunFrom(NewPerson(name, interests, frequency),
                             TextAndTwoSkips(hello, skip, c1, c2, c3, first, second, third));
      var view := Outreach.SchedulerView(Do(w, ReplyStep(skip, c4, fourth)));
      && Reply(w, skip, c4, fourth).said == Closing(false)
      && view == Scheduler.Profile(true, frequency, None)
      && (Scheduler.Fires(zone, view, last, now) <==> Scheduler.Due(zone, view, last, now))
      && ThursdayAtNine(fourth) > fourth && Scheduler.Fires(GREENWICH, view, None, ThursdayAtNine(fourth))
  {
    var start := NewPerson(name, interests, frequency);
    var w := RunFrom(start, TextAndTwoSkips(hello, skip, c1, c2, c3, first, second, third));
    ConsentIsPut(start, hello, skip, c1, c2, c3, first, second, third);
    LastSkip(w, start.profile, skip, c4, fourth);
    ThursdayIsToCome(fourth);
    EverybodyIsDueOnThursdays(Scheduler.Profile(true, frequency, None), fourth);
  }
}
