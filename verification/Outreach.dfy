/** From what a person said to whether the scheduler may reach out to them. */
module Outreach {
  import opened Clock
  import opened Options
  import Checklist
  import InterviewLastWord
  import InterviewRuns
  import Scheduler

  /** The consent the scheduler finds on file. */
  function ConsentOnFile(w: Checklist.World): Option<Scheduler.Answer> {
    match Checklist.LastSettled(Checklist.Rows(w.sessions), Checklist.CheckinConsent)
    case None => None
    case Some(row) => Some(if row.status == Checklist.Answered then Scheduler.Agreed else Scheduler.Refused)
  }

  function SchedulerView(w: Checklist.World): Scheduler.Profile {
    Scheduler.Profile(w.profile.Onboarded(), w.profile.frequency, ConsentOnFile(w))
  }

  /** A check-in is only ever scheduled for someone whose last word on check-ins, on whichever
      channel it was given, was not a refusal; and when they are due, that is the only thing in the
      way. */
  lemma ARefusalStopsCheckins(
    name: string, interests: string, frequency: string, run: seq<InterviewRuns.Step>,
    zone: Scheduler.Zone, last: Option<Time>, now: Time)
    requires InterviewLastWord.Increasing(run)
    ensures var start := InterviewRuns.NewPerson(name, interests, frequency);
      var p := SchedulerView(InterviewRuns.RunFrom(start, run));
      var word := InterviewLastWord.LastWord(start, run, Checklist.CheckinConsent);
      Scheduler.Fires(zone, p, last, now)
      <==> Scheduler.Due(zone, p, last, now) && !(word.Some? && word.value.status.Declined?)
  {
    var start := InterviewRuns.NewPerson(name, interests, frequency);
    InterviewLastWord.TheLastWordStands(name, interests, frequency, run, Checklist.CheckinConsent);
    WordsAreAnswersOrRefusals(start, run, Checklist.CheckinConsent);
  }

  lemma {:induction false} WordsAreAnswersOrRefusals(w: Checklist.World, run: seq<InterviewRuns.Step>, key: Checklist.Key)
    ensures var word := InterviewLastWord.LastWord(w, run, key);
      word.Some? ==> word.value.status in {Checklist.Answered, Checklist.Declined}
  {
    if run != [] {
      WordsAreAnswersOrRefusals(w, run[..|run| - 1], key);
    }
  }

  /** They would be told that nothing is scheduled, and nothing keeps them from being scheduled. */
  predicate ToldOneThingAndSentAnother(w: Checklist.World) {
    !Checklist.Agreed(w) && ConsentOnFile(w) != Some(Scheduler.Refused)
  }

  /** The closing line and the scheduler part company exactly over those who never answered the
      question nor refused it, such as whoever skipped it: they are told that nothing is scheduled,
      and are fired at whenever they are due. */
  lemma SkippingIsTakenForAgreement(
    name: string, interests: string, frequency: string, run: seq<InterviewRuns.Step>,
    zone: Scheduler.Zone, last: Option<Time>, now: Time)
    requires InterviewLastWord.Increasing(run)
    ensures var start := InterviewRuns.NewPerson(name, interests, frequency);
      var w := InterviewRuns.RunFrom(start, run);
      && (ToldOneThingAndSentAnother(w) <==> InterviewLastWord.LastWord(start, run, Checklist.CheckinConsent).None?)
      && (ToldOneThingAndSentAnother(w) ==>
            (Scheduler.Fires(zone, SchedulerView(w), last, now) <==> Scheduler.Due(zone, SchedulerView(w), last, now)))
  {
    var start := InterviewRuns.NewPerson(name, interests, frequency);
    InterviewLastWord.TheLastWordStands(name, interests, frequency, run, Checklist.CheckinConsent);
    WordsAreAnswersOrRefusals(start, run, Checklist.CheckinConsent);
  }
}
