# CheckIn, modelled and proved

CheckIn is a phone-journalling service: it interviews people over SMS and on calls, offers them
events, checks in on a schedule, and keeps the transcripts, consents and readings that go with it.
Its SQL tables are the state of several protocols, and the Go code around them is a set of atomic
steps on that state. This project models those protocols in Dafny 4.11 and proves what they keep
over whole runs. `dafny verify dfyconfig.toml` checks everything.

Each part has the same shape. A table, a mutex-guarded struct or an in-place slice is a class (or a
method over an array) whose methods loop and update as the source does; each method is proved
against a function on values; and the lemmas are about runs of those functions.

| part | files | source |
|---|---|---|
| the interview: sessions, questions, turns, tools | `Checklist`, `ChecklistStore` | checklist.go, brain.go, ingest.go, db.go |
| what every interview run keeps | `InterviewInvariant`, `InterviewRuns` | the same |
| what one reply does, from its words to the scheduler | `InterviewAnswers` | the same |
| why introductions end | `InterviewProgress` | brain.go |
| what is remembered, and as what | `InterviewMemory`, `InterviewLastWord`, `Outreach`, `SkippedConsent` | checklist.go, scheduler.go |
| offers made in the course of it | `InterviewOffers`, `CrossedOffers`, `Suggestions` | brain.go, db.go |
| reading replies | `Replies`, `ReplyProperties` | checklist.go, matching.go |
| call transcripts and who may see them | `Transcripts`, `TranscriptRuns` | transcripts.go, signals.go, db.go |
| rate limits | `SlidingWindow`, `Limiter`, `Throttle` | auth_http.go, server.go |
| sign-in codes | `LoginCodes`, `LoginCodeRuns`, `LoginGuesses` | auth.go |
| webhook deliveries, interleaved | `Webhooks` | signals.go, ingest.go, server.go |
| the live-call slot, interleaved | `CallSlot` | db.go, server.go, transcripts.go |
| the calendar cache, interleaved | `CalendarCache` | ics.go |
| calendars | `Ics`, `IcsRoundTrip` | ics.go, RFC 5545 sections 3.1 and 3.3.11 |
| ranking events | `Matching`, `MatchingProperties`, `EventFit` | matching.go, db.go |
| firing check-ins | `Scheduler` | scheduler.go, server.go |
| consent, readings, retention | `Signals` | signals.go |

`Clock`, `Options` and `Text` hold time units, nullable values and the string functions.

## Where the code and its own words part ways

The model follows the code. Each of these is a lemma below, with the exact condition where there is
one.

- A check-in session never closes: only the end of an introduction closes a session. The evening
  question is described as coming back after twenty hours (checklist.go:78-80), but on a channel
  where it has been settled it is never asked again, by text or by the agent
  (`SettledCheckinIsNeverPutAgain`, `CheckinsAreAskedOnce`).
- A carried answer is stamped with the new session's time, so the twenty hours run from the last
  copy rather than from when the person spoke; `CarriedAnswersOutliveTheirTtl` says exactly when one
  is still good.
- "Never asked twice" is about sessions created afterwards; one already open on another channel
  does ask (`OpenSessionsDoNotHear`).
- Skipping the consent question earns the line that nothing is scheduled (brain.go:214-216), yet
  only a refusal stops the scheduler. `SkippingIsTakenForAgreement` says exactly for whom the two
  part company, and `SkippersAreToldOneThingAndSentAnother` is a run in which they do.
- A yes takes up the newest open offer, which need not be the one the person was shown, because
  asking for the offer question again makes a new offer (`PollingOffersAnotherEvent`). It takes up
  what was shown exactly when that is the newest open offer (`YesTakesWhatWasShownExactlyWhen`),
  and a run from signing up breaks it for any catalogue with two suitable events
  (`YesCanTakeUpAnotherEvent`, `AnyoneCanCrossOffers`).
- Stored interests are meant to be clean, but "foo !" keeps a trailing space
  (`InterestsThatDoNotReadBack`); they are clean exactly when no piece has a space beside its
  closing marks (`StoredInterestsReadBackExactlyWhen`).
- Callers of a refresh are said to share one request (ics.go:238-239), but only the one that starts
  it waits for it: the next is handed a channel that is closed already
  (`ColdReaderWaitsExactlyWhen`), and already the second read of any feed can answer with nothing
  (`SecondColdReaderAnswersEmpty`).
- A replayed transcript is said to be harmless (transcripts.go:441), but it frees the slot of a
  live call (`OldTranscriptLetsASecondCallRing`); a second call rings over a first only after such a
  release or past the maximum (`SecondCallNeedsAnothersRelease`).
- A retried delivery is said to replay the stored response (docs/DATA-AND-CONSENT.md:187), but one
  whose handler failed has stored none and leaves its key taken: a retry runs exactly when the key
  has been forgotten since (`RetryRunsExactlyWhen`), and until then is told it was handled
  (`FailedFirstIsNeverRetried`, `FailureSilencesTheRetry`). And a first from before an erasure that
  is still at work stores its reply over that of the first after it (`LateReplyOverwrites`); with no
  erasure every repeat replays what its first stored (`StoredReplyIsReplayed`), and what it is told
  in any case is `RepeatIsToldWhatIsRemembered`.
- A SUMMARY inside an alarm is read as the event's own (`AlarmSummaryReplacesTheEvents`).
- At exactly ten minutes a call is no longer in progress and still cannot be replaced
  (`InProgressRefuses`).
- An owner is kept while the number is overwritten (`SaveKeepsOwnersIff`); with one number per
  conversation this never shows, and the transcript theorems say so.

## Model

| member | source | states |
|---|---|---|
| ChecklistStore.Store.LastSettledRow | checklist.go:246-256 | the loop over the rows finds the latest answer or refusal of a question |
| ChecklistStore.Store.CarriedState | checklist.go:225-243 | what a new session already knows of a question: nothing for a per-session one, else the profile, else the last word while fresh |
| ChecklistStore.Store.OpenSession | checklist.go:165-173 | the newest open session of a channel and flow, or none |
| ChecklistStore.Store.Prefill | checklist.go:179-207 | one row per template question, in order, settled exactly when carried and stamped with the new session's time |
| ChecklistStore.Store.EnsureSession | checklist.go:149-213 | returns the open session or appends one; an unknown channel changes nothing |
| Checklist.LastSettled | checklist.go:246-256 | nothing exactly when no row speaks; otherwise a row that speaks and that no other speaking row is newer than |
| Checklist.FindOpen | checklist.go:165-173 | the session found matches channel, flow and state, and no later one does |
| Checklist.Current | checklist.go:301-313 | everything before it is settled and it is not |
| ChecklistStore.Store.NextChecklistItem | checklist.go:301-313 | the loop stops at the first unsettled item |
| ChecklistStore.Store.MarkAsked | checklist.go:325-329 | stamps an item once and changes nothing else |
| ChecklistStore.Store.RecordChecklistAnswer | checklist.go:334-404 | settles the current item and writes its profile field, or reports why not with rows and profile exactly as they were |
| ChecklistStore.Store.Write | checklist.go:356-396 | the transaction: the row written first is put back when the answer turns out unusable |
| ChecklistStore.Store.Persist | checklist.go:364-394 | the profile field an answer updates, and when it has none to give |
| ChecklistStore.Store.AskQuestion | brain.go:273-298 | words a dynamic question from a new suggestion, records the words, stamps the item |
| ChecklistStore.Store.Acknowledge | brain.go:303-312 | only a clear yes to the event offer takes up an offer |
| ChecklistStore.Store.CloseSession | checklist.go:264-268 | closes that session and no other |
| ChecklistStore.Store.FinishOnboarding | brain.go:317-326 | stamps the profile once, closes the session, and says whether the last word on check-ins was an answer |
| ChecklistStore.Store.TakeReply | brain.go:250-268 | what one reply to the question on the table brings about |
| ChecklistStore.Store.OnboardingTurn | brain.go:232-269 | one turn of the introduction, from finding the session to what is said |
| ChecklistStore.Store.InterviewReply | brain.go:331-366 | one turn of the check-in questions |
| ChecklistStore.Store.NextQuestion | ingest.go:123-155 | the agent's next question, in the flow the profile decides |
| ChecklistStore.Store.SaveAnswer | ingest.go:160-213 | the first delivery of an answer, up to the next question or the end of the introduction |
| ChecklistStore.Store.SetName | db.go:276-299 | stores a usable name and settles every open name question; an unusable one changes nothing |
| ChecklistStore.Store.SaveOnboarding | db.go:239-269 | keeps what is usable; nothing missing means onboarded, and exactly the fields still blank are missing |
| Replies.GatherInterests | matching.go:28-41 | the loop with its set of seen interests computes the normalised list |
| ReplyProperties.StoredNameWasSaid | checklist.go:425-438 | whatever is stored is a stretch of the reply without marks at its ends, has a letter, at most four words and at most sixty characters |
| ReplyProperties.NameIsHeard | checklist.go:425-438 | a tidy reply without a lead-in comes back as it was sent, less any closing marks, when it has a letter, at most four words and at most sixty characters, and as nothing otherwise |
| ReplyProperties.NameIsHeardBehindALeadIn | checklist.go:426-433 | and the same behind any of the nine lead-ins, in any case |
| ReplyProperties.CadenceWasNamed | checklist.go:442-453 | a cadence is only heard in a reply that holds one of its words, in whatever case |
| ReplyProperties.CadenceIsHeard | checklist.go:442-453 | a cadence word is heard anywhere in the reply and in any case; of two, the busier wins |
| Replies.Classify | checklist.go:483-495 | an answer is the trimmed, non-empty reply, silence exactly an empty one, and a skip or a refusal exactly one of the listed words once bare |
| ReplyProperties.ClosingWordIsHeard | checklist.go:488-493 | a word followed by any closing marks and in any case is a skip or a refusal exactly when it is listed as one |
| InterviewInvariant.EnsureKeeps | checklist.go:145-213 | starting a session keeps every invariant and touches no earlier session |
| InterviewInvariant.AskKeeps | brain.go:271-298 | asking changes only the current row's words and stamp, and the words are never empty |
| InterviewInvariant.RecordKeeps | checklist.go:331-404 | a saved answer settles the current item of its session and nothing else |
| InterviewInvariant.FinishKeeps | brain.go:314-326 | closing a fully settled introduction restores: open exactly while a question is, closed only for the onboarded |
| InterviewRuns.StepKeeps | brain.go:190-366 | every turn, tool call, name, sign-up and model tool keeps the invariant, extends the tables and settles in order |
| InterviewRuns.RunKeeps | checklist.go:149-404 | so does every run |
| InterviewRuns.SettledForGood | checklist.go:142-143 | a settled item is never unsettled or rewritten, on any run |
| InterviewRuns.RepeatIsAStep | ingest.go:115-177 | a repeated delivery of an answer finds or starts the session and no more, as a refused delivery does |
| InterviewRuns.HistoryIsAChain | brain.go:190-366 | the worlds of any run form a chain of such steps |
| InterviewRuns.SettledInOrder | checklist.go:298-313 | two items of a session settled by different steps are settled in increasing position |
| InterviewRuns.OneAtATime | checklist.go:331-333 | no step settles two items of one session |
| InterviewRuns.OnlyTheCurrentQuestionIsOnTheTable | brain.go:271-281 | on every run an asked, unsettled question is the first unsettled one, it has words, and an offer in it names an event really suggested |
| InterviewRuns.OnboardingIsOneWay | db.go:301-313 | onboarding is never taken back; check-in sessions belong only to the onboarded; an introduction is closed exactly when settled |
| InterviewAnswers.TurnFilesWhatWasHeard | brain.go:250-268 | a turn of the introduction files the reply to the question that was put as what it was: a refusal declined, a skip skipped, both without words, a usable answer with its trimmed words and what they tell, silence not at all |
| InterviewAnswers.CheckinFilesWhatWasHeard | brain.go:331-366 | and so does a text in answer to a check-in question |
| InterviewAnswers.TurnSaysWhatFollows | brain.go:232-269 | what a turn says back: silence is asked again, an unusable answer not understood, anything else followed by the question current then, which is put, or by the closing line |
| InterviewAnswers.CheckinSaysWhatFollows | brain.go:331-366 | and so for a check-in question by text, up to the line that it is complete |
| InterviewAnswers.SavedAsGiven | ingest.go:160-213 | what the agent saves is kept as the agent gives it, exactly when it is for the current question and usable; otherwise nothing is saved |
| InterviewAnswers.NamingSettlesEveryOpenName | db.go:276-299 | giving one's name puts it on the profile and settles every open name question of every session with nothing else changed; what is no name changes nothing |
| InterviewAnswers.LearnedIsKept | db.go:239-269 | what a call learned is kept as far as usable over what was there, and the person is introduced exactly when there are a name and interests to show or they were before |
| InterviewProgress.TurnUsesOneOrNothing | brain.go:232-269 | a turn that asks or carries a usable reply lowers the measure by exactly one; any other turn leaves the world as it was |
| InterviewProgress.LastTurnFinishes | brain.go:262-269 | the measure reaches zero in exactly the turn that stamps the profile, closes the session and says the closing line |
| InterviewProgress.SavedWhenUsable | brain.go:251-258 | a reply is recorded exactly when it is not silence and its profile field accepts it |
| InterviewProgress.RemainingNeverGrows | checklist.go:301-404 | nothing anyone does on any channel makes an introduction longer |
| InterviewProgress.IntroductionsEnd | brain.go:194-269 | over any run, productive turns used, inbound texts among them, plus turns left is at most the turns left at the start, which is at most six |
| InterviewProgress.TurnsAloneAreExact | brain.go:194-269 | with only its own turns and texts, the person is onboarded exactly when as many productive turns have been used as were left |
| InterviewProgress.AskingToolUsesOneOrNone | ingest.go:123-155 | on a call, asking uses one turn the first time a question is put and none when it is put again |
| InterviewProgress.SavingToolUsesItsTurns | ingest.go:160-213 | on a call, a saved answer uses one turn if its question had been put and two if it had not, and a refused one uses none |
| InterviewProgress.FreshIntroductionTakesSix | checklist.go:60-80 | someone unknown starts with six turns to go |
| InterviewMemory.StartsSettledExactlyWhen | checklist.go:225-256 | the exact condition for a question to start a new session settled |
| InterviewMemory.StartsWithWhatIsKnown | checklist.go:196-243 | and it starts with the answer there is: the name or interests on the profile, else the words and status of what was said last, stamped now; a question that is not settled starts blank |
| InterviewMemory.NeverAskedAgain | checklist.go:179-207 | a standing question answered or refused anywhere starts every later session settled, over any run |
| InterviewMemory.OpenSessionsDoNotHear | checklist.go:165-170 | whatever is asked or said on one channel leaves the sessions already open on the others as they were, for every step but naming oneself |
| InterviewMemory.CarriedAnswersOutliveTheirTtl | checklist.go:196-200 | an answer is good for twenty hours, but by way of a session started in between exactly when it was good then and the copy made then is good now |
| InterviewMemory.SessionsAreFew | checklist.go:149-213 | over any run there is at most one session per channel and flow, six in all |
| InterviewMemory.CheckinsAreAskedOnce | brain.go:331-340 | with all of a check-in session settled there is nothing more to ask on its channel on any run, by text or by the agent |
| InterviewMemory.SettledCheckinIsNeverPutAgain | brain.go:331-366 | each check-in question by itself, the twenty-hour one included: once settled on a channel its row never changes, and no text, no asking and no saving puts it there again on any run |
| InterviewLastWord.QueryReads | checklist.go:246-256 | the query reads off exactly what the rows say, whichever copy it finds |
| InterviewLastWord.StepSays | checklist.go:225-404 | each step moves the tables' word on a question exactly as what was heard does |
| InterviewLastWord.TheLastWordStands | checklist.go:415-420 | refinement: over every run the tables answer a standing question with the last answer or refusal actually given |
| Outreach.ARefusalStopsCheckins | scheduler.go:43-49 | a due person is fired at exactly when their last word on check-ins, on any channel, was not a refusal |
| InterviewAnswers.ConsentByTextDecides | scheduler.go:43-49 | from the words of a text to the scheduler, on any run: a refusal of the put question stops the firing whenever due, an answer lets it through, a skip or silence leaves what was on file |
| Outreach.SkippingIsTakenForAgreement | brain.go:322-325 | on every run the closing line says nothing is scheduled while the scheduler would fire when due exactly for those who never answered nor refused the question |
| SkippedConsent.SkippersAreToldOneThingAndSentAnother | brain.go:314-326 | the failing run: whoever signs up with a name and interests and skips every question by text is told nothing is scheduled, and is fired at whenever due, such as at nine the next Thursday |
| InterviewOffers.NoEventIsOfferedTwice | brain.go:515-529 | over any run, on however many channels the offer is asked, no event is offered twice |
| InterviewOffers.OffersAreTakenOnlyOnAYes | brain.go:300-312 | apart from the model's own tool, an offer is taken up only in a step where the person clearly says yes with the offer question on the table |
| InterviewOffers.PollingOffersAnotherEvent | ingest.go:142-145 | asking for the offer question again changes the words and leaves the earlier offer open |
| InterviewOffers.YesTakesWhatWasShownExactlyWhen | brain.go:300-312 | in every reachable state a clear yes takes up the event that was shown exactly when the newest open offer is for that event |
| CrossedOffers.YesCanTakeUpAnotherEvent | db.go:459-463 | the failing run, from signing up and for any one catalogue with two events that suit: shown one by text and another on a call, the person texts yes and the one shown is not the one taken up |
| CrossedOffers.AnyoneCanCrossOffers | db.go:459-463 | with the service's own vocabulary and one list of two events, that run is there for anyone who signs up with a name and one plain interest open to everybody |
| CrossedOffers.SamCanCrossOffers | db.go:459-463 | and Sam, who likes ai, is one of them |
| ReplyProperties.ClearYesIsHeard | checklist.go:468-478 | a reply is a clear yes exactly when it is one of the listed words or opens with one of the three openings, in any case and with any closing marks |
| ReplyProperties.YesIsHeardAsAnAnswer | checklist.go:468-495 | a clear yes is never read as a skip, a refusal or silence |
| ReplyProperties.StoredNamesShow | checklist.go:425-438 | a stored name is never blank on the profile |
| ReplyProperties.SplitJoin | matching.go:28-41 | splitting joined interests gives the pieces back |
| ReplyProperties.InterestsAreHeard | matching.go:28-41 | interests named one after another, each once, in any case and with any closing marks, are kept in that order, in small letters and without the marks |
| ReplyProperties.StoredInterestsReadBackExactlyWhen | matching.go:28-41 | normalising is idempotent exactly when no piece between the commas has a space beside the closing marks at one of its ends |
| ReplyProperties.InterestsThatDoNotReadBack | matching.go:32-33 | the failing family: a word, a space and an exclamation mark |
| Transcripts.Store.SaveTranscript | transcripts.go:58-98 | the upsert: one row per conversation, an owner set is kept, a missing one filled in |
| Transcripts.Store.AdoptTranscripts | transcripts.go:111-118 | attaches exactly the unowned rows with the profile's number and returns how many there were |
| Transcripts.Store.Transcript | transcripts.go:181-190 | a row by id only if the profile may see it |
| Transcripts.Store.DeleteTranscript | transcripts.go:194-201 | deletes the row of that id if the profile may see it, and says whether it did |
| Transcripts.Store.PurgeExpiredTranscripts | transcripts.go:204-210 | deletes exactly the rows that started before the cutoff and returns how many |
| Transcripts.Store.ForgetUser | signals.go:285-314 | of the transcripts and profiles: deletes what the profile owns or could see, and the profile |
| Transcripts.Store.LookUpOwner | transcripts.go:406-425 | the profile with the delivery's number, if there is one |
| TranscriptRuns.VisibleCallsAreTheNumbersCalls | transcripts.go:132-178 | refinement: over any interleaving, what the two-way rule shows is exactly the calls with the number |
| TranscriptRuns.NewcomerSeesTheCallsHeld | db.go:177-194 | in every reachable state whoever signs up sees at once exactly the calls held for their number, and no other profile changes |
| TranscriptRuns.OneRowPerConversation | transcripts.go:58-98 | one row per conversation, and an owner's number is the row's number |
| TranscriptRuns.OwnersAreForKeeps | transcripts.go:70-98 | no step changes or clears the owner of a row that has one |
| TranscriptRuns.AdoptionChangesNobodysView | db.go:155-173 | attaching held calls changes what nobody sees, in every reachable state |
| TranscriptRuns.ForgettingErasesExactlyOneView | signals.go:285-314 | erasure removes exactly one profile's view and leaves every other as it was |
| TranscriptRuns.DeletingNeverTouchesAnotherView | transcripts.go:192-201 | no id lets one profile delete what another can see |
| TranscriptRuns.DeletingTakesThatCallAlone | transcripts.go:192-201 | in every reachable state the deleter's view afterwards is the view before without that id, in order; what is left was there, and what is gone has that id |
| TranscriptRuns.IdsAreGivenOnce | transcripts.go:83-95 | over any run no two rows have the same id |
| TranscriptRuns.SweepTakesTheOldAlone | transcripts.go:204-210 | in every reachable state a sweep deletes a row exactly when it started before the cutoff, and keeps the order of the rest |
| TranscriptRuns.RowsSayWhatWasLastSaved | transcripts.go:54-82 | in every interleaving each row says what the last delivery saved for its conversation said |
| TranscriptRuns.DeliveredCallIsKeptExactlyWhen | transcripts.go:58-98 | a call delivered and saved is on file in its own words, attached to whoever has its number, exactly when its conversation has a name |
| TranscriptRuns.EveryRowIsNamed | transcripts.go:62-64 | no run leaves a row without a conversation |
| TranscriptRuns.AdoptionAttachesEveryCall | transcripts.go:111-118 | an adoption attaches every call with the profile's number and leaves every other row as it was |
| TranscriptRuns.AdoptionCountsWhatItChanged | transcripts.go:111-118 | the number it answers with is how many rows it changed |
| TranscriptRuns.SaveKeepsOwnersIff | transcripts.go:58-98 | the exact condition for the upsert to keep owners and numbers in agreement |
| TranscriptRuns.RenumberedConversationBreaksOwnership | transcripts.go:58-98 | the failing input: an owned conversation delivered again under an unregistered number |
| Limiter.Compact | auth_http.go:39-46 | filters the slice in place, in the buffer it is reading, losing no live hit |
| Limiter.IPLimiter.Take | auth_http.go:36-56 | one attempt: the new log, the verdict and the wait, with every other key untouched |
| Limiter.PruningLosesNoLiveHit | auth_http.go:39-46 | pruned log and full history show the same live hits at any later time |
| Limiter.TakeAgreesWithHistory | auth_http.go:36-56 | refinement: allowed exactly when the full history has room in the window |
| Limiter.NoWindowOverBudget | auth_http.go:17-56 | no window of that length ever holds more than the limit |
| Limiter.RetryAfterIsExact | auth_http.go:47-53 | after a refusal and any further attempts of which none is allowed for the key, a retry gets through exactly when the returned time has passed |
| Throttle.CodeThrottle.ThrottleCode | auth_http.go:178-195 | the three limits in order, what each of them records, how long the caller is told to wait, and no other client's or number's log touched |
| Throttle.LogsFollow | auth_http.go:178-195 | calls one after another keep the logs that asking the three limiters over the run amounts to |
| Throttle.StageIsTheFirstLimitUsedUp | auth_http.go:178-195 | over every ordered run a request is turned away by the first of the three limits that is used up, counting what that limit allowed, and accepted exactly when none is |
| Throttle.BudgetRecordsTheAccepted | auth_http.go:189-193 | what the number's budget has on record is exactly the requests that were accepted |
| Throttle.WaitIsForTheLimitThatRefused | auth_http.go:184-193 | a refused number is told how long until the oldest request counted by the limit that refused it has left that window |
| Throttle.NoNumberIsFlooded | server.go:77-79 | of the requests that were let through, however they are spread over clients, no number gets more than one in thirty seconds or three in fifteen minutes |
| LoginCodes.Store.CountRecent | auth.go:128-131 | how many codes of a number the budget counts |
| LoginCodes.Store.IssueLoginCode | auth.go:123-148 | refuses at the budget, else spends every open code and adds one |
| LoginCodes.Store.DiscardLoginCode | auth.go:154-157 | deletes the open codes of a number |
| LoginCodes.Store.ConsumeLoginCode | auth.go:162-196 | judges the newest open code and records the attempt or the use |
| LoginCodes.Store.PurgeExpired | auth.go:264-278 | deletes exactly the codes that expired before the cutoff |
| LoginCodes.Store.EraseNumber | signals.go:302-304 | erasing a profile deletes every code of its number and no other |
| LoginCodeRuns.OneOpenCodeAndItIsNewest | auth.go:133-147 | over any run a number has at most one open code and it is the one minted last |
| LoginCodeRuns.ExhaustedIsUnreachable | auth.go:162-196 | the attempts-exhausted answer is never given |
| LoginCodeRuns.EverySignInIsSound | auth.go:162-196 | every sign-in used the newest code of its number, unexpired, and never used before or since |
| LoginCodeRuns.FreshCodeWorksOnce | auth.go:123-196 | a fresh code works until it expires, exactly once |
| LoginGuesses.OpenExactlyWhileUnspent | auth.go:162-196 | whatever happens to other numbers, a code stands open exactly while fewer than five wrong secrets were tried, the right one was not, and nobody tried after its ten minutes |
| LoginGuesses.FiveWrongGuessesEndIt | auth.go:185-192 | a try adds a sign-in, exactly one, exactly when it is the right secret in time after fewer than five wrong ones; after five not even the right one does |
| LoginGuesses.TriesAreAnswered | auth.go:162-196 | each try is answered expired after ten minutes, else invalid when wrong, else accepted; once spent there is no code to try |
| LoginCodeRuns.CodeBudgetHolds | auth.go:123-157 | no fifteen minutes hold more than three codes of a number that were neither discarded nor erased, purges or not |
| LoginCodeRuns.EraseOneNumber | signals.go:302-304 | an erasure empties one number's count and history and no other's |
| LoginCodeRuns.ErasureStartsAfresh | signals.go:302-304 | on every run the next code after an erasure is issued |
| LoginCodeRuns.DeletionsTakeTheirOwnAlone | auth.go:154-157 | discarding deletes exactly the unused codes of a number, an erasure exactly all of them, a sweep exactly what expired more than fifteen minutes before |
| LoginCodeRuns.PurgeNeverChangesTheBudget | auth.go:264-278 | a purge removes only rows over twenty-five minutes old, which the budget no longer counts |
| Webhooks.WebhookTable.RememberWebhook | signals.go:319-339 | first or repeat, with the stored reply, when nobody else is at the table |
| Webhooks.WebhookTable.StoreWebhookResponse | ingest.go:73-76 | replaces the stored reply of one key |
| Webhooks.WebhookTable.Forget | signals.go:295 | erasure forgets one key and no other |
| Webhooks.AloneIsRemember | signals.go:319-339 | the three interleaved steps of a delivery, run without interference, are the call |
| Webhooks.AtMostOneFirst | signals.go:316-339 | however lookups and inserts interleave, two deliveries of a key are both told they are first only if the key was forgotten in between |
| Webhooks.SideEffectsRunAtMostOnce | server.go:349-366 | side effects of a key run at most once unless the key is forgotten |
| Webhooks.RepeatsSayWhatTheFirstSaid | ingest.go:166-177 | a repeat is told nothing or exactly what the first stored |
| Webhooks.RepeatIsToldWhatIsRemembered | signals.go:319-339 | on every run and interleaving a repeat is told exactly what was stored last for its key since it was last taken, and nothing when nothing was |
| Webhooks.RepeatReplaysTheFirstsReply | ingest.go:166-177 | as long as the key is not forgotten and nobody else stores for it, whoever looks is told what the first has stored so far |
| Webhooks.StoredReplyIsReplayed | ingest.go:205-210 | for a key that was never forgotten, every later delivery replays exactly the reply its first stored, in any interleaving |
| Webhooks.LateReplyOverwrites | ingest.go:73-76 | the failing run, for any key: a first from before an erasure stores its reply over that of the first after it |
| Webhooks.ToldFirstExactlyWhen | signals.go:319-339 | on every run and interleaving a look finds a repeat exactly when the key is taken then, and an insert makes a first exactly when it is free then |
| Webhooks.RetryRunsExactlyWhen | ingest.go:166-189 | after a first delivery whose handler failed, a retry runs exactly when the last mark of the key is that it was forgotten, and otherwise is told it is a repeat |
| Webhooks.FailedFirstIsNeverRetried | ingest.go:166-189 | over any interleaving: after a failed first delivery no later one runs, and none is told anything, until the key is forgotten |
| Webhooks.FailureSilencesTheRetry | ingest.go:166-189 | the failing run, for any key: the first handler fails, the retry is told it is a repeat with nothing to replay, and only after the key is forgotten does another run |
| CallSlot.Profiles.StartCall | db.go:325-333 | the conditional update claims the slot exactly when it is free or older than the maximum |
| CallSlot.Profiles.EndCall | db.go:337-340 | frees one slot, whatever its state |
| CallSlot.Profiles.PlaceCall | server.go:511-541 | claim, ring, and free again when the provider refuses |
| CallSlot.InProgressRefuses | db.go:39-41 | in progress implies not claimable; the two differ at exactly the maximum |
| CallSlot.AClaimSucceedsExactlyWhen | db.go:322-333 | on every run a click is let through exactly when nothing stands for that profile or what stands is more than the maximum old |
| CallSlot.StandingIsTheLastUnreleased | db.go:322-340 | a claim stands exactly when it is the profile's last and no release, of whatever cause, followed it |
| CallSlot.ClaimsAreExclusive | db.go:322-333 | two claims are separated by a release or by more than the maximum, in every interleaving |
| CallSlot.RefusalFreesTheSlot | server.go:527-531 | a refused call leaves the slot claimable at once |
| CallSlot.SlotsAreSeparate | db.go:325-340 | one profile's steps never touch another's slot |
| CallSlot.SecondCallNeedsAnothersRelease | transcripts.go:438-446 | if a profile's second call is claimed within the maximum while its first is still in the air, the slot was released in between on account of something other than the first |
| CallSlot.OldTranscriptLetsASecondCallRing | transcripts.go:438-446 | the failing run, for any profile: the transcript of a finished call delivered again frees the slot of the call now in the air, and another rings |
| CalendarCache.Calendar.Look | ics.go:188-200 | answers from the cache exactly when there is an entry at most five minutes old |
| CalendarCache.Calendar.BeginRefresh | ics.go:240-250 | a fetch starts exactly when none is under way for the feed |
| CalendarCache.Calendar.Land | ics.go:251-264 | a success replaces the entry, a failure keeps it, and either ends the fetch |
| CalendarCache.OneFetchPerFeed | ics.go:240-266 | in every interleaving at most one fetch per feed is under way |
| CalendarCache.CachedIsLastFetched | ics.go:240-266 | what is cached is what the last successful fetch brought |
| CalendarCache.EntriesOnlyGetNewer | ics.go:251-264 | no step loses an entry or moves its stamp back; only a success changes it |
| CalendarCache.CachedFeedsNeverKeepAnyoneWaiting | ics.go:188-222 | once cached, a feed never makes a later reader wait |
| CalendarCache.CachedReaderAnswersWhatItSaw | ics.go:188-207 | on every run a reader who found the feed cached answers with the copy it saw, however old, whatever happens meanwhile |
| CalendarCache.ColdReaderWaitsExactlyWhen | ics.go:202-250 | on every run a cold reader waits for a fetch exactly when nobody was fetching the feed, and is then waiting for its own |
| CalendarCache.ColdReaderAnswersWhatHasLanded | ics.go:202-222 | on every run it answers what the last fetch to have landed brought, and nothing when none has |
| CalendarCache.SecondColdReaderAnswersEmpty | ics.go:238-246 | the failing run, for any feed: the first reader starts the fetch and waits, the second answers with nothing |
| Ics.UnfoldICS | ics.go:30-45 | the loop over physical lines computes the unfolding |
| Ics.ParseICS | ics.go:49-76 | the loop over lines computes the parse |
| IcsRoundTrip.UnfoldInvertsFolding | ics.go:30-45 | any folding, marks, line endings and blank lines unfold to the original content lines |
| IcsRoundTrip.UnescapeInvertsEscape | ics.go:92-95 | escaping then unescaping gives the text back with newlines as spaces |
| IcsRoundTrip.ReadOutside | ics.go:49-76 | lines outside an event have no effect |
| IcsRoundTrip.ReadCalendar | ics.go:49-76 | reading the lines of any calendar gives its events with a usable start, in order |
| IcsRoundTrip.ParseInvertsPrint | ics.go:30-95 | parsing inverts printing, escaping, folding and line breaking included |
| IcsRoundTrip.ParseInvertsPrintCutAnywhere | ics.go:30-95 | and wherever the printer chooses to cut its lines |
| IcsRoundTrip.EventStartsWhenItSays | ics.go:99-134 | an event starts when its DTSTART says: UTC when it ends in Z, local to the zone named or to London, or a whole day |
| IcsRoundTrip.LastNamedZoneDecides | ics.go:101-108 | of several zones named, the last one known decides |
| IcsRoundTrip.AlarmSummaryReplacesTheEvents | ics.go:49-76 | an event with a nested alarm that has a summary of its own is read as if that were the event's summary |
| IcsRoundTrip.EventLinesCanBeFolded | ics.go:30-45 | every printed event line meets the conditions for folding |
| Matching.SplitPreferences | matching.go:137-150 | the loop sorts interests into wanted and unwanted |
| Matching.ScoreEvent | matching.go:153-233 | a score exactly for the eligible, and which |
| Matching.RankEvents | matching.go:115-133 | the loop and the stable sort compute the ranking |
| Matching.MatchEvent | matching.go:104-111 | the first of the ranking, if any |
| MatchingProperties.SortSorts | matching.go:123-131 | the sort is a sorted permutation |
| MatchingProperties.SortIsStable | matching.go:123-131 | ties keep the order they came in |
| MatchingProperties.StableOrderIsUnique | matching.go:123-131 | sorted and stable leave only one arrangement |
| MatchingProperties.RankIsTheEligibleInOrder | matching.go:115-133 | exactly the eligible candidates, each as often as it came, sorted and stable |
| MatchingProperties.BestIsUnbeaten | matching.go:104-111 | with anything eligible there is a best, and nothing eligible beats it |
| MatchingProperties.NoMatchMeansNothingEligible | matching.go:104-111 | with nothing eligible there is none |
| MatchingProperties.MarkedEventIsBarredExactlyForOutsiders | matching.go:172-181 | an event with a rule's marker is barred by that rule exactly for those none of whose wishes meets one of its opt-ins |
| MatchingProperties.UnmarkedEventIsForEverybody | matching.go:172-181 | no rule bars an event without a marker |
| MatchingProperties.OutsidersAreNeverShownIt | matching.go:172-181 | a marked event is nowhere in the ranking of someone outside its audience |
| MatchingProperties.AnythingElseIsAWish | matching.go:137-150 | what is said without no, not or avoid in front is a wish, kept as said after the others |
| MatchingProperties.DislikeYieldsASubsequence | matching.go:137-172 | one more dislike, in any spelling the code accepts, only takes events away, in the old order with the old scores |
| EventFit.EligibleExactlyWhenItSuits | matching.go:153-231 | eligible exactly when still to come, with a link, holding nothing unwanted, open to somebody of this person's audiences, meeting some wish if there are any, and in London, online or somewhere a wish speaks of |
| EventFit.ScoreAddsUp | matching.go:183-231 | three points for each wish met or one for none, two for a place or one for online, two for less than thirty-one days away or one for less than ninety-one |
| EventFit.MatchingIsMeeting | matching.go:250-262 | a wish is met exactly when the event's text holds its stem or a word grouped under it |
| EventFit.PluralIsReadAsSingular | db.go:68-75 | a plural of five letters or more is read as its singular |
| MatchingProperties.SettingIsWorthOneToFour | matching.go:195-231 | place and time together are worth one to four, and exactly when each bound is met |
| MatchingProperties.MoreHitsNeverScoreLower | matching.go:175-231 | more hits never score lower, and when exactly they tie |
| Suggestions.OpenOffer | db.go:459-470 | the newest offer still open |
| Suggestions.SuggestionTable.SuggestEvent | brain.go:515-529 | picks the best candidate and records it, or reports no match and records nothing |
| Suggestions.SuggestionTable.AcceptSuggestion | brain.go:533-543 | takes up the newest open offer and says which, or nothing |
| Suggestions.SuggestionIsNew | db.go:427-443 | what is suggested is on the list, eligible, and was never offered |
| Suggestions.CandidatesAreTheSoonest | db.go:427-443 | the candidates are events to come that were never offered, soonest first, at most a thousand; whatever is left out starts no sooner than a full thousand that are in |
| Suggestions.SuggestsTheBestToCome | brain.go:515-529 | if any candidate suits there is a suggestion, and no event to come that suits comes before it unless a thousand others start as soon |
| Suggestions.OffersNeverRepeatAndRunOut | brain.go:515-529 | offers never repeat, are never more than the events, and run out |
| Suggestions.SuccessesAreCounted | db.go:454-456 | each success adds one offer and nothing removes any |
| Suggestions.OffersAreNumberedInOrder | db.go:459-463 | on every run offers are numbered in the order they were made, which is what makes the highest number the newest |
| Suggestions.AcceptTakesTheNewestOpen | db.go:459-483 | accepting changes an offer exactly when it is the newest open one |
| Scheduler.DueNow | scheduler.go:71-99 | who is due, slot search included |
| Scheduler.Triggers.MarkTriggered | db.go:355-358 | stamps one profile's last firing and no other's |
| Scheduler.Triggers.Tick | scheduler.go:32-56 | a tick fires at exactly those who are due and have not refused, and stamps exactly those |
| Scheduler.AtMostOncePerSlot | scheduler.go:71-99 | at most one firing per person, date and slot over any ticks and triggers |
| Scheduler.ExactlyOnceWhenTicked | scheduler.go:32-99 | and exactly one when a tick falls in the slot with nothing earlier in it |
| Scheduler.OnlyTheWillingAreFiredAt | scheduler.go:32-99 | on every run each firing is of a tick that found the person introduced, not refusing, and in an hour and on a day of their own schedule |
| Scheduler.FiresExactlyAtWhoMayBeReached | scheduler.go:60-99 | a tick fires at somebody exactly when they are introduced, have not refused, have not been fired at since the hour began, and the hour and day are of their schedule |
| Scheduler.TickFiresExactlyWhen | scheduler.go:32-99 | over every ordered run a tick fires exactly when the person may be reached, no firing is still under way, and nothing was triggered since the hour began, by hand or by an earlier tick |
| Scheduler.PassIsAStepForEach | scheduler.go:32-56 | a pass over everybody is, for each person, that person's tick and stamp and nothing else |
| Signals.Store.Decide | signals.go:101-122 | one decision replaces what was on file for that scope and no other |
| Signals.Store.IngestSignal | signals.go:169-195 | stores an observation only with consent and a known kind |
| Signals.Store.LatestSignal | signals.go:199-217 | the newest observation while consented and fresh |
| Signals.Store.PurgeExpiredSignals | signals.go:236-248 | deletes exactly what is past the retention of its kind and returns how many |
| Signals.Store.EraseUser | signals.go:285-290 | erasing a profile deletes its consents and observations and nobody else's |
| Signals.ConsentIsLastDecision | signals.go:96-122 | consent holds exactly when the last decision since any erasure was a grant |
| Signals.TableAgreesWithHeard | signals.go:169-248 | what the table keeps and what was heard give the same newest observation, or the one lost is past its lifetime |
| Signals.KnownIff | signals.go:199-217 | the exact condition for a reading to be known, and its value, from decisions and accepted observations alone |
| Signals.KnownWhileBelieved | signals.go:23-38 | on every run a reading is known exactly while consent holds and it is younger than two hours for a heart rate, six for a location, twelve for a calendar, seven days for commitments |
| Signals.RetentionOutlastsTtl | signals.go:23-38 | every retention is longer than the matching lifetime |
| Signals.SweepIsInvisible | signals.go:236-248 | a sweep inserted anywhere in a run, with more decided and observed after it, leaves every later reading equal or both unknown |
| Signals.SweepTakesTheOldAlone | signals.go:236-248 | on every run a sweep deletes exactly the observations older than their kind is kept, in order, and no consent |
| Signals.ConsentRowIsOnFile | signals.go:96-122 | on every run the consent row holds when the last grant and the last refusal after it were made; a refusal keeps the grant it takes back and invents none |

## Left out

- One person at a time: the interview and suggestion tables are modelled for one user id, since every query there is scoped by it; transcripts, codes, slots, webhooks and triggers are modelled for many.
- Checklist.LastSettled: SQL leaves the order of rows with equal stamps open; the model takes the later row. TheLastWordStands asks for a strictly increasing clock and does not depend on it.
- Checklist.EnsureSession: one atomic step; two requests racing to create the same session are not interleaved, and database errors are not modelled.
- ChecklistStore.Store.AskQuestion: question texts are not spelled out; a wording is blank, the fixed text of a question, the event it names, or that nothing matched.
- ChecklistStore.Store.SaveAnswer: the idempotency key is the Webhooks model. The session is found or started before the key is looked at, so a repeat may start one and does nothing else (InterviewRuns.RepeatIsAStep). JSON and instructions to the agent are not modelled.
- ChecklistStore.Store.InterviewReply: once it is not handled the model takes over; its loop and prompts are foreign, and its two tools that touch offers are steps of the runs.
- Replies.Classify: letters are ASCII for case mapping and for deciding whether a name has a letter, and lengths count characters.
- The session, item and message identifiers, updated_at columns and ended_at stamp: nothing reads them here.
- Suggestions.SuggestionTable.SuggestEvent: the event list is given; the join that would hide an offer whose event row was deleted is not modelled, and events with equal starts keep list order.
- Matching.ScoreEvent: the reasons given for a score are text and are left out; the vocabulary is a parameter of which the service's own is one value.
- Scheduler.Triggers.Tick: the London offset is a function of time that is constant within the nine and twenty o'clock hours; sending the message is success or failure and the stamp is written either way.
- Scheduler.ExactlyOnceWhenTicked: assumes no firing left over from an earlier slot, which a very slow provider could cause.
- IcsRoundTrip.ParseInvertsPrint: DTSTART values are read by an abstract codec rather than Go's layouts and time-zone database; an event's other lines must not themselves begin with SUMMARY, DTSTART or the VEVENT markers, so an alarm nested in an event that carries its own summary is outside it; AlarmSummaryReplacesTheEvents says what is read then.
- Ics.UnfoldICS: works on characters; the source cuts the fold mark off as one byte, which is the same for a space or a tab.
- CalendarCache.Calendar.Look: the day filter and display times of the entries are left out; feeds are fetched by a foreign call that succeeds or fails.
- Webhooks.SideEffectsRunAtMostOnce: speaks of deliveries with a key and a working database; without a key, or when the lookup fails, the source runs the handler anyway.
- LoginCodes.Store.ConsumeLoginCode: a code's hash is taken to be injective, random codes are arbitrary values, and each call is one atomic step.
- LoginCodes.Store.PurgeExpired: the auth sessions and audit rows the same sweep deletes are left out, with starting, reading and revoking sessions; each is one keyed statement with nothing spanning operations.
- Transcripts.Store.SaveTranscript: only owner, number, conversation, body and start are kept of a row; the other columns are overwritten alike.
- Transcripts.Store.ForgetUser: the one transaction is split over the modules that hold its tables: codes (LoginCodes.Store.EraseNumber), webhook keys (Webhooks.WebhookTable.Forget), consents and readings (Signals.Store.EraseUser); the theorems there say what survives it. Auth sessions and the audit log are not modelled.
- InterviewRuns.SettledForGood: the interview and offer theorems are about one life of a profile. An erasure deletes its sessions, items and offers and ends that life; whoever signs up again is a new person, about whom nothing is known.
- TranscriptRuns.VisibleCallsAreTheNumbersCalls: assumes one number per conversation; RenumberedConversationBreaksOwnership shows why. Search, paging and order by start are not modelled.
- Limiter.IPLimiter.Take: the mutex makes it atomic; reading the client address from a request is not modelled.
- Signals.Store.LatestSignal: why a reading is unknown is kept apart, but its words, the row identifiers and the list of all readings are left out; of observations made at the same instant the earliest stored is read.
- HTTP handlers, cookies, signatures, TwiML, templates, event loading, migrations, metrics and configuration: plumbing with little to prove.
