/** The interview of one person: sessions of ordered questions, what a new session already knows,
    and the one question that may be settled next. */
module Checklist {
  import opened Clock
  import opened Options
  import opened Text
  import Matching
  import Replies
  import Suggestions

  datatype Status = Unanswered | Answered | Skipped | Declined

  datatype Source = Conversation | OnFile

  datatype Flow = Onboarding | Checkin

  datatype Channel = Call | Sms | Web | UnknownChannel

  datatype Key =
    | Name | EventTypes | EventTime | EventOffer | CheckinConsent
    | EveningAvailability | NotifyWatch
    | UnknownKey

  /** What a question says: its fixed text, or for the event offer the event it names, or that
      nothing matched. */
  datatype Wording = Blank | Fixed(question: Key) | Offering(event: int) | NoMatch

  datatype Item = Item(
    key: Key, prompt: Wording, status: Status, answer: string, source: Source,
    askedAt: Option<Time>, answeredAt: Option<Time>)
  {
    predicate Settled() { status != Unanswered }

    predicate Asked() { askedAt.Some? }
  }

  datatype Session = Session(channel: Channel, flow: Flow, open: bool, items: seq<Item>)

  datatype Profile = Profile(name: string, interests: string, frequency: string, onboardedAt: Option<Time>)
  {
    predicate Onboarded() { onboardedAt.Some? }

    function DisplayName(): string { TrimSpace(name) }
  }

  /** Everything the service holds about one person's conversations; rows stand in insertion
      order. */
  datatype World = World(profile: Profile, sessions: seq<Session>, book: Suggestions.Book)

  /** What an event offer is chosen from. */
  datatype Catalogue = Catalogue(vocabulary: Matching.Vocabulary, events: seq<Matching.Event>)

  // ----- the questions ---------------------------------------------------------------------------

  const ONBOARDING_TEMPLATE: seq<Key> := [Name, EventTypes, EventTime, EventOffer, CheckinConsent]
  const CHECKIN_TEMPLATE: seq<Key> := [EveningAvailability, NotifyWatch]

  function Template(flow: Flow): seq<Key> {
    if flow.Onboarding? then ONBOARDING_TEMPLATE else CHECKIN_TEMPLATE
  }

  /** An answer about one particular event says nothing about the next. */
  predicate PerSession(key: Key) { key.EventOffer? }

  /** Worded at the moment it is asked. */
  predicate Dynamic(key: Key) { key.EventOffer? }

  /** How long an answer stays usable; 0 is for good. */
  function Ttl(key: Key): Time {
    if key.EveningAvailability? then 20 * HOUR else 0
  }

  function StoredPrompt(key: Key): Wording {
    if Dynamic(key) then Blank else Fixed(key)
  }

  /** What the profile already says. */
  function KnownFrom(key: Key, p: Profile): string {
    match key
    case Name => TrimSpace(p.DisplayName())
    case EventTypes => TrimSpace(p.interests)
    case _ => ""
  }

  function FlowFor(p: Profile): Flow {
    if p.Onboarded() then Checkin else Onboarding
  }

  // ----- what a new session already knows --------------------------------------------------------

  function Rows(sessions: seq<Session>): seq<Item> {
    if sessions == [] then [] else Rows(sessions[..|sessions| - 1]) + sessions[|sessions| - 1].items
  }

  /** Whether a row speaks for its question: a refusal, or an answer with words in it. */
  predicate Speaks(it: Item, key: Key) {
    it.key == key && (it.status.Declined? || (it.status.Answered? && it.answer != ""))
  }

  function StampOf(it: Item): Time { it.answeredAt.GetOr(0) }

  /** The latest row that speaks for a question. */
  function LastSettled(rows: seq<Item>, key: Key): (last: Option<Item>)
    ensures last.None? <==> forall i :: 0 <= i < |rows| ==> !Speaks(rows[i], key)
    ensures last.Some? ==> Speaks(last.value, key) && last.value in rows
    ensures last.Some? ==>
              forall i :: 0 <= i < |rows| && Speaks(rows[i], key) ==> StampOf(rows[i]) <= StampOf(last.value)
  {
    if rows == [] then None
    else
      var n := |rows| - 1;
      var rest := LastSettled(rows[..n], key);
      if Speaks(rows[n], key) && (rest.None? || StampOf(rows[n]) >= StampOf(rest.value)) then Some(rows[n]) else rest
  }

  datatype Carried = Carried(status: Status, answer: string, source: Source)

  const NOT_KNOWN := Carried(Unanswered, "", Conversation)

  function CarryForward(key: Key, w: World, now: Time): Carried {
    if PerSession(key) then NOT_KNOWN
    else if KnownFrom(key, w.profile) != "" then Carried(Answered, KnownFrom(key, w.profile), OnFile)
    else
      match LastSettled(Rows(w.sessions), key)
      case None => NOT_KNOWN
      case Some(row) =>
        if Ttl(key) > 0 && now - StampOf(row) > Ttl(key) then NOT_KNOWN
        else Carried(row.status, row.answer, Conversation)
  }

  /** A carried answer is stamped with the new session's time. */
  function StartItem(key: Key, w: World, now: Time): Item {
    var c := CarryForward(key, w, now);
    Item(key, StoredPrompt(key), c.status, c.answer, c.source, None,
         if c.status != Unanswered then Some(now) else None)
  }

  function StartItems(keys: seq<Key>, w: World, now: Time): (items: seq<Item>)
    ensures |items| == |keys|
    ensures forall i :: 0 <= i < |keys| ==> items[i] == StartItem(keys[i], w, now)
  {
    if keys == [] then []
    else StartItems(keys[..|keys| - 1], w, now) + [StartItem(keys[|keys| - 1], w, now)]
  }

  /** The newest open session of a channel and flow, or -1. */
  function FindOpen(sessions: seq<Session>, channel: Channel, flow: Flow): (s: int)
    ensures -1 <= s < |sessions|
    ensures s >= 0 ==> sessions[s].channel == channel && sessions[s].flow == flow && sessions[s].open
    ensures forall k :: s < k < |sessions| ==>
              !(sessions[k].channel == channel && sessions[k].flow == flow && sessions[k].open)
  {
    if sessions == [] then -1
    else
      var n := |sessions| - 1;
      if sessions[n].channel == channel && sessions[n].flow == flow && sessions[n].open then n
      else FindOpen(sessions[..n], channel, flow)
  }

  /** `s` is the session to use, or -1 when the channel is not one the service knows. */
  datatype Ensured = Ensured(world: World, s: int)

  function EnsureSession(w: World, channel: Channel, flow: Flow, now: Time): (e: Ensured)
    ensures -1 <= e.s < |e.world.sessions|
    ensures e.s < 0 <==> channel.UnknownChannel?
    ensures e.s < 0 ==> e.world == w
    ensures e.s >= 0 ==> e.world.sessions[e.s].channel == channel && e.world.sessions[e.s].flow == flow
                         && e.world.sessions[e.s].open
  {
    if channel.UnknownChannel? then Ensured(w, -1)
    else
      var s := FindOpen(w.sessions, channel, flow);
      if s >= 0 then Ensured(w, s)
      else
        var created := Session(channel, flow, true, StartItems(Template(flow), w, now));
        Ensured(w.(sessions := w.sessions + [created]), |w.sessions|)
  }

  // ----- the question on the table ---------------------------------------------------------------

  /** Where the first open item is, or the number of items when none is. */
  function Current(items: seq<Item>): (i: nat)
    ensures i <= |items|
    ensures forall k :: 0 <= k < i ==> items[k].Settled()
    ensures i < |items| ==> !items[i].Settled()
  {
    if items == [] then 0
    else if !items[0].Settled() then 0
    else Current(items[1..]) + 1
  }

  predicate At(w: World, s: int, i: int) {
    0 <= s < |w.sessions| && 0 <= i < |w.sessions[s].items|
  }

  function Put(w: World, s: int, i: int, it: Item): World
    requires At(w, s, i)
  {
    var items := w.sessions[s].items[i := it];
    w.(sessions := w.sessions[s := w.sessions[s].(items := items)])
  }

  function MarkAsked(w: World, s: int, i: int, now: Time): World
    requires At(w, s, i)
  {
    var it := w.sessions[s].items[i];
    Put(w, s, i, it.(askedAt := if it.Asked() then it.askedAt else Some(now)))
  }

  // ----- recording an answer ---------------------------------------------------------------------

  datatype Refusal = BadStatus | EmptyAnswer | NotCurrent | Unusable

  datatype Recorded = Saved(world: World, item: Item) | Refused(why: Refusal)

  /** The profile once an answer is written to it, or nothing when the answer is unusable. */
  function Persisted(p: Profile, key: Key, answer: string): Option<Profile> {
    match key
    case EventTypes =>
      var interests := Replies.NormaliseInterests(answer);
      if interests == "" then None else Some(p.(interests := interests))
    case Name =>
      var name := Replies.NormaliseName(answer);
      if name == "" then None else Some(p.(name := name))
    case CheckinConsent =>
      var frequency := Replies.NormaliseFrequency(answer);
      Some(if frequency == "" then p else p.(frequency := frequency))
    case _ => Some(p)
  }

  /** What is checked before anything is written. */
  function Blocked(items: seq<Item>, key: Key, status: Status, said: string): Option<Refusal> {
    if status.Unanswered? then Some(BadStatus)
    else if status.Answered? && said == "" then Some(EmptyAnswer)
    else if Current(items) == |items| || items[Current(items)].key != key then Some(NotCurrent)
    else None
  }

  /** Settles the current item, and only that one. */
  function Record(w: World, s: int, key: Key, status: Status, answer: string, now: Time): Recorded
    requires 0 <= s < |w.sessions|
  {
    var said := TrimSpace(answer);
    var items := w.sessions[s].items;
    var blocked := Blocked(items, key, status, said);
    if blocked.Some? then Refused(blocked.value)
    else
      var i := Current(items);
      var p := if status.Answered? then Persisted(w.profile, key, said) else Some(w.profile);
      if p.None? then Refused(Unusable)
      else
        var it := items[i].(status := status, answer := said, source := Conversation, answeredAt := Some(now));
        Saved(Put(w, s, i, it).(profile := p.value), it)
  }

  // ----- one turn --------------------------------------------------------------------------------

  datatype Worded = Worded(world: World, prompt: Wording)

  /** Puts a question to the person, wording it first if its wording depends on their answers. */
  function AskQuestion(w: World, s: int, i: int, c: Catalogue, now: Time): Worded
    requires At(w, s, i)
  {
    var it := w.sessions[s].items[i];
    if !Dynamic(it.key) then Worded(MarkAsked(w, s, i, now), it.prompt)
    else
      var interests := Matching.InterestList(Split(w.profile.interests, ','));
      var t := Suggestions.Suggest(c.vocabulary, interests, c.events, w.book, now);
      var prompt := if t.choice.None? then NoMatch else Offering(t.choice.value.event.id);
      Worded(MarkAsked(Put(w.(book := t.book), s, i, it.(prompt := prompt)), s, i, now), prompt)
  }

  /** A clear yes to the event offer takes up the newest open offer; nothing else does. */
  function Acknowledge(w: World, key: Key, status: Status, answer: string): World {
    if key.EventOffer? && status.Answered? && Replies.IsYes(answer) then w.(book := Suggestions.Accept(w.book))
    else w
  }

  function MarkOnboarded(p: Profile, now: Time): Profile {
    if p.Onboarded() then p else p.(onboardedAt := Some(now))
  }

  /** Stamps the profile and closes the session. */
  function FinishOnboarding(w: World, s: int, now: Time): World
    requires 0 <= s < |w.sessions|
  {
    w.(profile := MarkOnboarded(w.profile, now), sessions := w.sessions[s := w.sessions[s].(open := false)])
  }

  /** Whether the last word on check-ins was an answer rather than a refusal or nothing. */
  predicate Agreed(w: World) {
    var last := LastSettled(Rows(w.sessions), CheckinConsent);
    last.Some? && last.value.status.Answered?
  }

  /** What is said back. */
  datatype Said =
    | Fallback
    | Ask(prompt: Wording)
    | AskAgain(prompt: Wording)     // the reply settled nothing
    | DidNotGet(prompt: Wording)    // the reply could not be used
    | Closing(agreed: bool)
    | Complete
    | Unhandled                     // left to the model

  datatype Turn = Turn(world: World, said: Said)

  function Finish(w: World, s: int, now: Time): Turn
    requires 0 <= s < |w.sessions|
  {
    var done := FinishOnboarding(w, s, now);
    Turn(done, Closing(Agreed(done)))
  }

  /** How a reply to a question reads as a status and an answer. */
  function ReadReply(inbound: string): (Status, string) {
    match Replies.Classify(inbound)
    case Silence => (Unanswered, "")
    case Skip => (Skipped, "")
    case Refusal => (Declined, "")
    case Says(answer) => (Answered, answer)
  }

  /** After a settled question: the next one, or the end of the introduction. */
  function Onward(w: World, s: int, c: Catalogue, now: Time): Turn
    requires 0 <= s < |w.sessions|
  {
    var next := Current(w.sessions[s].items);
    if next == |w.sessions[s].items| then Finish(w, s, now)
    else
      var a := AskQuestion(w, s, next, c, now);
      Turn(a.world, Ask(a.prompt))
  }

  /** A reply to the question on the table of an introduction. */
  function TakeReply(w: World, s: int, inbound: string, c: Catalogue, now: Time): Turn
    requires 0 <= s < |w.sessions| && Current(w.sessions[s].items) < |w.sessions[s].items|
  {
    var current := w.sessions[s].items[Current(w.sessions[s].items)];
    var (status, answer) := ReadReply(inbound);
    if status.Unanswered? then Turn(w, AskAgain(current.prompt))
    else
      match Record(w, s, current.key, status, answer, now)
      case Refused(why) => Turn(w, if why.Unusable? then DidNotGet(current.prompt) else Ask(current.prompt))
      case Saved(w1, it) => Onward(Acknowledge(w1, it.key, status, answer), s, c, now)
  }

  /** One turn of the introduction. */
  function OnboardingTurn(w: World, channel: Channel, inbound: string, c: Catalogue, now: Time): Turn {
    var e := EnsureSession(w, channel, Onboarding, now);
    if e.s < 0 then Turn(w, Fallback)
    else
      var items := e.world.sessions[e.s].items;
      var i := Current(items);
      if i == |items| then Finish(e.world, e.s, now)
      else if !items[i].Asked() then
        var a := AskQuestion(e.world, e.s, i, c, now);
        Turn(a.world, Ask(a.prompt))
      else TakeReply(e.world, e.s, inbound, c, now)
  }

  /** One turn of the check-in questions over SMS. */
  function InterviewReply(w: World, inbound: string, now: Time): Turn {
    var e := EnsureSession(w, Sms, Checkin, now);
    var items := e.world.sessions[e.s].items;
    var i := Current(items);
    if i == |items| then Turn(e.world, Unhandled)
    else if !items[i].Asked() then Turn(MarkAsked(e.world, e.s, i, now), Ask(items[i].prompt))
    else
      var (status, answer) := ReadReply(inbound);
      if status.Unanswered? then Turn(e.world, AskAgain(items[i].prompt))
      else
        match Record(e.world, e.s, items[i].key, status, answer, now)
        case Refused(why) =>
          Turn(e.world, if why.Unusable? then DidNotGet(items[i].prompt) else Ask(items[i].prompt))
        case Saved(w1, _) =>
          var after := w1.sessions[e.s].items;
          var next := Current(after);
          if next == |after| then Turn(w1, Complete)
          else Turn(MarkAsked(w1, e.s, next, now), Ask(after[next].prompt))
  }

  /** What an inbound text does before any model is involved. */
  function Reply(w: World, inbound: string, c: Catalogue, now: Time): Turn {
    if !w.profile.Onboarded() then OnboardingTurn(w, Sms, inbound, c, now) else InterviewReply(w, inbound, now)
  }

  // ----- the voice agent's tools -----------------------------------------------------------------

  function NextQuestion(w: World, channel: Channel, c: Catalogue, now: Time): Turn {
    var e := EnsureSession(w, channel, FlowFor(w.profile), now);
    if e.s < 0 then Turn(w, Fallback)
    else
      var items := e.world.sessions[e.s].items;
      var i := Current(items);
      if i == |items| then Turn(e.world, Complete)
      else
        var a := AskQuestion(e.world, e.s, i, c, now);
        Turn(a.world, Ask(a.prompt))
  }

  /** From a saved answer to what the agent is told next. */
  function AfterSave(w: World, s: int, it: Item, c: Catalogue, now: Time): Turn
    requires 0 <= s < |w.sessions|
  {
    var w2 := Acknowledge(w, it.key, it.status, it.answer);
    if w.sessions[s].flow.Checkin? && Current(w2.sessions[s].items) == |w2.sessions[s].items| then Turn(w2, Complete)
    else Onward(w2, s, c, now)
  }

  /** The first delivery of an answer.  A repeat gets no further than finding or starting the
      session, as a refused one does. */
  function SaveAnswer(
    w: World, channel: Channel, key: Key, status: Status, answer: string, c: Catalogue, now: Time): Turn
  {
    var e := EnsureSession(w, channel, FlowFor(w.profile), now);
    if e.s < 0 then Turn(w, Fallback)
    else
      match Record(e.world, e.s, key, status, answer, now)
      case Refused(_) => Turn(e.world, Fallback)
      case Saved(w1, it) => AfterSave(w1, e.s, it, c, now)
  }

  // ----- what is said elsewhere ------------------------------------------------------------------

  /** Settles every open name question of a session. */
  function NameItems(items: seq<Item>, name: string, now: Time): (after: seq<Item>)
    ensures |after| == |items|
    ensures forall i :: 0 <= i < |items| ==>
              after[i] == if items[i].key.Name? && !items[i].Settled()
                          then items[i].(status := Answered, answer := name, source := OnFile, answeredAt := Some(now))
                          else items[i]
  {
    if items == [] then []
    else
      var n := |items| - 1;
      NameItems(items[..n], name, now)
      + [if items[n].key.Name? && !items[n].Settled()
         then items[n].(status := Answered, answer := name, source := OnFile, answeredAt := Some(now))
         else items[n]]
  }

  function NameSessions(sessions: seq<Session>, name: string, now: Time): (after: seq<Session>)
    ensures |after| == |sessions|
    ensures forall s :: 0 <= s < |sessions| ==>
              after[s] == sessions[s].(items := NameItems(sessions[s].items, name, now))
  {
    if sessions == [] then []
    else
      var n := |sessions| - 1;
      NameSessions(sessions[..n], name, now) + [sessions[n].(items := NameItems(sessions[n].items, name, now))]
  }

  /** Nothing when the name is refused. */
  function SetName(w: World, raw: string, now: Time): Option<World> {
    var name := Replies.NormaliseName(raw);
    if name == "" then None
    else Some(w.(profile := w.profile.(name := name), sessions := NameSessions(w.sessions, name, now)))
  }

  /** What is usable of what the voice agent learned. */
  function Learned(p: Profile, name: string, interests: string, frequency: string): Profile {
    var n, i, f := Replies.NormaliseName(name), Replies.NormaliseInterests(interests), TrimSpace(frequency);
    p.(name := if n != "" then n else p.name,
       interests := if i != "" then i else p.interests,
       frequency := if Replies.ValidFrequency(f) then f else p.frequency)
  }

  /** Only a profile with a name and interests is onboarded by what the voice agent learned. */
  function SaveOnboarding(p: Profile, name: string, interests: string, frequency: string, now: Time): Profile {
    var learned := Learned(p, name, interests, frequency);
    if learned.DisplayName() != "" && TrimSpace(learned.interests) != "" then MarkOnboarded(learned, now) else learned
  }

  /** Signing up again: empty interests keep what is on file. */
  function SignUpAgain(p: Profile, name: string, interests: string, frequency: string): Profile {
    p.(name := name, frequency := frequency,
       interests := if TrimSpace(interests) == "" then p.interests else interests)
  }
}
