/** Copies and all, the checklist tables answer as if they held one thing per question: the last
    answer or refusal the person actually gave. */
module InterviewLastWord {
  import opened Clock
  import opened Options
  import opened Checklist
  import opened InterviewInvariant
  import opened InterviewRuns
  import opened InterviewMemory
  import InterviewProgress

  /** Questions the profile does not answer and no single session owns. */
  predicate Standing(key: Key) {
    key in {EventTime, CheckinConsent, EveningAvailability, NotifyWatch}
  }

  datatype Word = Word(status: Status, answer: string)

  datatype Heard = Heard(key: Key, word: Word)

  // ----- the simple account: what was said, as it was said ----------------------------------------

  function HeardIn(w: World, s: int, key: Key, status: Status, answer: string, now: Time): Option<Heard>
    requires 0 <= s < |w.sessions|
  {
    match Record(w, s, key, status, answer, now)
    case Refused(_) => None
    case Saved(_, it) => Some(Heard(key, Word(status, it.answer)))
  }

  function HeardReply(e: Ensured, inbound: string, now: Time): Option<Heard>
    requires -1 <= e.s < |e.world.sessions|
  {
    if e.s < 0 then None
    else
      var items := e.world.sessions[e.s].items;
      var i := Current(items);
      if i == |items| || !items[i].Asked() then None
      else
        var (status, answer) := ReadReply(inbound);
        HeardIn(e.world, e.s, items[i].key, status, answer, now)
  }

  /** What a step heard in reply to a question. */
  function HeardBy(w: World, step: Step): Option<Heard> {
    match step
    case TurnStep(channel, inbound, _, now) =>
      if w.profile.Onboarded() then None else HeardReply(EnsureSession(w, channel, Onboarding, now), inbound, now)
    case ReplyStep(inbound, _, now) => HeardReply(EnsureSession(w, Sms, FlowFor(w.profile), now), inbound, now)
    case SaveAnswerStep(channel, key, status, answer, _, now) =>
      var e := EnsureSession(w, channel, FlowFor(w.profile), now);
      if e.s < 0 then None else HeardIn(e.world, e.s, key, status, answer, now)
    case _ => None
  }

  /** Skipping says nothing. */
  function WordAfter(word: Option<Word>, heard: Option<Heard>, key: Key): Option<Word> {
    if heard.Some? && heard.value.key == key && heard.value.word.status in {Answered, Declined}
    then Some(heard.value.word) else word
  }

  function LastWord(w: World, run: seq<Step>, key: Key): Option<Word> {
    if run == [] then None
    else
      var front := run[..|run| - 1];
      WordAfter(LastWord(w, front, key), HeardBy(RunFrom(w, front), run[|run| - 1]), key)
  }

  // ----- what the tables say ---------------------------------------------------------------------

  predicate SpeaksAt(w: World, key: Key, s: int, i: int) {
    ItemAt(w, s, i) && Speaks(w.sessions[s].items[i], key)
  }

  function WordAt(w: World, s: int, i: int): Word
    requires ItemAt(w, s, i)
  {
    Word(w.sessions[s].items[i].status, w.sessions[s].items[i].answer)
  }

  function StampAt(w: World, s: int, i: int): Time
    requires ItemAt(w, s, i)
  {
    StampOf(w.sessions[s].items[i])
  }

  /** No row that speaks is stamped later than `t`. */
  ghost predicate SpokenBy(w: World, key: Key, t: Time) {
    forall s, i :: SpeaksAt(w, key, s, i) ==> StampAt(w, s, i) <= t
  }

  ghost predicate SpokenBefore(w: World, key: Key, t: Time) {
    forall s, i :: SpeaksAt(w, key, s, i) ==> StampAt(w, s, i) < t
  }

  /** Row `s`, `i` is a newest one that speaks, and all as new as it say the same. */
  ghost predicate Tells(w: World, key: Key, s: int, i: int) {
    && SpeaksAt(w, key, s, i)
    && forall t, j :: SpeaksAt(w, key, t, j) ==>
         StampAt(w, t, j) <= StampAt(w, s, i) && (StampAt(w, t, j) == StampAt(w, s, i) ==> WordAt(w, t, j) == WordAt(w, s, i))
  }

  ghost predicate Says(w: World, key: Key, word: Option<Word>) {
    match word
    case None => forall s, i :: !SpeaksAt(w, key, s, i)
    case Some(said) => exists s, i :: Tells(w, key, s, i) && WordAt(w, s, i) == said
  }

  /** The query the service runs reads off exactly what the tables say. */
  lemma QueryReads(w: World, key: Key, word: Option<Word>)
    requires Says(w, key, word)
    ensures var last := LastSettled(Rows(w.sessions), key);
      match word
      case None => last.None?
      case Some(said) => last.Some? && Word(last.value.status, last.value.answer) == said
  {
    SaidIsFound(w, key);
    var last := LastSettled(Rows(w.sessions), key);
    match word
    case None =>
      assert !EverSaid(w, key) by {
        if EverSaid(w, key) {
          var s, i :| ItemAt(w, s, i) && Speaks(w.sessions[s].items[i], key);
          assert SpeaksAt(w, key, s, i);
        }
      }
    case Some(said) =>
      var s, i :| Tells(w, key, s, i) && WordAt(w, s, i) == said;
      assert ItemAt(w, s, i) && Speaks(w.sessions[s].items[i], key);
      RowsHold(w.sessions, s, i);
      RowsAreHeld(w.sessions, last.value);
      var t, j :| 0 <= t < |w.sessions| && 0 <= j < |w.sessions[t].items| && w.sessions[t].items[j] == last.value;
      assert SpeaksAt(w, key, t, j);
  }

  // ----- steps -----------------------------------------------------------------------------------

  /** No row begins or ceases to speak. */
  ghost predicate Quiet(w: World, w': World, key: Key) {
    && (forall s, i :: SpeaksAt(w, key, s, i) ==>
         SpeaksAt(w', key, s, i) && w'.sessions[s].items[i] == w.sessions[s].items[i])
    && (forall s, i :: SpeaksAt(w', key, s, i) ==> SpeaksAt(w, key, s, i))
  }

  lemma QuietKeepsTheWord(w: World, w': World, key: Key, word: Option<Word>, t: Time)
    requires Quiet(w, w', key) && Says(w, key, word) && SpokenBy(w, key, t)
    ensures Says(w', key, word) && SpokenBy(w', key, t)
  {
    if word.Some? {
      var s, i :| Tells(w, key, s, i) && WordAt(w, s, i) == word.value;
      assert Tells(w', key, s, i);
    }
  }

  lemma QuietTwice(a: World, b: World, c: World, key: Key)
    requires Quiet(a, b, key) && Quiet(b, c, key)
    ensures Quiet(a, c, key)
  {
  }

  /** A row that begins to speak later than all others is what the tables say from then on. */
  lemma NewRowTells(w: World, w': World, key: Key, s: int, i: int)
    requires SpeaksAt(w', key, s, i) && SpokenBefore(w, key, StampAt(w', s, i))
    requires forall t, j :: SpeaksAt(w', key, t, j) && !(t == s && j == i) ==>
               SpeaksAt(w, key, t, j) && w'.sessions[t].items[j] == w.sessions[t].items[j]
    ensures Says(w', key, Some(WordAt(w', s, i))) && SpokenBy(w', key, StampAt(w', s, i))
  {
    assert Tells(w', key, s, i);
  }

  lemma EachKeyOnce(flow: Flow, i: int, j: int)
    requires 0 <= i < |Template(flow)| && 0 <= j < |Template(flow)| && Template(flow)[i] == Template(flow)[j]
    ensures i == j
  {
  }

  lemma CarriedSays(w: World, key: Key, word: Option<Word>, now: Time)
    requires Standing(key) && Says(w, key, word)
    ensures var it := StartItem(key, w, now);
      it.Settled() ==> word == Some(Word(it.status, it.answer)) && Speaks(it, key) && StampOf(it) == now
  {
    QueryReads(w, key, word);
  }

  /** The session about to be used has the question open and current. */
  predicate OnTable(e: Ensured, key: Key)
    requires -1 <= e.s < |e.world.sessions|
  {
    && e.s >= 0
    && Current(e.world.sessions[e.s].items) < |e.world.sessions[e.s].items|
    && e.world.sessions[e.s].items[Current(e.world.sessions[e.s].items)].key == key
  }

  /** What a newly started session adds. */
  lemma StartedRows(w: World, created: Session, key: Key)
    ensures var w' := w.(sessions := w.sessions + [created]);
      && (forall s, i :: SpeaksAt(w, key, s, i) ==>
           SpeaksAt(w', key, s, i) && w'.sessions[s].items[i] == w.sessions[s].items[i])
      && (forall s, i :: SpeaksAt(w', key, s, i) ==>
           SpeaksAt(w, key, s, i) || (s == |w.sessions| && 0 <= i < |created.items| && Speaks(created.items[i], key)))
  {
    var w' := w.(sessions := w.sessions + [created]);
    forall s | 0 <= s < |w.sessions| ensures w'.sessions[s] == w.sessions[s] {
    }
  }

  lemma StartRepeats(w: World, channel: Channel, flow: Flow, i: int, key: Key, word: Option<Word>, now: Time)
    requires Standing(key) && Says(w, key, word) && SpokenBefore(w, key, now)
    requires 0 <= i < |Template(flow)| && Template(flow)[i] == key && StartItem(key, w, now).Settled()
    ensures var w' := w.(sessions := w.sessions + [Session(channel, flow, true, StartItems(Template(flow), w, now))]);
      Says(w', key, word) && SpokenBy(w', key, now)
  {
    var created := Session(channel, flow, true, StartItems(Template(flow), w, now));
    var w' := w.(sessions := w.sessions + [created]);
    CarriedSays(w, key, word, now);
    StartedRows(w, created, key);
    var n := |w.sessions|;
    assert SpeaksAt(w', key, n, i);
    forall t, j | SpeaksAt(w', key, t, j) && !(t == n && j == i) ensures SpeaksAt(w, key, t, j) {
      if t == n {
        EachKeyOnce(flow, i, j);
      }
    }
    NewRowTells(w, w', key, n, i);
  }

  lemma StartAddsNothing(w: World, created: Session, key: Key, word: Option<Word>, before: Time)
    requires Says(w, key, word) && SpokenBy(w, key, before)
    requires forall i :: 0 <= i < |created.items| ==> !Speaks(created.items[i], key)
    ensures var w' := w.(sessions := w.sessions + [created]);
      Says(w', key, word) && SpokenBy(w', key, before)
  {
    StartedRows(w, created, key);
    QuietKeepsTheWord(w, w.(sessions := w.sessions + [created]), key, word, before);
  }

  lemma StartedSays(w: World, channel: Channel, flow: Flow, key: Key, word: Option<Word>, before: Time, now: Time)
    requires Standing(key) && Says(w, key, word) && SpokenBy(w, key, before) && before < now
    ensures var items := StartItems(Template(flow), w, now);
      var w' := w.(sessions := w.sessions + [Session(channel, flow, true, items)]);
      && Says(w', key, word) && SpokenBy(w', key, now)
      && (Current(items) < |items| && items[Current(items)].key == key ==> SpokenBefore(w', key, now))
  {
    var items := StartItems(Template(flow), w, now);
    var created := Session(channel, flow, true, items);
    if i :| 0 <= i < |items| && Speaks(items[i], key) {
      StartRepeats(w, channel, flow, i, key, word, now);
      if Current(items) < |items| && items[Current(items)].key == key {
        EachKeyOnce(flow, i, Current(items));
      }
    } else {
      StartAddsNothing(w, created, key, word, before);
    }
  }

  /** Starting a session repeats the last word at most. */
  lemma EnsureKeepsTheWord(w: World, channel: Channel, key: Key, word: Option<Word>, before: Time, now: Time)
    requires Standing(key) && Says(w, key, word) && SpokenBy(w, key, before) && before < now
    ensures var e := EnsureSession(w, channel, FlowFor(w.profile), now);
      && Says(e.world, key, word) && SpokenBy(e.world, key, now)
      && (OnTable(e, key) ==> SpokenBefore(e.world, key, now))
  {
    StartedSays(w, channel, FlowFor(w.profile), key, word, before, now);
  }

  lemma RecordTrims(w: World, s: int, key: Key, status: Status, answer: string, now: Time)
    requires 0 <= s < |w.sessions|
    ensures Record(w, s, key, status, Text.TrimSpace(answer), now) == Record(w, s, key, status, answer, now)
  {
    InterviewProgress.TrimTwice(answer);
  }

  /** One open row for `asked` is settled at `now`; no other row changes. */
  ghost predicate OneRow(w: World, w': World, s: int, i: int, asked: Key, now: Time) {
    && (forall t, j :: ItemAt(w', t, j) <==> ItemAt(w, t, j))
    && (forall t, j :: ItemAt(w, t, j) && ItemAt(w', t, j) && !(t == s && j == i) ==>
         w'.sessions[t].items[j] == w.sessions[t].items[j])
    && ItemAt(w, s, i) && ItemAt(w', s, i)
    && w.sessions[s].items[i].key == asked == w'.sessions[s].items[i].key
    && !w.sessions[s].items[i].Settled() && StampAt(w', s, i) == now
    && (Speaks(w'.sessions[s].items[i], asked) <==> w'.sessions[s].items[i].status != Skipped)
  }

  lemma SettlingIsOneRow(w: World, w': World, s: int, asked: Key, now: Time)
    requires 0 <= s < |w.sessions| == |w'.sessions| && w'.sessions == w.sessions[s := w'.sessions[s]]
    requires SettlesCurrent(w.sessions[s], w'.sessions[s])
    requires var it := w'.sessions[s].items[Current(w.sessions[s].items)];
      it.key == asked && it.answeredAt == Some(now) && (it.status.Answered? ==> it.answer != "")
    ensures OneRow(w, w', s, Current(w.sessions[s].items), asked, now)
  {
    var a, b := w.sessions[s].items, w'.sessions[s].items;
    var i := Current(a);
    forall t, j | ItemAt(w, t, j) && ItemAt(w', t, j) && !(t == s && j == i)
      ensures w'.sessions[t].items[j] == w.sessions[t].items[j]
    {
      if t == s {
        assert b[j] == a[j];
      }
    }
  }

  lemma RecordMoves(w: World, s: int, asked: Key, status: Status, answer: string, now: Time)
    requires Inv(w) && 0 <= s < |w.sessions| && Record(w, s, asked, status, answer, now).Saved?
    ensures var r := Record(w, s, asked, status, answer, now);
      var i := Current(w.sessions[s].items);
      && OneRow(w, r.world, s, i, asked, now)
      && r.world.sessions[s].items[i] == r.item && r.item.status == status
  {
    RecordKeeps(w, s, asked, status, answer, now);
    SettlingIsOneRow(w, Record(w, s, asked, status, answer, now).world, s, asked, now);
  }

  lemma OneRowSays(w: World, w': World, s: int, i: int, asked: Key, now: Time, key: Key, word: Option<Word>)
    requires OneRow(w, w', s, i, asked, now)
    requires Says(w, key, word) && SpokenBy(w, key, now) && (asked == key ==> SpokenBefore(w, key, now))
    ensures Says(w', key, if asked == key && w'.sessions[s].items[i].status != Skipped
                          then Some(WordAt(w', s, i)) else word)
    ensures SpokenBy(w', key, now)
  {
    if asked == key && w'.sessions[s].items[i].status != Skipped {
      assert SpeaksAt(w', key, s, i);
      NewRowTells(w, w', key, s, i);
    } else {
      assert Quiet(w, w', key);
      QuietKeepsTheWord(w, w', key, word, now);
    }
  }

  lemma AskIsQuiet(w: World, s: int, c: Catalogue, now: Time, key: Key)
    requires Inv(w) && 0 <= s < |w.sessions| && !AllSettled(w.sessions[s])
    ensures Quiet(w, AskQuestion(w, s, Current(w.sessions[s].items), c, now).world, key)
  {
    AskKeeps(w, s, c, now);
    AsksIsQuiet(w, AskQuestion(w, s, Current(w.sessions[s].items), c, now).world, s, now, key);
  }

  lemma AsksIsQuiet(w: World, w': World, s: int, now: Time, key: Key)
    requires 0 <= s < |w.sessions| == |w'.sessions| && w'.sessions == w.sessions[s := w'.sessions[s]]
    requires AsksCurrent(w.sessions[s], w'.sessions[s], now)
    ensures Quiet(w, w', key)
  {
    var a, b := w.sessions[s].items, w'.sessions[s].items;
    var i := Current(a);
    forall t, j | ItemAt(w, t, j) && !(t == s && j == i) ensures w'.sessions[t].items[j] == w.sessions[t].items[j] {
      if t == s {
        assert b[j] == a[j];
      }
    }
    assert !a[i].Settled() && !b[i].Settled();
  }

  lemma SameSessionsAreQuiet(w: World, w': World, key: Key)
    requires w'.sessions == w.sessions
    ensures Quiet(w, w', key)
  {
  }

  lemma FinishIsQuiet(w: World, s: int, now: Time, key: Key)
    requires 0 <= s < |w.sessions|
    ensures Quiet(w, FinishOnboarding(w, s, now), key)
  {
    var w' := FinishOnboarding(w, s, now);
    forall t, j | ItemAt(w, t, j) ensures ItemAt(w', t, j) && w'.sessions[t].items[j] == w.sessions[t].items[j] {
    }
  }

  /** Everything that follows a saved answer is quiet. */
  lemma OnwardIsQuiet(w: World, s: int, c: Catalogue, now: Time, key: Key)
    requires 0 <= s < |w.sessions| && (!AllSettled(w.sessions[s]) ==> Inv(w))
    ensures Quiet(w, Onward(w, s, c, now).world, key)
  {
    if AllSettled(w.sessions[s]) {
      FinishIsQuiet(w, s, now, key);
    } else {
      AskIsQuiet(w, s, c, now, key);
    }
  }

  lemma SavedIsQuiet(w: World, s: int, asked: Key, status: Status, answer: string, heard: string,
                     c: Catalogue, now: Time, key: Key)
    requires Inv(w) && 0 <= s < |w.sessions| && Record(w, s, asked, status, answer, now).Saved?
    ensures var w1 := Record(w, s, asked, status, answer, now).world;
      var w2 := Acknowledge(w1, asked, status, heard);
      Quiet(w1, w2, key) && Quiet(w1, Onward(w2, s, c, now).world, key)
  {
    RecordKeeps(w, s, asked, status, answer, now);
    var w1 := Record(w, s, asked, status, answer, now).world;
    var w2 := Acknowledge(w1, asked, status, heard);
    AcknowledgeKeeps(w1, asked, status, heard);
    SoundSame(w1, w2);
    SameSessionsAreQuiet(w1, w2, key);
    OnwardIsQuiet(w2, s, c, now, key);
    QuietTwice(w1, w2, Onward(w2, s, c, now).world, key);
  }

  /** What was heard is recorded, and all else is quiet. */
  ghost predicate Shape(e: Ensured, heard: Option<Heard>, w': World, now: Time, key: Key)
    requires -1 <= e.s < |e.world.sessions|
  {
    match heard
    case None => Quiet(e.world, w', key)
    case Some(h) =>
      e.s >= 0
      && var r := Record(e.world, e.s, h.key, h.word.status, h.word.answer, now);
      r.Saved? && HeardIn(e.world, e.s, h.key, h.word.status, h.word.answer, now) == heard && Quiet(r.world, w', key)
  }

  lemma HeardRow(e: Ensured, h: Heard, w': World, now: Time, key: Key)
    requires -1 <= e.s < |e.world.sessions| && Inv(e.world) && Shape(e, Some(h), w', now, key)
    ensures e.s >= 0
    ensures var w1 := Record(e.world, e.s, h.key, h.word.status, h.word.answer, now).world;
      var i := Current(e.world.sessions[e.s].items);
      && OneRow(e.world, w1, e.s, i, h.key, now) && WordAt(w1, e.s, i) == h.word && Quiet(w1, w', key)
  {
    RecordMoves(e.world, e.s, h.key, h.word.status, h.word.answer, now);
  }

  lemma RowThenQuiet(w: World, w1: World, w': World, s: int, i: int, h: Heard, now: Time, key: Key, word: Option<Word>)
    requires OneRow(w, w1, s, i, h.key, now) && WordAt(w1, s, i) == h.word && Quiet(w1, w', key)
    requires Says(w, key, word) && SpokenBy(w, key, now) && (h.key == key ==> SpokenBefore(w, key, now))
    ensures Says(w', key, WordAfter(word, Some(h), key)) && SpokenBy(w', key, now)
  {
    OneRowSays(w, w1, s, i, h.key, now, key, word);
    var after := WordAfter(word, Some(h), key);
    assert Says(w1, key, after) by {
      if h.key == key && h.word.status != Skipped {
        assert Speaks(w1.sessions[s].items[i], key);
      }
    }
    QuietKeepsTheWord(w1, w', key, after, now);
  }

  lemma ShapeSays(w: World, channel: Channel, heard: Option<Heard>, w': World, now: Time,
                  key: Key, word: Option<Word>, before: Time)
    requires Inv(w) && Standing(key) && Says(w, key, word) && SpokenBy(w, key, before) && before < now
    requires Shape(EnsureSession(w, channel, FlowFor(w.profile), now), heard, w', now, key)
    ensures Says(w', key, WordAfter(word, heard, key)) && SpokenBy(w', key, now)
  {
    var e := EnsureSession(w, channel, FlowFor(w.profile), now);
    EnsureKeepsTheWord(w, channel, key, word, before, now);
    if heard.None? {
      QuietKeepsTheWord(e.world, w', key, word, now);
    } else {
      HeardSays(w, channel, e, heard.value, w', now, key, word);
    }
  }

  lemma HeardSays(w: World, channel: Channel, e: Ensured, h: Heard, w': World, now: Time, key: Key, word: Option<Word>)
    requires Inv(w) && e == EnsureSession(w, channel, FlowFor(w.profile), now) && Shape(e, Some(h), w', now, key)
    requires Says(e.world, key, word) && SpokenBy(e.world, key, now) && (OnTable(e, key) ==> SpokenBefore(e.world, key, now))
    ensures Says(w', key, WordAfter(word, Some(h), key)) && SpokenBy(w', key, now)
  {
    EnsureKeeps(w, channel, now);
    HeardRow(e, h, w', now, key);
    var w1 := Record(e.world, e.s, h.key, h.word.status, h.word.answer, now).world;
    RowThenQuiet(e.world, w1, w', e.s, Current(e.world.sessions[e.s].items), h, now, key, word);
  }

  /** What is kept of an answer is recorded just as the answer is. */
  lemma SavedThenQuiet(e: Ensured, asked: Key, status: Status, answer: string, w': World, now: Time, key: Key)
    requires 0 <= e.s < |e.world.sessions|
    requires Record(e.world, e.s, asked, status, answer, now).Saved?
    requires Quiet(Record(e.world, e.s, asked, status, answer, now).world, w', key)
    ensures Shape(e, HeardIn(e.world, e.s, asked, status, answer, now), w', now, key)
  {
    RecordTrims(e.world, e.s, asked, status, answer, now);
    assert Record(e.world, e.s, asked, status, answer, now).item.answer == Text.TrimSpace(answer);
  }

  /** A settled question and everything after it, when there is one. */
  lemma SettledShape(e: Ensured, asked: Key, status: Status, answer: string, heard: string, c: Catalogue,
                     now: Time, key: Key)
    requires -1 <= e.s < |e.world.sessions| && e.s >= 0 && Inv(e.world)
    ensures var r := Record(e.world, e.s, asked, status, answer, now);
      r.Saved? ==>
        var w2 := Acknowledge(r.world, asked, status, heard);
        && Shape(e, HeardIn(e.world, e.s, asked, status, answer, now), w2, now, key)
        && Shape(e, HeardIn(e.world, e.s, asked, status, answer, now), Onward(w2, e.s, c, now).world, now, key)
  {
    var r := Record(e.world, e.s, asked, status, answer, now);
    if r.Saved? {
      SavedIsQuiet(e.world, e.s, asked, status, answer, heard, c, now, key);
      var w2 := Acknowledge(r.world, asked, status, heard);
      SavedThenQuiet(e, asked, status, answer, w2, now, key);
      SavedThenQuiet(e, asked, status, answer, Onward(w2, e.s, c, now).world, now, key);
    }
  }

  lemma TurnShape(w: World, channel: Channel, inbound: string, c: Catalogue, now: Time, key: Key)
    requires Inv(w) && !w.profile.Onboarded()
    ensures var e := EnsureSession(w, channel, Onboarding, now);
      Shape(e, HeardReply(e, inbound, now), OnboardingTurn(w, channel, inbound, c, now).world, now, key)
  {
    var e := EnsureSession(w, channel, Onboarding, now);
    EnsureKeeps(w, channel, now);
    SameSessionsAreQuiet(e.world, e.world, key);
    if e.s >= 0 {
      var items := e.world.sessions[e.s].items;
      var i := Current(items);
      assert SessionLive(e.world.sessions[e.s], false);
      if !items[i].Asked() {
        AskIsQuiet(e.world, e.s, c, now, key);
      } else {
        var (status, answer) := ReadReply(inbound);
        SettledShape(e, items[i].key, status, answer, answer, c, now, key);
        RecordedKey(e.world, e.s, items[i].key, status, answer, now);
      }
    }
  }

  lemma RecordedKey(w: World, s: int, asked: Key, status: Status, answer: string, now: Time)
    requires 0 <= s < |w.sessions|
    ensures var r := Record(w, s, asked, status, answer, now);
      r.Saved? ==> r.item.key == asked && r.item.status == status
  {
  }

  /** After a check-in answer: the next question is put, if there is one. */
  lemma CheckinSavedShape(e: Ensured, asked: Key, status: Status, answer: string, now: Time, key: Key)
    requires -1 <= e.s < |e.world.sessions| && e.s >= 0 && Inv(e.world) && e.world.sessions[e.s].flow.Checkin?
    requires Record(e.world, e.s, asked, status, answer, now).Saved?
    ensures var r := Record(e.world, e.s, asked, status, answer, now);
      && e.s < |r.world.sessions|
      && Shape(e, HeardIn(e.world, e.s, asked, status, answer, now), r.world, now, key)
      && (!AllSettled(r.world.sessions[e.s]) ==>
            Shape(e, HeardIn(e.world, e.s, asked, status, answer, now),
                  MarkAsked(r.world, e.s, Current(r.world.sessions[e.s].items), now), now, key))
  {
    var r := Record(e.world, e.s, asked, status, answer, now);
    RecordKeeps(e.world, e.s, asked, status, answer, now);
    SameSessionsAreQuiet(r.world, r.world, key);
    SavedThenQuiet(e, asked, status, answer, r.world, now, key);
    if !AllSettled(r.world.sessions[e.s]) {
      var w2 := MarkAsked(r.world, e.s, Current(r.world.sessions[e.s].items), now);
      MarkAskedKeeps(r.world, e.s, now);
      AsksIsQuiet(r.world, w2, e.s, now, key);
      SavedThenQuiet(e, asked, status, answer, w2, now, key);
    }
  }

  lemma InterviewReplyShape(w: World, inbound: string, now: Time, key: Key)
    requires Inv(w) && w.profile.Onboarded()
    ensures var e := EnsureSession(w, Sms, Checkin, now);
      Shape(e, HeardReply(e, inbound, now), InterviewReply(w, inbound, now).world, now, key)
  {
    var e := EnsureSession(w, Sms, Checkin, now);
    EnsureKeeps(w, Sms, now);
    SameSessionsAreQuiet(e.world, e.world, key);
    var items := e.world.sessions[e.s].items;
    var i := Current(items);
    if i < |items| {
      if !items[i].Asked() {
        MarkAskedKeeps(e.world, e.s, now);
        AsksIsQuiet(e.world, MarkAsked(e.world, e.s, i, now), e.s, now, key);
      } else {
        var (status, answer) := ReadReply(inbound);
        if Record(e.world, e.s, items[i].key, status, answer, now).Saved? {
          CheckinSavedShape(e, items[i].key, status, answer, now, key);
        }
      }
    }
  }

  lemma SaveAnswerShape(w: World, channel: Channel, asked: Key, status: Status, answer: string, c: Catalogue,
                        now: Time, key: Key)
    requires Inv(w)
    ensures var e := EnsureSession(w, channel, FlowFor(w.profile), now);
      Shape(e, HeardBy(w, SaveAnswerStep(channel, asked, status, answer, c, now)),
            SaveAnswer(w, channel, asked, status, answer, c, now).world, now, key)
  {
    var e := EnsureSession(w, channel, FlowFor(w.profile), now);
    SaveAnswerIs(w, channel, asked, status, answer, c, now);
    EnsureKeeps(w, channel, now);
    SameSessionsAreQuiet(e.world, e.world, key);
    if e.s >= 0 {
      var r := Record(e.world, e.s, asked, status, answer, now);
      RecordedKey(e.world, e.s, asked, status, answer, now);
      if r.Saved? {
        SettledShape(e, asked, status, answer, r.item.answer, c, now, key);
      }
    }
  }

  lemma NextQuestionShape(w: World, channel: Channel, c: Catalogue, now: Time, key: Key)
    requires Inv(w)
    ensures Shape(EnsureSession(w, channel, FlowFor(w.profile), now), None, NextQuestion(w, channel, c, now).world, now, key)
  {
    var e := EnsureSession(w, channel, FlowFor(w.profile), now);
    EnsureKeeps(w, channel, now);
    SameSessionsAreQuiet(e.world, e.world, key);
    if e.s >= 0 && !AllSettled(e.world.sessions[e.s]) {
      AskIsQuiet(e.world, e.s, c, now, key);
    }
  }

  lemma NamingIsQuiet(w: World, raw: string, now: Time, key: Key)
    requires Standing(key) && SetName(w, raw, now).Some?
    ensures Quiet(w, SetName(w, raw, now).value, key)
  {
    var w' := SetName(w, raw, now).value;
    forall s, i | ItemAt(w, s, i) && w.sessions[s].items[i].key == key
      ensures ItemAt(w', s, i) && w'.sessions[s].items[i] == w.sessions[s].items[i]
    {
    }
  }

  /** The steps that neither start a session nor hear a reply. */
  lemma OtherStepIsQuiet(w: World, step: Step, key: Key)
    requires Standing(key)
    requires !(step.TurnStep? || step.ReplyStep? || step.NextQuestionStep? || step.SaveAnswerStep? || step.BriefingStep?)
    ensures Quiet(w, Do(w, step), key) && HeardBy(w, step) == None
  {
    if step.SetNameStep? && SetName(w, step.name, step.now).Some? {
      NamingIsQuiet(w, step.name, step.now, key);
    } else {
      SameSessionsAreQuiet(w, Do(w, step), key);
    }
  }

  lemma StepSays(w: World, step: Step, key: Key, word: Option<Word>, before: Time)
    requires Inv(w) && Standing(key) && Says(w, key, word) && SpokenBy(w, key, before) && before < step.now
    ensures Says(Do(w, step), key, WordAfter(word, HeardBy(w, step), key)) && SpokenBy(Do(w, step), key, step.now)
  {
    var w' := Do(w, step);
    match step
    case TurnStep(channel, inbound, c, now) =>
      if w.profile.Onboarded() {
        SameSessionsAreQuiet(w, w, key);
        QuietKeepsTheWord(w, w, key, word, before);
      } else {
        TurnShape(w, channel, inbound, c, now, key);
        ShapeSays(w, channel, HeardBy(w, step), w', now, key, word, before);
      }
    case ReplyStep(inbound, c, now) =>
      if w.profile.Onboarded() {
        InterviewReplyShape(w, inbound, now, key);
      } else {
        TurnShape(w, Sms, inbound, c, now, key);
      }
      ShapeSays(w, Sms, HeardBy(w, step), w', now, key, word, before);
    case NextQuestionStep(channel, c, now) =>
      NextQuestionShape(w, channel, c, now, key);
      ShapeSays(w, channel, None, w', now, key, word, before);
    case SaveAnswerStep(channel, asked, status, answer, c, now) =>
      SaveAnswerShape(w, channel, asked, status, answer, c, now, key);
      ShapeSays(w, channel, HeardBy(w, step), w', now, key, word, before);
    case BriefingStep(now) => EnsureKeepsTheWord(w, Call, key, word, before, now);
    case _ =>
      OtherStepIsQuiet(w, step, key);
      QuietKeepsTheWord(w, w', key, word, before);
  }

  predicate Increasing(run: seq<Step>) {
    forall i, j :: 0 <= i < j < |run| ==> run[i].now < run[j].now
  }

  lemma {:induction false} RunSays(w: World, run: seq<Step>, key: Key)
    requires Inv(w) && w.sessions == [] && Standing(key) && Increasing(run)
    ensures Says(RunFrom(w, run), key, LastWord(w, run, key))
    ensures forall t :: (run != [] ==> run[|run| - 1].now <= t) ==> SpokenBy(RunFrom(w, run), key, t)
  {
    if run != [] {
      var front, step := run[..|run| - 1], run[|run| - 1];
      RunSays(w, front, key);
      RunKeeps(w, front);
      StepSays(RunFrom(w, front), step, key, LastWord(w, front, key), step.now - 1);
    }
  }

  /** Over every run on every channel, with however many sessions and copies, the tables answer
      each standing question with the last answer or refusal actually given to it, and with
      nothing if it was only ever skipped.  For the check-in question this is what the scheduler
      reads. */
  lemma TheLastWordStands(name: string, interests: string, frequency: string, run: seq<Step>, key: Key)
    requires Standing(key) && Increasing(run)
    ensures var w := NewPerson(name, interests, frequency);
      var last := LastSettled(Rows(RunFrom(w, run).sessions), key);
      match LastWord(w, run, key)
      case None => last.None?
      case Some(said) => last.Some? && last.value.status == said.status && last.value.answer == said.answer
  {
    var w := NewPerson(name, interests, frequency);
    RunSays(w, run, key);
    QueryReads(RunFrom(w, run), key, LastWord(w, run, key));
  }
}
