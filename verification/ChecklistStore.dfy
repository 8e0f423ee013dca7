/** The checklist tables updated in place: every method does to the tables what the account of it
    in Checklist says, and an answer that cannot be used is rolled back. */
module ChecklistStore {
  import opened Clock
  import opened Options
  import opened Text
  import opened Checklist
  import Matching
  import Replies
  import Suggestions

  /** What a caller is told about an answer. */
  datatype Outcome = Done(item: Item) | Failed(why: Refusal)

  lemma LatestWithOneMore(rows: seq<Item>, it: Item, key: Key)
    ensures var seen := LastSettled(rows, key);
      LastSettled(rows + [it], key)
      == if Speaks(it, key) && (seen.None? || StampOf(it) >= StampOf(seen.value)) then Some(it) else seen
  {
    assert (rows + [it])[..|rows|] == rows;
  }

  class Store {
    var profile: Profile
    var sessions: seq<Session>
    var book: Suggestions.Book

    function View(): World
      reads this
    {
      World(profile, sessions, book)
    }

    constructor (p: Profile)
      ensures View() == World(p, [], Suggestions.EMPTY_BOOK)
    {
      profile, sessions, book := p, [], Suggestions.EMPTY_BOOK;
    }

    method LastSettledRow(key: Key) returns (last: Option<Item>)
      ensures last == LastSettled(Rows(sessions), key)
    {
      last := None;
      for s := 0 to |sessions|
        invariant last == LastSettled(Rows(sessions[..s]), key)
      {
        last := LatestOf(Rows(sessions[..s]), last, sessions[s].items, key);
        assert sessions[..s + 1][..s] == sessions[..s];
      }
      assert sessions[..|sessions|] == sessions;
    }

    /** Carries the latest row seen so far through one more session. */
    method LatestOf(ghost before: seq<Item>, seen: Option<Item>, items: seq<Item>, key: Key) returns (last: Option<Item>)
      requires seen == LastSettled(before, key)
      ensures last == LastSettled(before + items, key)
    {
      last := seen;
      assert before + items[..0] == before;
      for i := 0 to |items|
        invariant last == LastSettled(before + items[..i], key)
      {
        var row := items[i];
        LatestWithOneMore(before + items[..i], row, key);
        assert before + items[..i + 1] == before + items[..i] + [row];
        if Speaks(row, key) && (last.None? || StampOf(row) >= StampOf(last.value)) {
          last := Some(row);
        }
      }
      assert items[..|items|] == items;
    }

    method CarriedState(key: Key, now: Time) returns (c: Carried)
      ensures c == CarryForward(key, View(), now)
    {
      if PerSession(key) {
        return NOT_KNOWN;
      }
      var known := KnownFrom(key, profile);
      if known != "" {
        return Carried(Answered, known, OnFile);
      }
      var last := LastSettledRow(key);
      if last.None? {
        return NOT_KNOWN;
      }
      if Ttl(key) > 0 && now - StampOf(last.value) > Ttl(key) {
        return NOT_KNOWN;
      }
      c := Carried(last.value.status, last.value.answer, Conversation);
    }

    method OpenSession(channel: Channel, flow: Flow) returns (s: int)
      ensures s == FindOpen(sessions, channel, flow)
    {
      s := |sessions| - 1;
      assert sessions[..s + 1] == sessions;
      while s >= 0 && !(sessions[s].channel == channel && sessions[s].flow == flow && sessions[s].open)
        invariant -1 <= s < |sessions|
        invariant FindOpen(sessions, channel, flow) == FindOpen(sessions[..s + 1], channel, flow)
      {
        assert sessions[..s + 1][..s] == sessions[..s];
        s := s - 1;
      }
    }

    method Prefill(template: seq<Key>, now: Time) returns (items: seq<Item>)
      ensures items == StartItems(template, View(), now)
    {
      items := [];
      for i := 0 to |template|
        invariant items == StartItems(template[..i], View(), now)
      {
        var c := CarriedState(template[i], now);
        var stamp := if c.status != Unanswered then Some(now) else None;
        items := items + [Item(template[i], StoredPrompt(template[i]), c.status, c.answer, c.source, None, stamp)];
        assert template[..i + 1][..i] == template[..i];
      }
      assert template[..|template|] == template;
    }

    method EnsureSession(channel: Channel, flow: Flow, now: Time) returns (s: int)
      modifies this`sessions
      ensures Ensured(View(), s) == Checklist.EnsureSession(old(View()), channel, flow, now)
    {
      if channel.UnknownChannel? {
        return -1;
      }
      s := OpenSession(channel, flow);
      if s >= 0 {
        return;
      }
      var items := Prefill(Template(flow), now);
      s := |sessions|;
      sessions := sessions + [Session(channel, flow, true, items)];
    }

    method NextChecklistItem(s: nat) returns (i: nat)
      requires s < |sessions|
      ensures i == Current(sessions[s].items)
    {
      var items := sessions[s].items;
      i := 0;
      while i < |items| && items[i].Settled()
        invariant i <= |items| && Current(items) == i + Current(items[i..])
      {
        assert items[i..][1..] == items[i + 1..];
        i := i + 1;
      }
    }

    /** Rewrites one row. */
    method Update(s: nat, i: nat, it: Item)
      requires At(View(), s, i)
      modifies this`sessions
      ensures View() == Put(old(View()), s, i, it)
    {
      sessions := sessions[s := sessions[s].(items := sessions[s].items[i := it])];
    }

    method MarkAsked(s: nat, i: nat, now: Time)
      requires At(View(), s, i)
      modifies this`sessions
      ensures View() == Checklist.MarkAsked(old(View()), s, i, now)
    {
      var it := sessions[s].items[i];
      Update(s, i, it.(askedAt := if it.askedAt.Some? then it.askedAt else Some(now)));
    }

    method Check(s: nat, key: Key, status: Status, said: string) returns (i: nat, why: Option<Refusal>)
      requires s < |sessions|
      ensures i == Current(sessions[s].items) && why == Blocked(sessions[s].items, key, status, said)
    {
      i := NextChecklistItem(s);
      why := None;
      if status == Unanswered {
        why := Some(BadStatus);
      } else if status == Answered && said == "" {
        why := Some(EmptyAnswer);
      } else if i == |sessions[s].items| || sessions[s].items[i].key != key {
        why := Some(NotCurrent);
      }
    }

    method RecordChecklistAnswer(s: nat, key: Key, status: Status, answer: string, now: Time) returns (r: Outcome)
      requires s < |sessions|
      modifies this
      ensures match Record(old(View()), s, key, status, answer, now)
              case Refused(why) => r == Failed(why) && View() == old(View())
              case Saved(w, it) => r == Done(it) && View() == w
    {
      var said := TrimSpace(answer);
      var i, why := Check(s, key, status, said);
      if why.Some? {
        return Failed(why.value);
      }
      var it := sessions[s].items[i].(status := status, answer := said, source := Conversation, answeredAt := Some(now));
      var ok := Write(s, i, it);
      r := if ok then Done(it) else Failed(Unusable);
    }

    /** The row is written before the answer is found unusable, and put back when it is. */
    method Write(s: nat, i: nat, it: Item) returns (ok: bool)
      requires At(View(), s, i)
      modifies this
      ensures ok <==> (it.status.Answered? ==> Persisted(old(profile), it.key, it.answer).Some?)
      ensures !ok ==> View() == old(View())
      ensures ok ==> View() == Put(old(View()), s, i, it).(profile :=
                if it.status.Answered? then Persisted(old(profile), it.key, it.answer).value else old(profile))
    {
      var before := sessions;
      Update(s, i, it);
      ok := true;
      if it.status == Answered {
        ok := Persist(it.key, it.answer);
      }
      if !ok {
        sessions := before;
      }
    }

    /** Writes the field an answer is kept in. */
    method Persist(key: Key, said: string) returns (ok: bool)
      modifies this`profile
      ensures ok <==> Persisted(old(profile), key, said).Some?
      ensures profile == if ok then Persisted(old(profile), key, said).value else old(profile)
    {
      ok := true;
      match key
      case EventTypes =>
        var interests := Replies.GatherInterests(said);
        if interests == "" {
          return false;
        }
        profile := profile.(interests := interests);
      case Name =>
        var name := Replies.NormaliseName(said);
        if name == "" {
          return false;
        }
        profile := profile.(name := name);
      case CheckinConsent =>
        var frequency := Replies.NormaliseFrequency(said);
        if frequency != "" {
          profile := profile.(frequency := frequency);
        }
      case _ =>
    }

    method AskQuestion(s: nat, i: nat, c: Catalogue, now: Time) returns (prompt: Wording)
      requires At(View(), s, i)
      modifies this
      ensures Worded(View(), prompt) == Checklist.AskQuestion(old(View()), s, i, c, now)
    {
      var it := sessions[s].items[i];
      prompt := it.prompt;
      if Dynamic(it.key) {
        var interests := Matching.InterestList(Split(profile.interests, ','));
        var t := Suggestions.Suggest(c.vocabulary, interests, c.events, book, now);
        book := t.book;
        prompt := if t.choice.None? then NoMatch else Offering(t.choice.value.event.id);
        Update(s, i, it.(prompt := prompt));
      }
      MarkAsked(s, i, now);
    }

    method Acknowledge(key: Key, status: Status, answer: string)
      modifies this`book
      ensures View() == Checklist.Acknowledge(old(View()), key, status, answer)
    {
      if key != EventOffer || status != Answered || !Replies.IsYes(answer) {
        return;
      }
      book := Suggestions.Accept(book);
    }

    method CloseSession(s: nat)
      requires s < |sessions|
      modifies this`sessions
      ensures sessions == old(sessions)[s := old(sessions)[s].(open := false)]
    {
      sessions := sessions[s := sessions[s].(open := false)];
    }

    method FinishOnboarding(s: nat, now: Time) returns (agreed: bool)
      requires s < |sessions|
      modifies this
      ensures Turn(View(), Closing(agreed)) == Finish(old(View()), s, now)
    {
      if profile.onboardedAt.None? {
        profile := profile.(onboardedAt := Some(now));
      }
      CloseSession(s);
      var last := LastSettledRow(CheckinConsent);
      agreed := last.Some? && last.value.status == Answered;
    }

    /** The next question, or the end of the introduction. */
    method GoOn(s: nat, c: Catalogue, now: Time) returns (said: Said)
      requires s < |sessions|
      modifies this
      ensures Turn(View(), said) == Onward(old(View()), s, c, now)
    {
      var next := NextChecklistItem(s);
      if next == |sessions[s].items| {
        var agreed := FinishOnboarding(s, now);
        return Closing(agreed);
      }
      var prompt := AskQuestion(s, next, c, now);
      said := Ask(prompt);
    }

    method TakeReply(s: nat, inbound: string, c: Catalogue, now: Time) returns (said: Said)
      requires s < |sessions| && Current(sessions[s].items) < |sessions[s].items|
      modifies this
      ensures Turn(View(), said) == Checklist.TakeReply(old(View()), s, inbound, c, now)
    {
      var i := NextChecklistItem(s);
      var current := sessions[s].items[i];
      var (status, answer) := ReadReply(inbound);
      if status == Unanswered {
        return AskAgain(current.prompt);
      }
      var r := RecordChecklistAnswer(s, current.key, status, answer, now);
      if r.Failed? {
        return if r.why == Unusable then DidNotGet(current.prompt) else Ask(current.prompt);
      }
      Acknowledge(r.item.key, status, answer);
      said := GoOn(s, c, now);
    }

    method OnboardingTurn(channel: Channel, inbound: string, c: Catalogue, now: Time) returns (said: Said)
      modifies this
      ensures Turn(View(), said) == Checklist.OnboardingTurn(old(View()), channel, inbound, c, now)
    {
      var s := EnsureSession(channel, Onboarding, now);
      if s < 0 {
        return Fallback;
      }
      var i := NextChecklistItem(s);
      if i == |sessions[s].items| {
        var agreed := FinishOnboarding(s, now);
        return Closing(agreed);
      }
      if sessions[s].items[i].askedAt.None? {
        var prompt := AskQuestion(s, i, c, now);
        return Ask(prompt);
      }
      said := TakeReply(s, inbound, c, now);
    }

    method InterviewReply(inbound: string, now: Time) returns (said: Said)
      modifies this
      ensures Turn(View(), said) == Checklist.InterviewReply(old(View()), inbound, now)
    {
      var s := EnsureSession(Sms, Checkin, now);
      var i := NextChecklistItem(s);
      if i == |sessions[s].items| {
        return Unhandled;
      }
      var current := sessions[s].items[i];
      if current.askedAt.None? {
        MarkAsked(s, i, now);
        return Ask(current.prompt);
      }
      var (status, answer) := ReadReply(inbound);
      if status == Unanswered {
        return AskAgain(current.prompt);
      }
      var r := RecordChecklistAnswer(s, current.key, status, answer, now);
      if r.Failed? {
        return if r.why == Unusable then DidNotGet(current.prompt) else Ask(current.prompt);
      }
      var next := NextChecklistItem(s);
      if next == |sessions[s].items| {
        return Complete;
      }
      said := Ask(sessions[s].items[next].prompt);
      MarkAsked(s, next, now);
    }

    method NextQuestion(channel: Channel, c: Catalogue, now: Time) returns (said: Said)
      modifies this
      ensures Turn(View(), said) == Checklist.NextQuestion(old(View()), channel, c, now)
    {
      var s := EnsureSession(channel, FlowFor(profile), now);
      if s < 0 {
        return Fallback;
      }
      var i := NextChecklistItem(s);
      if i == |sessions[s].items| {
        return Complete;
      }
      var prompt := AskQuestion(s, i, c, now);
      said := Ask(prompt);
    }

    method AfterSave(s: nat, it: Item, c: Catalogue, now: Time) returns (said: Said)
      requires s < |sessions|
      modifies this
      ensures Turn(View(), said) == Checklist.AfterSave(old(View()), s, it, c, now)
    {
      Acknowledge(it.key, it.status, it.answer);
      if sessions[s].flow == Checkin {
        var next := NextChecklistItem(s);
        if next == |sessions[s].items| {
          return Complete;
        }
      }
      said := GoOn(s, c, now);
    }

    method SaveAnswer(channel: Channel, key: Key, status: Status, answer: string, c: Catalogue, now: Time)
      returns (said: Said)
      modifies this
      ensures Turn(View(), said) == Checklist.SaveAnswer(old(View()), channel, key, status, answer, c, now)
    {
      var s := EnsureSession(channel, FlowFor(profile), now);
      if s < 0 {
        return Fallback;
      }
      var r := RecordChecklistAnswer(s, key, status, answer, now);
      if r.Failed? {
        return Fallback;
      }
      said := AfterSave(s, r.item, c, now);
    }

    /** Stores a name and settles every open name question; an unusable name changes nothing. */
    method SetName(raw: string, now: Time) returns (ok: bool)
      modifies this
      ensures ok <==> Checklist.SetName(old(View()), raw, now).Some?
      ensures View() == Checklist.SetName(old(View()), raw, now).GetOr(old(View()))
    {
      var name := Replies.NormaliseName(raw);
      if name == "" {
        return false;
      }
      profile := profile.(name := name);
      for s := 0 to |sessions|
        invariant |sessions| == |old(sessions)| && book == old(book) && profile == old(profile).(name := name)
        invariant forall t :: s <= t < |sessions| ==> sessions[t] == old(sessions)[t]
        invariant forall t :: 0 <= t < s ==> sessions[t] == NameSessions(old(sessions), name, now)[t]
      {
        var items := SettleNames(sessions[s].items, name, now);
        sessions := sessions[s := sessions[s].(items := items)];
      }
      assert sessions == NameSessions(old(sessions), name, now);
      ok := true;
    }

    method SettleNames(items: seq<Item>, name: string, now: Time) returns (after: seq<Item>)
      ensures after == NameItems(items, name, now)
    {
      after := items;
      for i := 0 to |items|
        invariant |after| == |items|
        invariant forall k :: i <= k < |items| ==> after[k] == items[k]
        invariant forall k :: 0 <= k < i ==> after[k] == NameItems(items, name, now)[k]
      {
        if items[i].key == Name && items[i].status == Unanswered {
          after := after[i := items[i].(status := Answered, answer := name, source := OnFile, answeredAt := Some(now))];
        }
      }
    }

    /** Keeps what is usable of what the voice agent learned. */
    method Learn(name: string, interests: string, frequency: string)
      modifies this`profile
      ensures profile == Learned(old(profile), name, interests, frequency)
    {
      var n := Replies.NormaliseName(name);
      if n != "" {
        profile := profile.(name := n);
      }
      var i := Replies.GatherInterests(interests);
      if i != "" {
        profile := profile.(interests := i);
      }
      var f := TrimSpace(frequency);
      if Replies.ValidFrequency(f) {
        profile := profile.(frequency := f);
      }
    }

    /** `missing` is what the introduction still has to establish. */
    method SaveOnboarding(name: string, interests: string, frequency: string, now: Time) returns (missing: seq<Key>)
      modifies this`profile
      ensures profile == Checklist.SaveOnboarding(old(profile), name, interests, frequency, now)
      ensures missing == [] ==> profile.Onboarded()
      ensures Name in missing <==> profile.DisplayName() == ""
      ensures EventTypes in missing <==> TrimSpace(profile.interests) == ""
    {
      Learn(name, interests, frequency);
      missing := [];
      if profile.DisplayName() == "" {
        missing := missing + [Name];
      }
      if TrimSpace(profile.interests) == "" {
        missing := missing + [EventTypes];
      }
      if missing == [] && profile.onboardedAt.None? {
        profile := profile.(onboardedAt := Some(now));
      }
    }
  }
}
