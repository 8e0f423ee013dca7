/** How often a code can be guessed at: what becomes of one code, over any run in which its number
    asks for no other. */
module LoginGuesses {
  import opened Clock
  import opened Options
  import opened LoginCodes
  import opened LoginCodeRuns

  // ----- the open codes of a number --------------------------------------------------------------

  function OpenRows(rows: seq<Code>, phone: string): seq<Code> {
    if rows == [] then []
    else
      var rest, r := OpenRows(rows[..|rows| - 1], phone), rows[|rows| - 1];
      if r.OpenFor(phone) then rest + [r] else rest
  }

  lemma OpenSnoc(rows: seq<Code>, r: Code, phone: string)
    ensures OpenRows(rows + [r], phone) == OpenRows(rows, phone) + if r.OpenFor(phone) then [r] else []
  {
    assert (rows + [r])[..|rows|] == rows;
  }

  lemma {:induction false} NewestIsOpen(rows: seq<Code>, phone: string)
    ensures Newest(rows, phone).None? <==> OpenRows(rows, phone) == []
    ensures |OpenRows(rows, phone)| == 1 ==> rows[Newest(rows, phone).value] == OpenRows(rows, phone)[0]
  {
    if rows != [] {
      NewestIsOpen(rows[..|rows| - 1], phone);
    }
  }

  lemma {:induction false} SupersedeOpens(rows: seq<Code>, p: string, now: Time, phone: string)
    ensures OpenRows(Supersede(rows, p, now), phone) == if p == phone then [] else OpenRows(rows, phone)
  {
    if rows != [] {
      var front, last := rows[..|rows| - 1], rows[|rows| - 1];
      SupersedeOpens(front, p, now, phone);
      OpenSnoc(Supersede(front, p, now), if last.OpenFor(p) then last.(consumed := Some(now)) else last, phone);
    }
  }

  lemma {:induction false} DropOpenOpens(rows: seq<Code>, p: string, phone: string)
    requires p != phone
    ensures OpenRows(DropOpen(rows, p), phone) == OpenRows(rows, phone)
  {
    if rows != [] {
      var front, last := rows[..|rows| - 1], rows[|rows| - 1];
      DropOpenOpens(front, p, phone);
      OpenSnoc(DropOpen(front, p), last, phone);
    }
  }

  lemma {:induction false} DropNumberOpens(rows: seq<Code>, p: string, phone: string)
    requires p != phone
    ensures OpenRows(DropNumber(rows, p), phone) == OpenRows(rows, phone)
  {
    if rows != [] {
      var front, last := rows[..|rows| - 1], rows[|rows| - 1];
      DropNumberOpens(front, p, phone);
      OpenSnoc(DropNumber(front, p), last, phone);
    }
  }

  lemma {:induction false} DropExpiredOpens(rows: seq<Code>, cutoff: Time, phone: string)
    requires forall i :: 0 <= i < |OpenRows(rows, phone)| ==> OpenRows(rows, phone)[i].expires >= cutoff
    ensures OpenRows(DropExpired(rows, cutoff), phone) == OpenRows(rows, phone)
  {
    if rows != [] {
      var front, last := rows[..|rows| - 1], rows[|rows| - 1];
      OpenSnoc(front, last, phone);
      assert rows == front + [last];
      forall i | 0 <= i < |OpenRows(front, phone)| ensures OpenRows(front, phone)[i].expires >= cutoff {
        assert OpenRows(rows, phone)[i] == OpenRows(front, phone)[i];
      }
      DropExpiredOpens(front, cutoff, phone);
      if last.OpenFor(phone) {
        assert OpenRows(rows, phone)[|OpenRows(front, phone)|] == last;
      }
      OpenSnoc(DropExpired(front, cutoff), last, phone);
    }
  }

  /** Changing a row of another number changes nothing here. */
  lemma {:induction false} OtherRowChanged(rows: seq<Code>, at: nat, c: Code, phone: string)
    requires at < |rows| && rows[at].phone != phone && c.phone != phone
    ensures OpenRows(rows[at := c], phone) == OpenRows(rows, phone)
  {
    var n := |rows| - 1;
    if at < n {
      assert rows[at := c][..n] == rows[..n][at := c];
      OtherRowChanged(rows[..n], at, c, phone);
    } else {
      assert rows[at := c][..n] == rows[..n];
    }
  }

  lemma {:induction false} NoneOpenIsEmpty(rows: seq<Code>, phone: string)
    ensures OpenRows(rows, phone) == [] <==> forall i :: 0 <= i < |rows| ==> !rows[i].OpenFor(phone)
  {
    if rows != [] {
      var front := rows[..|rows| - 1];
      NoneOpenIsEmpty(front, phone);
      assert forall i :: 0 <= i < |front| ==> front[i] == rows[i];
    }
  }

  /** Changing the one open row of a number. */
  lemma {:induction false} OpenRowChanged(rows: seq<Code>, at: nat, c: Code, phone: string)
    requires at < |rows| && rows[at].OpenFor(phone) && c.phone == phone && |OpenRows(rows, phone)| == 1
    ensures OpenRows(rows[at := c], phone) == if c.consumed.None? then [c] else []
  {
    var n := |rows| - 1;
    if at < n {
      NoneOpenIsEmpty(rows[..n], phone);
      assert rows[..n][at].OpenFor(phone);
      assert rows[at := c][..n] == rows[..n][at := c];
      OpenRowChanged(rows[..n], at, c, phone);
    } else {
      assert rows[at := c][..n] == rows[..n];
    }
  }

  // ----- the tries at one code -------------------------------------------------------------------

  predicate IsTry(e: Event, phone: string) { e.op.Consume? && e.op.phone == phone }

  /** How many wrong secrets were tried. */
  function WrongTries(more: seq<Event>, phone: string, secret: string): nat {
    if more == [] then 0
    else
      var e := more[|more| - 1];
      WrongTries(more[..|more| - 1], phone, secret) + if IsTry(e, phone) && e.op.secret != secret then 1 else 0
  }

  predicate RightTried(more: seq<Event>, phone: string, secret: string) {
    exists i :: 0 <= i < |more| && IsTry(more[i], phone) && more[i].op.secret == secret
  }

  predicate TriedLate(more: seq<Event>, phone: string, at: Time) {
    exists i :: 0 <= i < |more| && IsTry(more[i], phone) && more[i].now > at + 10 * MINUTE
  }

  /** Nobody has used up a code asked for at `at`. */
  predicate Unspent(more: seq<Event>, phone: string, secret: string, at: Time) {
    WrongTries(more, phone, secret) < 5 && !RightTried(more, phone, secret) && !TriedLate(more, phone, at)
  }

  /** The number asks for no other code and none of its codes is taken away: everything else may
      happen, and retention sweeps as long as the code is not due for them. */
  predicate LeavesAlone(e: Event, phone: string, at: Time) {
    match e.op
    case Consume(_, _) => true
    case Purge => e.now <= at + CODE_TTL + CODE_WINDOW
    case Issue(p, _) => p != phone
    case Discard(p) => p != phone
    case Erase(p) => p != phone
  }

  lemma TriesSnoc(more: seq<Event>, e: Event, phone: string, secret: string, at: Time)
    ensures WrongTries(more + [e], phone, secret)
         == WrongTries(more, phone, secret) + if IsTry(e, phone) && e.op.secret != secret then 1 else 0
    ensures RightTried(more + [e], phone, secret)
       <==> RightTried(more, phone, secret) || (IsTry(e, phone) && e.op.secret == secret)
    ensures TriedLate(more + [e], phone, at) <==> TriedLate(more, phone, at) || (IsTry(e, phone) && e.now > at + 10 * MINUTE)
  {
    var all := more + [e];
    assert all[..|more|] == more && all[|more|] == e;
    assert forall i :: 0 <= i < |more| ==> all[i] == more[i];
  }

  // ----- what becomes of the code ----------------------------------------------------------------

  function CodeAfter(id: int, phone: string, secret: string, at: Time, tries: int): Code {
    NewCode(id, phone, secret, at).(attempts := tries)
  }

  /** The one open code of the number, if it has one. */
  predicate Stands(rows: seq<Code>, phone: string, c: Option<Code>) {
    OpenRows(rows, phone) == if c.Some? then [c.value] else []
  }

  /** What an event does to the one open code of a number. */
  function CodeStep(c: Option<Code>, e: Event, phone: string): Option<Code> {
    if c.None? || !IsTry(e, phone) then c
    else
      var judged := Judge(c.value, e.op.secret, e.now).code;
      if judged.consumed.None? then Some(judged) else None
  }

  lemma TryStep(w: World, phone: string, secret: string, now: Time, c: Option<Code>)
    requires Stands(w.rows, phone, c) && (c.Some? ==> c.value.OpenFor(phone))
    ensures Stands(Step(w, Event(Consume(phone, secret), now)).rows, phone,
                   CodeStep(c, Event(Consume(phone, secret), now), phone))
  {
    NewestIsOpen(w.rows, phone);
    if c.Some? {
      var at := Newest(w.rows, phone).value;
      OpenRowChanged(w.rows, at, Judge(w.rows[at], secret, now).code, phone);
    }
  }

  lemma OtherTryStep(w: World, p: string, secret: string, now: Time, phone: string)
    requires p != phone
    ensures OpenRows(Step(w, Event(Consume(p, secret), now)).rows, phone) == OpenRows(w.rows, phone)
  {
    var at := Newest(w.rows, p);
    if at.Some? {
      OtherRowChanged(w.rows, at.value, Judge(w.rows[at.value], secret, now).code, phone);
    }
  }

  lemma QuietStep(w: World, e: Event, phone: string, at: Time, c: Option<Code>)
    requires Stands(w.rows, phone, c) && LeavesAlone(e, phone, at) && !IsTry(e, phone)
    requires c.Some? ==> c.value.expires == at + CODE_TTL
    ensures Stands(Step(w, e).rows, phone, c)
  {
    match e.op
    case Consume(p, s) => OtherTryStep(w, p, s, e.now, phone);
    case Purge => DropExpiredOpens(w.rows, e.now - CODE_WINDOW, phone);
    case Discard(p) => DropOpenOpens(w.rows, p, phone);
    case Erase(p) => DropNumberOpens(w.rows, p, phone);
    case Issue(p, s) =>
      SupersedeOpens(w.rows, p, e.now, phone);
      OpenSnoc(Supersede(w.rows, p, e.now), NewCode(w.nextId, p, s, e.now), phone);
  }

  /** One try at a code that has had `tries` wrong ones. */
  lemma JudgedTry(id: int, phone: string, secret: string, at: Time, tries: int, guess: string, now: Time)
    requires 0 <= tries < 5
    ensures var c := CodeAfter(id, phone, secret, at, tries);
      var e := Event(Consume(phone, guess), now);
      CodeStep(Some(c), e, phone)
      == if now <= at + 10 * MINUTE && guess != secret && tries + 1 < 5
         then Some(CodeAfter(id, phone, secret, at, tries + 1)) else None
  {
  }

  /** The code as it stands after a run of tries and other people's steps. */
  function CodeNow(id: int, phone: string, secret: string, at: Time, more: seq<Event>): Option<Code> {
    if Unspent(more, phone, secret, at) then Some(CodeAfter(id, phone, secret, at, WrongTries(more, phone, secret)))
    else None
  }

  lemma CodeNowSnoc(id: int, phone: string, secret: string, at: Time, more: seq<Event>, e: Event)
    ensures CodeNow(id, phone, secret, at, more + [e]) == CodeStep(CodeNow(id, phone, secret, at, more), e, phone)
  {
    TriesSnoc(more, e, phone, secret, at);
    if IsTry(e, phone) && Unspent(more, phone, secret, at) {
      JudgedTry(id, phone, secret, at, WrongTries(more, phone, secret), e.op.secret, e.now);
    }
  }

  lemma IssueStands(w: World, phone: string, secret: string, at: Time)
    requires Recent(w.rows, phone, at - CODE_WINDOW) < CODE_RATE
    ensures Stands(Step(w, Event(Issue(phone, secret), at)).rows, phone, CodeNow(w.nextId, phone, secret, at, []))
  {
    SupersedeOpens(w.rows, phone, at, phone);
    OpenSnoc(Supersede(w.rows, phone, at), NewCode(w.nextId, phone, secret, at), phone);
  }

  function RunOn(w: World, more: seq<Event>): World {
    if more == [] then w else Step(RunOn(w, more[..|more| - 1]), more[|more| - 1])
  }

  predicate AllLeaveAlone(more: seq<Event>, phone: string, at: Time) {
    forall i :: 0 <= i < |more| ==> LeavesAlone(more[i], phone, at)
  }

  lemma {:induction false} CodeIsAsTried(w: World, phone: string, secret: string, at: Time, more: seq<Event>)
    requires Recent(w.rows, phone, at - CODE_WINDOW) < CODE_RATE && AllLeaveAlone(more, phone, at)
    ensures Stands(RunOn(Step(w, Event(Issue(phone, secret), at)), more).rows, phone,
                   CodeNow(w.nextId, phone, secret, at, more))
  {
    if more == [] {
      IssueStands(w, phone, secret, at);
    } else {
      var front, e := more[..|more| - 1], more[|more| - 1];
      assert more == front + [e];
      CodeIsAsTried(w, phone, secret, at, front);
      CodeNowSnoc(w.nextId, phone, secret, at, front, e);
      var mid := RunOn(Step(w, Event(Issue(phone, secret), at)), front);
      if IsTry(e, phone) {
        TryStep(mid, phone, e.op.secret, e.now, CodeNow(w.nextId, phone, secret, at, front));
      } else {
        QuietStep(mid, e, phone, at, CodeNow(w.nextId, phone, secret, at, front));
      }
    }
  }

  /** A code asked for stands open exactly while fewer than five wrong secrets were tried, the right
      one was not, and nobody tried after its ten minutes: whatever else happens to other numbers,
      and sweeps included. */
  lemma OpenExactlyWhileUnspent(w: World, phone: string, secret: string, at: Time, more: seq<Event>)
    requires Recent(w.rows, phone, at - CODE_WINDOW) < CODE_RATE && AllLeaveAlone(more, phone, at)
    ensures var later := RunOn(Step(w, Event(Issue(phone, secret), at)), more);
      Newest(later.rows, phone).Some? <==> Unspent(more, phone, secret, at)
  {
    CodeIsAsTried(w, phone, secret, at, more);
    NewestIsOpen(RunOn(Step(w, Event(Issue(phone, secret), at)), more).rows, phone);
  }

  lemma TryEnters(w: World, phone: string, c: Option<Code>, guess: string, now: Time)
    requires Stands(w.rows, phone, c)
    ensures Step(w, Event(Consume(phone, guess), now)).entries
         == if c.Some? && Judge(c.value, guess, now).verdict == Accepted
            then w.entries + [Entry(c.value.id, phone, now, |w.minted|)] else w.entries
  {
    NewestIsOpen(w.rows, phone);
  }

  lemma TryIsAnswered(id: int, phone: string, secret: string, at: Time, tries: int, guess: string, now: Time)
    requires 0 <= tries < 5
    ensures Judge(CodeAfter(id, phone, secret, at, tries), guess, now).verdict
         == if now > at + 10 * MINUTE then Expired else if guess != secret then Invalid else Accepted
  {
  }

  /** So guessing is limited: a try signs somebody in, as exactly one new entry, exactly when it is
      the right secret within ten minutes and fewer than five wrong ones were tried before it; after
      five wrong guesses not even the right secret does. */
  lemma FiveWrongGuessesEndIt(
    w: World, phone: string, secret: string, at: Time, more: seq<Event>, guess: string, now: Time)
    requires Recent(w.rows, phone, at - CODE_WINDOW) < CODE_RATE && AllLeaveAlone(more, phone, at)
    ensures var later := RunOn(Step(w, Event(Issue(phone, secret), at)), more);
      Step(later, Event(Consume(phone, guess), now)).entries
      == if guess == secret && now <= at + 10 * MINUTE && Unspent(more, phone, secret, at)
         then later.entries + [Entry(w.nextId, phone, now, |later.minted|)] else later.entries
  {
    CodeIsAsTried(w, phone, secret, at, more);
    TryEnters(RunOn(Step(w, Event(Issue(phone, secret), at)), more), phone, CodeNow(w.nextId, phone, secret, at, more), guess, now);
    if Unspent(more, phone, secret, at) {
      TryIsAnswered(w.nextId, phone, secret, at, WrongTries(more, phone, secret), guess, now);
    }
  }

  /** And each try is answered for what it was: expired after ten minutes, else invalid when wrong; a
      code that is spent is invalid whatever is tried, since none stands. */
  lemma TriesAreAnswered(w: World, phone: string, secret: string, at: Time, more: seq<Event>, guess: string, now: Time)
    requires Recent(w.rows, phone, at - CODE_WINDOW) < CODE_RATE && AllLeaveAlone(more, phone, at)
    ensures var rows := RunOn(Step(w, Event(Issue(phone, secret), at)), more).rows;
      var newest := Newest(rows, phone);
      if Unspent(more, phone, secret, at)
      then newest.Some? && Judge(rows[newest.value], guess, now).verdict
                           == (if now > at + 10 * MINUTE then Expired else if guess != secret then Invalid else Accepted)
      else newest.None?
  {
    var rows := RunOn(Step(w, Event(Issue(phone, secret), at)), more).rows;
    CodeIsAsTried(w, phone, secret, at, more);
    NewestIsOpen(rows, phone);
    if Unspent(more, phone, secret, at) {
      TryIsAnswered(w.nextId, phone, secret, at, WrongTries(more, phone, secret), guess, now);
    }
  }
}
