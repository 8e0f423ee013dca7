/** What holds over every sequential run of issue, discard, consume, purge and erasure. */
module LoginCodeRuns {
  import opened Clock
  import opened Options
  import opened SlidingWindow
  import opened LoginCodes

  /** A code that was minted, and one that was accepted once `seen` codes had been minted. */
  datatype Minted = Minted(id: int, phone: string, at: Time)
  datatype Entry = Entry(id: int, phone: string, at: Time, seen: nat)

  /** The table, and what an onlooker who forgets nothing has recorded; `discarded` also holds the
      codes erased along with their owner's profile. */
  datatype World = World(rows: seq<Code>, nextId: int,
                         minted: seq<Minted>, discarded: set<int>, entries: seq<Entry>)

  datatype Op = Issue(phone: string, secret: string)
              | Discard(phone: string)
              | Consume(phone: string, secret: string)
              | Purge
              | Erase(phone: string)

  datatype Event = Event(op: Op, now: Time)

  const START := World([], 1, [], {}, [])

  function IdsOpenFor(rows: seq<Code>, phone: string): set<int> {
    set i | 0 <= i < |rows| && rows[i].OpenFor(phone) :: rows[i].id
  }

  function IdsMintedFor(minted: seq<Minted>, phone: string): set<int> {
    set i | 0 <= i < |minted| && minted[i].phone == phone :: minted[i].id
  }

  function Step(w: World, e: Event): World {
    match e.op
    case Issue(phone, secret) =>
      if Recent(w.rows, phone, e.now - CODE_WINDOW) >= CODE_RATE then w
      else w.(rows := Supersede(w.rows, phone, e.now) + [NewCode(w.nextId, phone, secret, e.now)],
              nextId := w.nextId + 1,
              minted := w.minted + [Minted(w.nextId, phone, e.now)])
    case Discard(phone) =>
      w.(rows := DropOpen(w.rows, phone), discarded := w.discarded + IdsOpenFor(w.rows, phone))
    case Consume(phone, secret) =>
      var at := Newest(w.rows, phone);
      if at.None? then w
      else
        var judged := Judge(w.rows[at.value], secret, e.now);
        var w' := w.(rows := w.rows[at.value := judged.code]);
        if judged.verdict != Accepted then w'
        else w'.(entries := w.entries + [Entry(judged.code.id, phone, e.now, |w.minted|)])
    case Purge =>
      w.(rows := DropExpired(w.rows, e.now - CODE_WINDOW))
    case Erase(phone) =>
      w.(rows := DropNumber(w.rows, phone), discarded := w.discarded + IdsMintedFor(w.minted, phone))
  }

  predicate Ordered(run: seq<Event>) {
    forall i, j :: 0 <= i < j < |run| ==> run[i].now <= run[j].now
  }

  function Run(run: seq<Event>): World {
    if run == [] then START else Step(Run(run[..|run| - 1]), run[|run| - 1])
  }

  // ----- what the onlooker can say -----------------------------------------------------------

  /** The id of the code most recently minted for a number. */
  function Latest(minted: seq<Minted>, phone: string): Option<int> {
    if minted == [] then None
    else if minted[|minted| - 1].phone == phone then Some(minted[|minted| - 1].id)
    else Latest(minted[..|minted| - 1], phone)
  }

  /** When the codes for a number that were minted and not discarded were minted. */
  function Undiscarded(minted: seq<Minted>, discarded: set<int>, phone: string): seq<Time> {
    if minted == [] then []
    else
      var rest, m := Undiscarded(minted[..|minted| - 1], discarded, phone), minted[|minted| - 1];
      if m.phone == phone && m.id !in discarded then rest + [m.at] else rest
  }

  /** `short` is what is left of `long` after dropping a front of entries older than `bound`. */
  predicate Tail(short: seq<Time>, long: seq<Time>, bound: Time) {
    && |short| <= |long|
    && long[|long| - |short|..] == short
    && forall i :: 0 <= i < |long| - |short| ==> long[i] < bound
  }

  // ----- the invariant -----------------------------------------------------------------------

  predicate RowsInOrder(rows: seq<Code>, nextId: int, now: Time) {
    && (forall i :: 0 <= i < |rows| ==>
          rows[i].id < nextId && rows[i].created <= now && rows[i].expires == rows[i].created + CODE_TTL)
    && (forall i, j :: 0 <= i < j < |rows| ==> rows[i].id < rows[j].id && rows[i].created <= rows[j].created)
  }

  predicate MintedInOrder(minted: seq<Minted>, nextId: int, now: Time) {
    && (forall i :: 0 <= i < |minted| ==> minted[i].id < nextId && minted[i].at <= now)
    && (forall i, j :: 0 <= i < j < |minted| ==> minted[i].id < minted[j].id && minted[i].at <= minted[j].at)
  }

  predicate WasMinted(minted: seq<Minted>, r: Code) {
    exists k :: 0 <= k < |minted| && minted[k] == Minted(r.id, r.phone, r.created)
  }

  predicate NotEntered(entries: seq<Entry>, id: int) {
    forall k :: 0 <= k < |entries| ==> entries[k].id != id
  }

  /** An open code is the newest minted for its number, has attempts left, and has never been
      accepted or discarded. */
  predicate OpenRow(w: World, r: Code) {
    && WasMinted(w.minted, r)
    && (r.consumed.None? ==>
          && 0 <= r.attempts < CODE_ATTEMPTS
          && Latest(w.minted, r.phone) == Some(r.id)
          && NotEntered(w.entries, r.id)
          && r.id !in w.discarded)
  }

  predicate OpenIsNewest(w: World) {
    forall i :: 0 <= i < |w.rows| ==> OpenRow(w, w.rows[i])
  }

  ghost predicate TableIsRecentTail(w: World, now: Time) {
    forall p: string :: Tail(Times(w.rows, p), Undiscarded(w.minted, w.discarded, p), now - CODE_WINDOW - CODE_TTL)
  }

  ghost predicate BudgetKept(w: World) {
    forall p: string :: WithinBudget(Undiscarded(w.minted, w.discarded, p), CODE_WINDOW, CODE_RATE)
  }

  predicate EntryIsSound(minted: seq<Minted>, e: Entry) {
    && e.seen <= |minted|
    && Latest(minted[..e.seen], e.phone) == Some(e.id)
    && exists k :: 0 <= k < e.seen && minted[k].id == e.id && minted[k].phone == e.phone && e.at <= minted[k].at + CODE_TTL
  }

  predicate EntriesSound(w: World) {
    && (forall i :: 0 <= i < |w.entries| ==> EntryIsSound(w.minted, w.entries[i]))
    && (forall i, j :: 0 <= i < j < |w.entries| ==> w.entries[i].id != w.entries[j].id)
  }

  ghost predicate Inv(w: World, now: Time) {
    && RowsInOrder(w.rows, w.nextId, now)
    && MintedInOrder(w.minted, w.nextId, now)
    && (forall id :: id in w.discarded ==> id < w.nextId)
    && OpenIsNewest(w)
    && TableIsRecentTail(w, now)
    && BudgetKept(w)
    && EntriesSound(w)
  }

  // ----- small facts -------------------------------------------------------------------------

  lemma {:induction false} LatestIsLast(minted: seq<Minted>, nextId: int, now: Time, k: nat)
    requires MintedInOrder(minted, nextId, now) && k < |minted|
    ensures Latest(minted, minted[k].phone).Some? && minted[k].id <= Latest(minted, minted[k].phone).value
    ensures exists j :: k <= j < |minted| && minted[j].phone == minted[k].phone
                     && Latest(minted, minted[k].phone) == Some(minted[j].id)
  {
    var last := |minted| - 1;
    if minted[last].phone != minted[k].phone {
      LatestIsLast(minted[..last], nextId, now, k);
    }
  }

  lemma {:induction false} SupersedeKeepsTimes(rows: seq<Code>, phone: string, now: Time, p: string)
    ensures Times(Supersede(rows, phone, now), p) == Times(rows, p)
  {
    if rows != [] {
      var front := rows[..|rows| - 1];
      SupersedeKeepsTimes(front, phone, now, p);
      assert Supersede(rows, phone, now)[..|rows| - 1] == Supersede(front, phone, now);
    }
  }

  lemma TimesSnoc(rows: seq<Code>, r: Code, p: string)
    ensures Times(rows + [r], p) == if r.phone == p then Times(rows, p) + [r.created] else Times(rows, p)
  {
    assert (rows + [r])[..|rows|] == rows;
  }

  lemma UndiscardedSnoc(minted: seq<Minted>, m: Minted, discarded: set<int>, p: string)
    ensures Undiscarded(minted + [m], discarded, p)
         == if m.phone == p && m.id !in discarded then Undiscarded(minted, discarded, p) + [m.at]
            else Undiscarded(minted, discarded, p)
  {
    assert (minted + [m])[..|minted|] == minted;
  }

  lemma {:induction false} UpdateKeepsTimes(rows: seq<Code>, i: nat, c: Code, p: string)
    requires i < |rows| && c.phone == rows[i].phone && c.created == rows[i].created
    ensures Times(rows[i := c], p) == Times(rows, p)
  {
    var n := |rows| - 1;
    if i < n {
      assert rows[i := c][..n] == rows[..n][i := c];
      UpdateKeepsTimes(rows[..n], i, c, p);
    } else {
      assert rows[i := c][..n] == rows[..n];
    }
  }

  lemma MintedStays(minted: seq<Minted>, m: Minted, r: Code)
    requires WasMinted(minted, r)
    ensures WasMinted(minted + [m], r)
  {
    var k :| 0 <= k < |minted| && minted[k] == Minted(r.id, r.phone, r.created);
    assert (minted + [m])[k] == minted[k];
  }

  lemma EntryStays(minted: seq<Minted>, m: Minted, e: Entry)
    requires EntryIsSound(minted, e)
    ensures EntryIsSound(minted + [m], e)
  {
    assert (minted + [m])[..e.seen] == minted[..e.seen];
    var k :| 0 <= k < e.seen && minted[k].id == e.id && minted[k].phone == e.phone && e.at <= minted[k].at + CODE_TTL;
    assert (minted + [m])[k] == minted[k];
  }

  // ----- issuing -----------------------------------------------------------------------------

  lemma IssueKeepsOrder(w: World, phone: string, secret: string, was: Time, now: Time)
    requires RowsInOrder(w.rows, w.nextId, was) && MintedInOrder(w.minted, w.nextId, was) && was <= now
    ensures RowsInOrder(Supersede(w.rows, phone, now) + [NewCode(w.nextId, phone, secret, now)], w.nextId + 1, now)
    ensures MintedInOrder(w.minted + [Minted(w.nextId, phone, now)], w.nextId + 1, now)
  {
  }

  /** Every older open code for the number is spent, so the new one is the only open one. */
  lemma IssueKeepsOpen(w: World, phone: string, secret: string, was: Time, now: Time)
    requires Inv(w, was) && was <= now
    requires Recent(w.rows, phone, now - CODE_WINDOW) < CODE_RATE
    ensures OpenIsNewest(Step(w, Event(Issue(phone, secret), now)))
  {
    var m := Minted(w.nextId, phone, now);
    var spent := Supersede(w.rows, phone, now);
    var w' := Step(w, Event(Issue(phone, secret), now));
    FreshIsNotEntered(w, w.nextId, was);
    assert w'.minted[..|w.minted|] == w.minted;
    forall i | 0 <= i < |w'.rows| ensures OpenRow(w', w'.rows[i]) {
      if i < |w.rows| {
        assert OpenRow(w, w.rows[i]);
        MintedStays(w.minted, m, w.rows[i]);
        assert w'.rows[i] == spent[i];
      } else {
        assert w'.minted[|w.minted|] == m;
      }
    }
  }

  lemma FreshIsNotEntered(w: World, id: int, now: Time)
    requires MintedInOrder(w.minted, id, now)
    requires EntriesSound(w)
    ensures NotEntered(w.entries, id)
  {
    forall k | 0 <= k < |w.entries| ensures w.entries[k].id != id {
      assert EntryIsSound(w.minted, w.entries[k]);
    }
  }

  lemma IssueAppends(w: World, phone: string, secret: string, now: Time, p: string)
    requires Recent(w.rows, phone, now - CODE_WINDOW) < CODE_RATE && w.nextId !in w.discarded
    ensures var w' := Step(w, Event(Issue(phone, secret), now));
      var kept, all := Times(w.rows, p), Undiscarded(w.minted, w.discarded, p);
      && Times(w'.rows, p) == (if p == phone then kept + [now] else kept)
      && Undiscarded(w'.minted, w'.discarded, p) == (if p == phone then all + [now] else all)
  {
    SupersedeKeepsTimes(w.rows, phone, now, p);
    TimesSnoc(Supersede(w.rows, phone, now), NewCode(w.nextId, phone, secret, now), p);
    UndiscardedSnoc(w.minted, Minted(w.nextId, phone, now), w.discarded, p);
  }

  /** The budget is read off the table, but it binds the full history. */
  lemma IssueOneNumber(w: World, phone: string, secret: string, was: Time, now: Time, p: string)
    requires Inv(w, was) && was <= now
    requires Recent(w.rows, phone, now - CODE_WINDOW) < CODE_RATE
    ensures var w' := Step(w, Event(Issue(phone, secret), now));
      && Tail(Times(w'.rows, p), Undiscarded(w'.minted, w'.discarded, p), now - CODE_WINDOW - CODE_TTL)
      && WithinBudget(Undiscarded(w'.minted, w'.discarded, p), CODE_WINDOW, CODE_RATE)
  {
    var kept, all := Times(w.rows, p), Undiscarded(w.minted, w.discarded, p);
    IssueAppends(w, phone, secret, now, p);
    assert Tail(kept, all, was - CODE_WINDOW - CODE_TTL);
    assert WithinBudget(all, CODE_WINDOW, CODE_RATE);
    if p == phone {
      UndiscardedNoneAfter(w.minted, w.discarded, p, w.nextId, was);
      TailCounts(kept, all, was - CODE_WINDOW - CODE_TTL, was, now);
      AppendKeepsBudget(all, CODE_WINDOW, CODE_RATE, now);
      TailSnoc(kept, all, was - CODE_WINDOW - CODE_TTL, now);
    }
  }

  lemma IssueKeepsBudget(w: World, phone: string, secret: string, was: Time, now: Time)
    requires Inv(w, was) && was <= now
    requires Recent(w.rows, phone, now - CODE_WINDOW) < CODE_RATE
    ensures TableIsRecentTail(Step(w, Event(Issue(phone, secret), now)), now)
    ensures BudgetKept(Step(w, Event(Issue(phone, secret), now)))
  {
    var w' := Step(w, Event(Issue(phone, secret), now));
    forall p: string
      ensures Tail(Times(w'.rows, p), Undiscarded(w'.minted, w'.discarded, p), now - CODE_WINDOW - CODE_TTL)
      ensures WithinBudget(Undiscarded(w'.minted, w'.discarded, p), CODE_WINDOW, CODE_RATE)
    {
      IssueOneNumber(w, phone, secret, was, now, p);
    }
  }

  lemma TailSnoc(short: seq<Time>, long: seq<Time>, bound: Time, t: Time)
    requires Tail(short, long, bound)
    ensures Tail(short + [t], long + [t], bound)
  {
    assert (long + [t])[|long| - |short|..] == long[|long| - |short|..] + [t];
  }

  lemma {:induction false} UndiscardedNoneAfter(minted: seq<Minted>, discarded: set<int>, p: string, nextId: int, now: Time)
    requires MintedInOrder(minted, nextId, now)
    ensures NoneAfter(Undiscarded(minted, discarded, p), now)
  {
    if minted != [] {
      UndiscardedNoneAfter(minted[..|minted| - 1], discarded, p, nextId, now);
    }
  }

  /** What the purge removed is too old for the budget to have counted. */
  lemma TailCounts(short: seq<Time>, long: seq<Time>, bound: Time, was: Time, now: Time)
    requires Tail(short, long, bound) && NoneAfter(long, was) && was <= now
    requires bound <= now - CODE_WINDOW
    ensures |Live(short, now - CODE_WINDOW)| == WindowCount(long, CODE_WINDOW, now)
  {
    var front := long[..|long| - |short|];
    assert long == front + short;
    assert NoneAfter(short, now) by {
      forall i | 0 <= i < |short| ensures short[i] <= now {
        assert short[i] == long[|long| - |short| + i];
      }
    }
    WindowCountConcat(front, short, CODE_WINDOW, now);
    NoneInWindow(front, CODE_WINDOW, now);
    LiveCount(short, CODE_WINDOW, now);
  }

  lemma {:induction false} NoneInWindow(log: seq<Time>, window: int, end: Time)
    requires forall i :: 0 <= i < |log| ==> log[i] <= end - window
    ensures WindowCount(log, window, end) == 0
  {
    if log != [] {
      NoneInWindow(log[..|log| - 1], window, end);
    }
  }

  lemma IssueKeepsEntries(w: World, m: Minted)
    requires EntriesSound(w)
    ensures forall i :: 0 <= i < |w.entries| ==> EntryIsSound(w.minted + [m], w.entries[i])
  {
    forall i | 0 <= i < |w.entries| ensures EntryIsSound(w.minted + [m], w.entries[i]) {
      EntryStays(w.minted, m, w.entries[i]);
    }
  }

  lemma IssueKeepsLists(w: World, phone: string, secret: string, was: Time, now: Time)
    requires Inv(w, was) && was <= now
    requires Recent(w.rows, phone, now - CODE_WINDOW) < CODE_RATE
    ensures var w' := Step(w, Event(Issue(phone, secret), now));
      && RowsInOrder(w'.rows, w'.nextId, now) && MintedInOrder(w'.minted, w'.nextId, now)
      && (forall id :: id in w'.discarded ==> id < w'.nextId)
      && EntriesSound(w')
  {
    IssueKeepsOrder(w, phone, secret, was, now);
    IssueKeepsEntries(w, Minted(w.nextId, phone, now));
  }

  lemma IssuedKeepsInv(w: World, phone: string, secret: string, was: Time, now: Time)
    requires Inv(w, was) && was <= now
    requires Recent(w.rows, phone, now - CODE_WINDOW) < CODE_RATE
    ensures Inv(Step(w, Event(Issue(phone, secret), now)), now)
  {
    IssueKeepsLists(w, phone, secret, was, now);
    IssueKeepsOpen(w, phone, secret, was, now);
    IssueKeepsBudget(w, phone, secret, was, now);
  }

  lemma IssueKeepsInv(w: World, phone: string, secret: string, was: Time, now: Time)
    requires Inv(w, was) && was <= now
    ensures Inv(Step(w, Event(Issue(phone, secret), now)), now)
  {
    if Recent(w.rows, phone, now - CODE_WINDOW) < CODE_RATE {
      IssuedKeepsInv(w, phone, secret, was, now);
    } else {
      assert Step(w, Event(Issue(phone, secret), now)) == w;
      LaterKeepsInv(w, was, now);
    }
  }

  lemma LaterKeepsInv(w: World, was: Time, now: Time)
    requires Inv(w, was) && was <= now
    ensures Inv(w, now)
  {
    forall p: string
      ensures Tail(Times(w.rows, p), Undiscarded(w.minted, w.discarded, p), now - CODE_WINDOW - CODE_TTL)
    {
      assert Tail(Times(w.rows, p), Undiscarded(w.minted, w.discarded, p), was - CODE_WINDOW - CODE_TTL);
    }
  }

  // ----- discarding ----------------------------------------------------------------------------

  /** No row for the number comes after its open one. */
  lemma OpenIsLast(w: World, now: Time, i: nat, j: nat)
    requires Inv(w, now) && i < |w.rows| && j < |w.rows|
    requires w.rows[i].consumed.None? && w.rows[j].phone == w.rows[i].phone
    ensures j <= i
  {
    assert OpenRow(w, w.rows[i]) && OpenRow(w, w.rows[j]);
    var r := w.rows[j];
    var k :| 0 <= k < |w.minted| && w.minted[k] == Minted(r.id, r.phone, r.created);
    LatestIsLast(w.minted, w.nextId, now, k);
  }

  /** The open row of a number is the last row of that number. */
  predicate OpenComesLast(rows: seq<Code>, phone: string) {
    forall i, j :: 0 <= i < j < |rows| && rows[i].OpenFor(phone) ==> rows[j].phone != phone
  }

  lemma {:induction false} NothingToDrop(rows: seq<Code>, phone: string)
    requires Newest(rows, phone).None?
    ensures DropOpen(rows, phone) == rows
  {
    if rows != [] {
      var front, last := rows[..|rows| - 1], rows[|rows| - 1];
      assert forall i :: 0 <= i < |front| ==> front[i] == rows[i];
      NothingToDrop(front, phone);
      assert front + [last] == rows;
    }
  }

  lemma {:induction false} DropOpenTimes(rows: seq<Code>, phone: string, p: string)
    requires OpenComesLast(rows, phone) && Newest(rows, phone).Some?
    ensures Times(rows, phone) != []
    ensures Times(DropOpen(rows, phone), p)
         == if p == phone then Times(rows, p)[..|Times(rows, p)| - 1] else Times(rows, p)
    decreases |rows|, 1
  {
    var front, last := rows[..|rows| - 1], rows[|rows| - 1];
    TimesSnoc(front, last, p);
    TimesSnoc(front, last, phone);
    assert front + [last] == rows;
    if last.OpenFor(phone) {
      NothingToDrop(front, phone);
      assert DropOpen(rows, phone) == front;
    } else {
      DropOpenTimesFront(front, last, phone, p);
    }
  }

  lemma {:induction false} DropOpenTimesFront(front: seq<Code>, last: Code, phone: string, p: string)
    requires OpenComesLast(front + [last], phone) && Newest(front + [last], phone).Some? && !last.OpenFor(phone)
    ensures Times(front, phone) != [] && last.phone != phone
    ensures Times(DropOpen(front + [last], phone), p)
         == Times(if p == phone then DropOpen(front, phone) else front + [last], p)
    ensures Times(DropOpen(front, phone), p)
         == if p == phone then Times(front, p)[..|Times(front, p)| - 1] else Times(front, p)
    decreases |front| + 1, 0
  {
    var rows := front + [last];
    assert rows[..|front|] == front;
    assert OpenComesLast(front, phone) by {
      assert forall i :: 0 <= i < |front| ==> front[i] == rows[i];
    }
    assert last.phone != phone by {
      var at := Newest(front, phone).value;
      assert front[at] == rows[at];
    }
    DropOpenTimes(front, phone, p);
    TimesSnoc(front, last, p);
    TimesSnoc(DropOpen(front, phone), last, p);
  }

  lemma OneOpenId(rows: seq<Code>, phone: string)
    requires OpenComesLast(rows, phone)
    ensures Newest(rows, phone).Some? ==>
              IdsOpenFor(rows, phone) == {rows[Newest(rows, phone).value].id}
    ensures Newest(rows, phone).None? ==> IdsOpenFor(rows, phone) == {}
  {
  }

  /** Discarding the newest code for a number takes the last entry off its budget and leaves
      every other number's alone. */
  lemma {:induction false} DiscardLatest(minted: seq<Minted>, discarded: set<int>, id: int, phone: string,
                                         p: string, nextId: int, now: Time)
    requires MintedInOrder(minted, nextId, now)
    requires Latest(minted, phone) == Some(id) && id !in discarded
    ensures Undiscarded(minted, discarded, phone) != []
    ensures var all := Undiscarded(minted, discarded, p);
            Undiscarded(minted, discarded + {id}, p) == if p == phone then all[..|all| - 1] else all
  {
    var front, last := minted[..|minted| - 1], minted[|minted| - 1];
    if last.phone == phone {
      OlderUnaffected(front, discarded, id, p);
    } else {
      LatestIsMinted(front, phone);
      DiscardLatest(front, discarded, id, phone, p, nextId, now);
    }
  }

  lemma {:induction false} LatestIsMinted(minted: seq<Minted>, phone: string)
    requires Latest(minted, phone).Some?
    ensures exists k :: 0 <= k < |minted| && minted[k].phone == phone && Latest(minted, phone) == Some(minted[k].id)
  {
    var n := |minted| - 1;
    if minted[n].phone != phone {
      LatestIsMinted(minted[..n], phone);
    }
  }

  lemma {:induction false} OlderUnaffected(minted: seq<Minted>, discarded: set<int>, id: int, p: string)
    requires forall k :: 0 <= k < |minted| ==> minted[k].id != id
    ensures Undiscarded(minted, discarded + {id}, p) == Undiscarded(minted, discarded, p)
  {
    if minted != [] {
      OlderUnaffected(minted[..|minted| - 1], discarded, id, p);
    }
  }

  lemma PartSnoc(kept: seq<Code>, front: seq<Code>, last: Code, nextId: int, now: Time)
    requires RowsInOrder(front + [last], nextId, now) && RowsInOrder(kept, nextId, now)
    requires forall i :: 0 <= i < |kept| ==> kept[i] in front
    ensures RowsInOrder(kept + [last], nextId, now)
  {
    var rows := front + [last];
    forall i | 0 <= i < |kept| ensures kept[i].id < last.id && kept[i].created <= last.created {
      assert kept[i] in front;
      var k :| 0 <= k < |front| && front[k] == kept[i];
      assert rows[k] == kept[i] && rows[|front|] == last;
    }
    assert rows[|front|] == last;
  }

  lemma {:induction false} DropOpenIsPart(rows: seq<Code>, phone: string, nextId: int, now: Time)
    requires RowsInOrder(rows, nextId, now)
    ensures RowsInOrder(DropOpen(rows, phone), nextId, now)
    ensures forall i :: 0 <= i < |DropOpen(rows, phone)| ==>
              DropOpen(rows, phone)[i] in rows && !DropOpen(rows, phone)[i].OpenFor(phone)
  {
    if rows != [] {
      var front, last := rows[..|rows| - 1], rows[|rows| - 1];
      assert rows == front + [last];
      DropOpenIsPart(front, phone, nextId, now);
      PartSnoc(DropOpen(front, phone), front, last, nextId, now);
    }
  }

  lemma DropLastKeepsBudget(log: seq<Time>, window: int, limit: int)
    requires log != [] && WithinBudget(log, window, limit)
    ensures WithinBudget(log[..|log| - 1], window, limit)
  {
    var front := log[..|log| - 1];
    forall end ensures WindowCount(front, window, end) <= limit {
      assert WindowCount(log, window, end) <= limit;
    }
  }

  lemma OpenComesLastHere(w: World, phone: string, now: Time)
    requires Inv(w, now)
    ensures OpenComesLast(w.rows, phone)
  {
    forall i, j | 0 <= i < j < |w.rows| && w.rows[i].OpenFor(phone) ensures w.rows[j].phone != phone {
      if w.rows[j].phone == phone {
        OpenIsLast(w, now, i, j);
      }
    }
  }

  lemma DiscardOneNumber(w: World, phone: string, p: string, now: Time)
    requires Inv(w, now)
    ensures var w' := Step(w, Event(Discard(phone), now));
      && Tail(Times(w'.rows, p), Undiscarded(w'.minted, w'.discarded, p), now - CODE_WINDOW - CODE_TTL)
      && WithinBudget(Undiscarded(w'.minted, w'.discarded, p), CODE_WINDOW, CODE_RATE)
  {
    OpenComesLastHere(w, phone, now);
    OneOpenId(w.rows, phone);
    if Newest(w.rows, phone).Some? {
      DiscardSome(w, phone, p, now);
    } else {
      NothingToDrop(w.rows, phone);
      assert w.discarded + {} == w.discarded;
      assert Tail(Times(w.rows, p), Undiscarded(w.minted, w.discarded, p), now - CODE_WINDOW - CODE_TTL);
    }
  }

  lemma DiscardSome(w: World, phone: string, p: string, now: Time)
    requires Inv(w, now) && OpenComesLast(w.rows, phone) && Newest(w.rows, phone).Some?
    ensures var discarded := w.discarded + {w.rows[Newest(w.rows, phone).value].id};
      && Tail(Times(DropOpen(w.rows, phone), p), Undiscarded(w.minted, discarded, p), now - CODE_WINDOW - CODE_TTL)
      && WithinBudget(Undiscarded(w.minted, discarded, p), CODE_WINDOW, CODE_RATE)
  {
    var kept, all := Times(w.rows, p), Undiscarded(w.minted, w.discarded, p);
    assert Tail(kept, all, now - CODE_WINDOW - CODE_TTL);
    assert WithinBudget(all, CODE_WINDOW, CODE_RATE);
    var at := Newest(w.rows, phone).value;
    assert OpenRow(w, w.rows[at]);
    DropOpenTimes(w.rows, phone, p);
    DiscardLatest(w.minted, w.discarded, w.rows[at].id, phone, p, w.nextId, now);
    if p == phone {
      DropLastKeepsBudget(all, CODE_WINDOW, CODE_RATE);
      TailDropLast(kept, all, now - CODE_WINDOW - CODE_TTL);
    }
  }

  lemma DiscardKeepsBudget(w: World, phone: string, now: Time)
    requires Inv(w, now)
    ensures TableIsRecentTail(Step(w, Event(Discard(phone), now)), now)
    ensures BudgetKept(Step(w, Event(Discard(phone), now)))
  {
    var w' := Step(w, Event(Discard(phone), now));
    forall p: string
      ensures Tail(Times(w'.rows, p), Undiscarded(w'.minted, w'.discarded, p), now - CODE_WINDOW - CODE_TTL)
      ensures WithinBudget(Undiscarded(w'.minted, w'.discarded, p), CODE_WINDOW, CODE_RATE)
    {
      DiscardOneNumber(w, phone, p, now);
    }
  }

  lemma TailDropLast(short: seq<Time>, long: seq<Time>, bound: Time)
    requires Tail(short, long, bound) && short != []
    ensures Tail(short[..|short| - 1], long[..|long| - 1], bound)
  {
  }

  lemma DiscardKeepsInv(w: World, phone: string, was: Time, now: Time)
    requires Inv(w, was) && was <= now
    ensures Inv(Step(w, Event(Discard(phone), now)), now)
  {
    LaterKeepsInv(w, was, now);
    DropOpenIsPart(w.rows, phone, w.nextId, now);
    DiscardKeepsBudget(w, phone, now);
    var w' := Step(w, Event(Discard(phone), now));
    forall i | 0 <= i < |w'.rows| ensures OpenRow(w', w'.rows[i]) {
      var r := w'.rows[i];
      var k :| 0 <= k < |w.rows| && w.rows[k] == r;
      assert OpenRow(w, r);
    }
    forall id | id in w'.discarded ensures id < w'.nextId {
    }
  }

  // ----- consuming -----------------------------------------------------------------------------

  lemma ConsumeKeepsInv(w: World, phone: string, secret: string, was: Time, now: Time)
    requires Inv(w, was) && was <= now
    ensures Inv(Step(w, Event(Consume(phone, secret), now)), now)
  {
    LaterKeepsInv(w, was, now);
    var at := Newest(w.rows, phone);
    if at.Some? {
      ConsumeKeepsRows(w, phone, secret, now);
      ConsumeKeepsEntries(w, phone, secret, now);
      var code := Judge(w.rows[at.value], secret, now).code;
      var w' := Step(w, Event(Consume(phone, secret), now));
      forall p: string
        ensures Tail(Times(w'.rows, p), Undiscarded(w'.minted, w'.discarded, p), now - CODE_WINDOW - CODE_TTL)
      {
        UpdateKeepsTimes(w.rows, at.value, code, p);
        assert Tail(Times(w.rows, p), Undiscarded(w.minted, w.discarded, p), now - CODE_WINDOW - CODE_TTL);
      }
    }
  }

  lemma UpdateKeepsOrder(rows: seq<Code>, at: nat, c: Code, nextId: int, now: Time)
    requires RowsInOrder(rows, nextId, now) && at < |rows|
    requires c.id == rows[at].id && c.created == rows[at].created && c.expires == rows[at].expires
    ensures RowsInOrder(rows[at := c], nextId, now)
  {
  }

  /** A row other than the one entered stays as it was. */
  lemma OtherRowsStay(w: World, w': World, r: Code)
    requires OpenRow(w, r) && w'.minted == w.minted && w'.discarded == w.discarded
    requires w'.entries == w.entries || (|w'.entries| == |w.entries| + 1 && w'.entries[..|w.entries|] == w.entries
                                         && w'.entries[|w.entries|].id != r.id)
    ensures OpenRow(w', r)
  {
    assert forall k :: 0 <= k < |w.entries| ==> w'.entries[k] == w.entries[k];
  }

  lemma ConsumeKeepsRows(w: World, phone: string, secret: string, now: Time)
    requires Inv(w, now) && Newest(w.rows, phone).Some?
    ensures var w' := Step(w, Event(Consume(phone, secret), now));
            RowsInOrder(w'.rows, w'.nextId, now) && OpenIsNewest(w')
  {
    var at := Newest(w.rows, phone).value;
    var code := Judge(w.rows[at], secret, now).code;
    var w' := Step(w, Event(Consume(phone, secret), now));
    assert OpenRow(w, w.rows[at]);
    UpdateKeepsOrder(w.rows, at, code, w.nextId, now);
    WasMintedById(w.minted, w.rows[at], code);
    forall i | 0 <= i < |w'.rows| ensures OpenRow(w', w'.rows[i]) {
      if i != at {
        assert OpenRow(w, w.rows[i]) && w.rows[i].id != w.rows[at].id;
        OtherRowsStay(w, w', w.rows[i]);
      }
    }
  }

  lemma WasMintedById(minted: seq<Minted>, r: Code, r': Code)
    requires WasMinted(minted, r) && r.id == r'.id && r.phone == r'.phone && r.created == r'.created
    ensures WasMinted(minted, r')
  {
  }

  lemma ConsumeKeepsEntries(w: World, phone: string, secret: string, now: Time)
    requires Inv(w, now) && Newest(w.rows, phone).Some?
    ensures EntriesSound(Step(w, Event(Consume(phone, secret), now)))
  {
    var at := Newest(w.rows, phone).value;
    var r := w.rows[at];
    assert OpenRow(w, r);
    if Judge(r, secret, now).verdict == Accepted {
      var k :| 0 <= k < |w.minted| && w.minted[k] == Minted(r.id, r.phone, r.created);
      var e := Entry(r.id, phone, now, |w.minted|);
      assert w.minted[..|w.minted|] == w.minted;
      assert EntryIsSound(w.minted, e) by {
        assert w.minted[k].id == e.id && w.minted[k].phone == e.phone && e.at <= w.minted[k].at + CODE_TTL;
      }
      var w' := Step(w, Event(Consume(phone, secret), now));
      assert w'.entries == w.entries + [e];
    }
  }

  // ----- purging -------------------------------------------------------------------------------

  lemma {:induction false} PurgeIsPart(rows: seq<Code>, cutoff: Time)
    ensures forall r :: r in DropExpired(rows, cutoff) ==> r in rows
  {
    if rows != [] {
      var front := rows[..|rows| - 1];
      PurgeIsPart(front, cutoff);
      assert rows == front + [rows[|rows| - 1]];
    }
  }

  lemma {:induction false} PurgeKeepsOrder(rows: seq<Code>, cutoff: Time, nextId: int, now: Time)
    requires RowsInOrder(rows, nextId, now)
    ensures RowsInOrder(DropExpired(rows, cutoff), nextId, now)
  {
    if rows != [] {
      var front, last := rows[..|rows| - 1], rows[|rows| - 1];
      var left := DropExpired(front, cutoff);
      PurgeKeepsOrder(front, cutoff, nextId, now);
      PurgeIsPart(front, cutoff);
      forall i | 0 <= i < |left| ensures left[i].id < last.id && left[i].created <= last.created {
        assert left[i] in front;
      }
    }
  }

  lemma {:induction false} AllExpired(rows: seq<Code>, cutoff: Time)
    requires forall i :: 0 <= i < |rows| ==> rows[i].expires < cutoff
    ensures DropExpired(rows, cutoff) == []
  {
    if rows != [] {
      AllExpired(rows[..|rows| - 1], cutoff);
    }
  }

  lemma {:induction false} TimesOlder(rows: seq<Code>, p: string, bound: Time)
    requires forall i :: 0 <= i < |rows| ==> rows[i].created < bound
    ensures forall i :: 0 <= i < |Times(rows, p)| ==> Times(rows, p)[i] < bound
  {
    if rows != [] {
      TimesOlder(rows[..|rows| - 1], p, bound);
    }
  }

  lemma ExpiredTail(rows: seq<Code>, cutoff: Time, nextId: int, now: Time, p: string)
    requires RowsInOrder(rows, nextId, now) && rows != [] && rows[|rows| - 1].expires < cutoff
    ensures Tail(Times(DropExpired(rows, cutoff), p), Times(rows, p), cutoff - CODE_TTL)
  {
    AllExpired(rows, cutoff);
    TimesOlder(rows, p, cutoff - CODE_TTL);
  }

  /** A purge removes a front of the table, every row of it minted more than a window and a
      lifetime ago. */
  lemma {:induction false} PurgeDropsAFront(rows: seq<Code>, cutoff: Time, nextId: int, now: Time, p: string)
    requires RowsInOrder(rows, nextId, now)
    ensures Tail(Times(DropExpired(rows, cutoff), p), Times(rows, p), cutoff - CODE_TTL)
  {
    if rows != [] {
      var front, last := rows[..|rows| - 1], rows[|rows| - 1];
      if last.expires < cutoff {
        ExpiredTail(rows, cutoff, nextId, now, p);
      } else {
        PurgeDropsAFront(front, cutoff, nextId, now, p);
        TimesSnoc(DropExpired(front, cutoff), last, p);
        if last.phone == p {
          TailSnoc(Times(DropExpired(front, cutoff), p), Times(front, p), cutoff - CODE_TTL, last.created);
        } else {
          assert Times(rows, p) == Times(front, p);
        }
      }
    }
  }

  lemma TailTail(a: seq<Time>, b: seq<Time>, c: seq<Time>, bound: Time)
    requires Tail(a, b, bound) && Tail(b, c, bound)
    ensures Tail(a, c, bound)
  {
    var skip := |c| - |b|;
    assert c[|c| - |a|..] == c[skip..][|b| - |a|..];
    forall i | 0 <= i < |c| - |a| ensures c[i] < bound {
      if i >= skip {
        assert c[i] == b[i - skip];
      }
    }
  }

  lemma PurgeKeepsInv(w: World, was: Time, now: Time)
    requires Inv(w, was) && was <= now
    ensures Inv(Step(w, Event(Purge, now)), now)
  {
    LaterKeepsInv(w, was, now);
    PurgeKeepsOrder(w.rows, now - CODE_WINDOW, w.nextId, now);
    PurgeIsPart(w.rows, now - CODE_WINDOW);
    var w' := Step(w, Event(Purge, now));
    forall i | 0 <= i < |w'.rows| ensures OpenRow(w', w'.rows[i]) {
      assert w'.rows[i] in w.rows;
      var k :| 0 <= k < |w.rows| && w.rows[k] == w'.rows[i];
      assert OpenRow(w, w.rows[k]);
    }
    forall p: string
      ensures Tail(Times(w'.rows, p), Undiscarded(w'.minted, w'.discarded, p), now - CODE_WINDOW - CODE_TTL)
    {
      PurgeDropsAFront(w.rows, now - CODE_WINDOW, w.nextId, now, p);
      assert Tail(Times(w.rows, p), Undiscarded(w.minted, w.discarded, p), now - CODE_WINDOW - CODE_TTL);
      TailTail(Times(w'.rows, p), Times(w.rows, p), Undiscarded(w.minted, w.discarded, p), now - CODE_WINDOW - CODE_TTL);
    }
  }

  // ----- erasing -------------------------------------------------------------------------------

  lemma {:induction false} DropNumberIsPart(rows: seq<Code>, phone: string, nextId: int, now: Time)
    requires RowsInOrder(rows, nextId, now)
    ensures RowsInOrder(DropNumber(rows, phone), nextId, now)
    ensures forall i :: 0 <= i < |DropNumber(rows, phone)| ==>
              DropNumber(rows, phone)[i] in rows && DropNumber(rows, phone)[i].phone != phone
  {
    if rows != [] {
      var front, last := rows[..|rows| - 1], rows[|rows| - 1];
      assert rows == front + [last];
      DropNumberIsPart(front, phone, nextId, now);
      PartSnoc(DropNumber(front, phone), front, last, nextId, now);
    }
  }

  lemma {:induction false} DropNumberTimes(rows: seq<Code>, phone: string, p: string)
    ensures Times(DropNumber(rows, phone), p) == if p == phone then [] else Times(rows, p)
  {
    if rows != [] {
      var front, last := rows[..|rows| - 1], rows[|rows| - 1];
      DropNumberTimes(front, phone, p);
      TimesSnoc(DropNumber(front, phone), last, p);
      TimesSnoc(front, last, p);
      assert front + [last] == rows;
    }
  }

  /** Leaving out everything minted for one number empties its history and no other. */
  lemma {:induction false} UndiscardedWithout(minted: seq<Minted>, discarded: set<int>, gone: set<int>, phone: string, p: string)
    requires forall k :: 0 <= k < |minted| ==> (minted[k].id in gone <==> minted[k].phone == phone)
    ensures Undiscarded(minted, discarded + gone, p) == if p == phone then [] else Undiscarded(minted, discarded, p)
  {
    if minted != [] {
      UndiscardedWithout(minted[..|minted| - 1], discarded, gone, phone, p);
    }
  }

  lemma MintedForOne(minted: seq<Minted>, nextId: int, now: Time, phone: string)
    requires MintedInOrder(minted, nextId, now)
    ensures forall k :: 0 <= k < |minted| ==> (minted[k].id in IdsMintedFor(minted, phone) <==> minted[k].phone == phone)
    ensures forall id :: id in IdsMintedFor(minted, phone) ==> id < nextId
  {
    forall k | 0 <= k < |minted| && minted[k].id in IdsMintedFor(minted, phone) ensures minted[k].phone == phone {
      var j :| 0 <= j < |minted| && minted[j].phone == phone && minted[j].id == minted[k].id;
      assert j == k;
    }
  }

  /** An erasure empties the count and the history of its number and touches no other's. */
  lemma EraseOneNumber(w: World, phone: string, was: Time, now: Time, p: string)
    requires MintedInOrder(w.minted, w.nextId, was)
    ensures var w' := Step(w, Event(Erase(phone), now));
            && Times(w'.rows, p) == (if p == phone then [] else Times(w.rows, p))
            && Undiscarded(w'.minted, w'.discarded, p) == if p == phone then [] else Undiscarded(w.minted, w.discarded, p)
  {
    MintedForOne(w.minted, w.nextId, was, phone);
    DropNumberTimes(w.rows, phone, p);
    UndiscardedWithout(w.minted, w.discarded, IdsMintedFor(w.minted, phone), phone, p);
  }

  lemma EraseKeepsOpen(w: World, phone: string, was: Time, now: Time)
    requires Inv(w, was) && was <= now
    ensures OpenIsNewest(Step(w, Event(Erase(phone), now)))
  {
    var w' := Step(w, Event(Erase(phone), now));
    DropNumberIsPart(w.rows, phone, w.nextId, was);
    MintedForOne(w.minted, w.nextId, was, phone);
    forall i | 0 <= i < |w'.rows| ensures OpenRow(w', w'.rows[i]) {
      var r := w'.rows[i];
      var k :| 0 <= k < |w.rows| && w.rows[k] == r;
      assert OpenRow(w, r);
      var m :| 0 <= m < |w.minted| && w.minted[m] == Minted(r.id, r.phone, r.created);
    }
  }

  lemma EraseKeepsBudget(w: World, phone: string, was: Time, now: Time)
    requires Inv(w, was) && was <= now
    ensures TableIsRecentTail(Step(w, Event(Erase(phone), now)), now)
    ensures BudgetKept(Step(w, Event(Erase(phone), now)))
  {
    var w' := Step(w, Event(Erase(phone), now));
    LaterKeepsInv(w, was, now);
    forall p: string
      ensures Tail(Times(w'.rows, p), Undiscarded(w'.minted, w'.discarded, p), now - CODE_WINDOW - CODE_TTL)
      ensures WithinBudget(Undiscarded(w'.minted, w'.discarded, p), CODE_WINDOW, CODE_RATE)
    {
      EraseOneNumber(w, phone, was, now, p);
      assert Tail(Times(w.rows, p), Undiscarded(w.minted, w.discarded, p), now - CODE_WINDOW - CODE_TTL);
      assert WithinBudget(Undiscarded(w.minted, w.discarded, p), CODE_WINDOW, CODE_RATE);
    }
  }

  lemma EraseKeepsInv(w: World, phone: string, was: Time, now: Time)
    requires Inv(w, was) && was <= now
    ensures Inv(Step(w, Event(Erase(phone), now)), now)
  {
    LaterKeepsInv(w, was, now);
    DropNumberIsPart(w.rows, phone, w.nextId, now);
    MintedForOne(w.minted, w.nextId, was, phone);
    EraseKeepsOpen(w, phone, was, now);
    EraseKeepsBudget(w, phone, was, now);
  }

  // ----- every run -----------------------------------------------------------------------------

  lemma {:induction false} RunKeepsInv(run: seq<Event>, now: Time)
    requires Ordered(run) && (forall i :: 0 <= i < |run| ==> run[i].now <= now)
    ensures Inv(Run(run), now)
  {
    if run == [] {
      StartHoldsInv(now);
    } else {
      var front, e := run[..|run| - 1], run[|run| - 1];
      RunKeepsInv(front, e.now);
      match e.op {
        case Issue(phone, secret) => IssueKeepsInv(Run(front), phone, secret, e.now, e.now);
        case Discard(phone) => DiscardKeepsInv(Run(front), phone, e.now, e.now);
        case Consume(phone, secret) => ConsumeKeepsInv(Run(front), phone, secret, e.now, e.now);
        case Purge => PurgeKeepsInv(Run(front), e.now, e.now);
        case Erase(phone) => EraseKeepsInv(Run(front), phone, e.now, e.now);
      }
      LaterKeepsInv(Run(run), e.now, now);
    }
  }

  lemma StartHoldsInv(now: Time)
    ensures Inv(START, now)
  {
    forall p: string ensures WithinBudget(Undiscarded(START.minted, START.discarded, p), CODE_WINDOW, CODE_RATE) {
    }
  }

  /** At most one code is open for a number, and it is the one minted last for that number. */
  lemma OneOpenCodeAndItIsNewest(run: seq<Event>, i: nat, j: nat)
    requires Ordered(run) && i < |Run(run).rows| && j < |Run(run).rows|
    requires Run(run).rows[i].consumed.None? && Run(run).rows[j].consumed.None?
    requires Run(run).rows[i].phone == Run(run).rows[j].phone
    ensures i == j
    ensures Latest(Run(run).minted, Run(run).rows[i].phone) == Some(Run(run).rows[i].id)
  {
    var w := Run(run);
    RunKeepsInv(run, if run == [] then 0 else run[|run| - 1].now);
    assert OpenRow(w, w.rows[i]) && OpenRow(w, w.rows[j]);
  }

  /** The attempts-exhausted answer is unreachable: the fifth wrong attempt has already spent
      the code. */
  lemma ExhaustedIsUnreachable(run: seq<Event>, phone: string, secret: string, now: Time)
    requires Ordered(run) && Newest(Run(run).rows, phone).Some?
    ensures Judge(Run(run).rows[Newest(Run(run).rows, phone).value], secret, now).verdict != Exhausted
  {
    var w := Run(run);
    RunKeepsInv(run, if run == [] then 0 else run[|run| - 1].now);
    assert OpenRow(w, w.rows[Newest(w.rows, phone).value]);
  }

  /** Every sign-in used a code that was the newest minted for its number at that moment, had
      not expired, and was never used before or since. */
  lemma EverySignInIsSound(run: seq<Event>)
    requires Ordered(run)
    ensures EntriesSound(Run(run))
  {
    RunKeepsInv(run, if run == [] then 0 else run[|run| - 1].now);
  }

  /** No fifteen minutes, wherever they fall, hold more than three codes for one number that were
      neither discarded nor erased, however purges are interleaved. */
  lemma CodeBudgetHolds(run: seq<Event>, phone: string)
    requires Ordered(run)
    ensures WithinBudget(Undiscarded(Run(run).minted, Run(run).discarded, phone), CODE_WINDOW, CODE_RATE)
  {
    RunKeepsInv(run, if run == [] then 0 else run[|run| - 1].now);
  }

  /** So an erasure gives the number its whole budget back: the next code is issued at once. */
  lemma ErasureStartsAfresh(run: seq<Event>, phone: string, secret: string, now: Time)
    requires Ordered(run) && (forall i :: 0 <= i < |run| ==> run[i].now <= now)
    ensures var w := Step(Run(run), Event(Erase(phone), now));
            && Undiscarded(w.minted, w.discarded, phone) == []
            && Step(w, Event(Issue(phone, secret), now)).minted == w.minted + [Minted(w.nextId, phone, now)]
  {
    RunKeepsInv(run, now);
    EraseOneNumber(Run(run), phone, now, now, phone);
  }

  /** A purge deletes only rows minted more than twenty-five minutes before it, so it never
      changes what the budget counts, then or later. */
  lemma PurgeNeverChangesTheBudget(run: seq<Event>, purge: Time, phone: string, later: Time)
    requires Ordered(run) && (forall i :: 0 <= i < |run| ==> run[i].now <= purge) && purge <= later
    ensures var rows := Run(run).rows;
            var left := DropExpired(rows, purge - CODE_WINDOW);
            && Recent(left, phone, later - CODE_WINDOW) == Recent(rows, phone, later - CODE_WINDOW)
            && Tail(Times(left, phone), Times(rows, phone), purge - 25 * MINUTE)
  {
    RunKeepsInv(run, purge);
    PurgeIsInvisible(Run(run).rows, Run(run).nextId, purge, phone, later);
  }

  lemma PurgeIsInvisible(rows: seq<Code>, nextId: int, purge: Time, phone: string, later: Time)
    requires RowsInOrder(rows, nextId, purge) && purge <= later
    ensures Recent(DropExpired(rows, purge - CODE_WINDOW), phone, later - CODE_WINDOW)
         == Recent(rows, phone, later - CODE_WINDOW)
    ensures Tail(Times(DropExpired(rows, purge - CODE_WINDOW), phone), Times(rows, phone), purge - 25 * MINUTE)
  {
    var before, after := Times(rows, phone), Times(DropExpired(rows, purge - CODE_WINDOW), phone);
    PurgeDropsAFront(rows, purge - CODE_WINDOW, nextId, purge, phone);
    TimesNoneAfter(rows, phone, nextId, purge);
    TailCounts(after, before, purge - 25 * MINUTE, purge, later);
    LiveCount(before, CODE_WINDOW, later);
  }

  lemma {:induction false} TimesNoneAfter(rows: seq<Code>, p: string, nextId: int, now: Time)
    requires RowsInOrder(rows, nextId, now)
    ensures NoneAfter(Times(rows, p), now)
  {
    if rows != [] {
      TimesNoneAfter(rows[..|rows| - 1], p, nextId, now);
    }
  }

  lemma {:induction false} NoneOpenAfterSupersede(rows: seq<Code>, phone: string, now: Time)
    ensures Newest(Supersede(rows, phone, now), phone).None?
  {
    if rows != [] {
      var front := rows[..|rows| - 1];
      NoneOpenAfterSupersede(front, phone, now);
      assert Supersede(rows, phone, now)[..|rows| - 1] == Supersede(front, phone, now);
    }
  }

  /** A fresh code works until it expires, and exactly once. */
  lemma FreshCodeWorksOnce(w: World, phone: string, secret: string, at: Time, now: Time, again: Time)
    requires at <= now <= at + CODE_TTL
    requires Recent(w.rows, phone, at - CODE_WINDOW) < CODE_RATE
    ensures var issued := Step(w, Event(Issue(phone, secret), at));
            var used := Step(issued, Event(Consume(phone, secret), now));
            && used.entries == w.entries + [Entry(w.nextId, phone, now, |w.minted| + 1)]
            && Newest(used.rows, phone).None?
            && Step(used, Event(Consume(phone, secret), again)) == used
  {
    var spent := Supersede(w.rows, phone, at);
    NoneOpenAfterSupersede(w.rows, phone, at);
    var code := NewCode(w.nextId, phone, secret, at);
    var rows := spent + [code];
    assert rows[..|spent|] == spent;
    assert Newest(rows, phone) == Some(|spent|);
    var burnt := rows[|spent| := Judge(code, secret, now).code];
    assert burnt[..|spent|] == spent;
  }

  // ----- what is deleted -------------------------------------------------------------------------

  lemma {:induction false} LeftExactly(rows: seq<Code>, phone: string, cutoff: Time, c: Code)
    ensures c in DropOpen(rows, phone) <==> c in rows && !(c.phone == phone && c.consumed.None?)
    ensures c in DropExpired(rows, cutoff) <==> c in rows && c.expires >= cutoff
    ensures c in DropNumber(rows, phone) <==> c in rows && c.phone != phone
  {
    if rows != [] {
      LeftExactly(rows[..|rows| - 1], phone, cutoff, c);
      assert rows == rows[..|rows| - 1] + [rows[|rows| - 1]];
    }
  }

  /** Discarding deletes the codes of a number that nobody has used, erasing all it ever had, and a
      sweep those that expired more than a quarter of an hour ago; no other code is touched. */
  lemma DeletionsTakeTheirOwnAlone(w: World, phone: string, now: Time, c: Code)
    ensures c in Step(w, Event(Discard(phone), now)).rows <==> c in w.rows && !(c.phone == phone && c.consumed.None?)
    ensures c in Step(w, Event(Erase(phone), now)).rows <==> c in w.rows && c.phone != phone
    ensures c in Step(w, Event(Purge, now)).rows <==> c in w.rows && c.expires >= now - 15 * MINUTE
  {
    LeftExactly(w.rows, phone, now - CODE_WINDOW, c);
  }
}
