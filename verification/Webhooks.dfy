/** Webhook idempotency under retries: any number of deliveries of the same event race through
    lookup, insert-if-absent and re-read, and the side effects they guard run at most once for as
    long as the key is remembered. */
module Webhooks {
  import opened Options

  /** The unique key of webhook_events. */
  datatype Slot = Slot(endpoint: string, key: string)

  type Table = map<Slot, string>

  function Found(table: Table, slot: Slot): Option<string> {
    if slot in table then Some(table[slot]) else None
  }

  /** Insert-or-ignore. */
  function Inserted(table: Table, slot: Slot, response: string): Table {
    if slot in table then table else table[slot := response]
  }

  /** An update touches only a row that is there. */
  function Stored(table: Table, slot: Slot, response: string): Table {
    if slot in table then table[slot := response] else table
  }

  class WebhookTable {
    var responses: Table

    constructor ()
      ensures responses == map[]
    {
      responses := map[];
    }

    method Lookup(slot: Slot) returns (found: Option<string>)
      ensures found == Found(responses, slot)
    {
      if slot in responses {
        return Some(responses[slot]);
      }
      return None;
    }

    /** Reports whether a row was written. */
    method InsertIgnore(slot: Slot, response: string) returns (inserted: bool)
      modifies this
      ensures inserted == Found(old(responses), slot).None?
      ensures responses == Inserted(old(responses), slot, response)
    {
      if slot in responses {
        return false;
      }
      responses := responses[slot := response];
      return true;
    }

    method StoreWebhookResponse(slot: Slot, response: string)
      modifies this
      ensures responses == Stored(old(responses), slot, response)
    {
      if slot in responses {
        responses := responses[slot := response];
      }
    }

    /** The three statements run without interference; `Step` below interleaves them. */
    method RememberWebhook(slot: Slot, response: string) returns (first: bool, cached: string)
      modifies this
      ensures first == Found(old(responses), slot).None?
      ensures cached == Found(old(responses), slot).GetOr("")
      ensures responses == Inserted(old(responses), slot, response)
    {
      var found := Lookup(slot);
      if found.Some? {
        return false, found.value;
      }
      var inserted := InsertIgnore(slot, response);
      if !inserted {
        found := Lookup(slot);
        return false, found.GetOr("");
      }
      return true, "";
    }

    /** Erasing a profile removes the rows kept for it, each like this. */
    method Forget(slot: Slot)
      modifies this
      ensures responses == old(responses) - {slot}
    {
      responses := responses - {slot};
    }
  }

  // ----- deliveries, interleaved -------------------------------------------------------------

  /** Where one delivery has got to. */
  datatype Pc =
    | Arrived
    | Inserting                        // looked, found no row
    | Rereading                        // lost the insert race
    | Working                          // told it is the first
    | Responding(reply: string)        // side effects done, reply not yet stored
    | Done(stored: Option<string>)     // a first delivery, finished
    | Replayed(cached: string)         // told it is a repeat
  {
    predicate ToldFirst() { Working? || Responding? || Done? }
  }

  datatype Delivery = Delivery(slot: Slot, pc: Pc)

  /** What happened to a key: a delivery was told it is the first, or the key was forgotten. */
  datatype Mark = Told(slot: Slot, d: nat) | Forgot(slot: Slot)

  /** The table, every delivery by number, whose side effects ran, and what happened to the keys. */
  datatype State = State(table: Table, deliveries: map<nat, Delivery>, effects: seq<nat>, log: seq<Mark>)

  const START := State(map[], map[], [], [])

  datatype Action =
    | Arrive(d: nat, slot: Slot)
    | Look(d: nat)
    | Insert(d: nat)
    | Reread(d: nat)
    | Work(d: nat, reply: Option<string>)   // None: the handler failed and stores no reply
    | Store(d: nat)
    | Forget(slot: Slot)

  /** One atomic step of one delivery, or of an erasure; a step that delivery is not at does
      nothing. */
  function Step(s: State, a: Action): State {
    if a.Arrive? then
      if a.d in s.deliveries then s else s.(deliveries := s.deliveries[a.d := Delivery(a.slot, Arrived)])
    else if a.Forget? then
      if a.slot in s.table then s.(table := s.table - {a.slot}, log := s.log + [Forgot(a.slot)]) else s
    else if a.d !in s.deliveries then s
    else
      var slot, pc := s.deliveries[a.d].slot, s.deliveries[a.d].pc;
      match (a, pc)
      case (Look(d), Arrived) =>
        Move(s, d, match Found(s.table, slot) case Some(cached) => Replayed(cached) case None => Inserting)
      case (Insert(d), Inserting) =>
        if Found(s.table, slot).Some? then Move(s, d, Rereading)
        else Move(s.(table := Inserted(s.table, slot, ""), log := s.log + [Told(slot, d)]), d, Working)
      case (Reread(d), Rereading) =>
        Move(s, d, Replayed(Found(s.table, slot).GetOr("")))
      case (Work(d, reply), Working) =>
        Move(s.(effects := s.effects + [d]), d, if reply.Some? then Responding(reply.value) else Done(None))
      case (Store(d), Responding(reply)) =>
        Move(s.(table := Stored(s.table, slot, reply)), d, Done(Some(reply)))
      case _ => s
  }

  function Move(s: State, d: nat, pc: Pc): State
    requires d in s.deliveries
  {
    s.(deliveries := s.deliveries[d := s.deliveries[d].(pc := pc)])
  }

  function Run(run: seq<Action>): State {
    if run == [] then START else Step(Run(run[..|run| - 1]), run[|run| - 1])
  }

  // ----- what the log says -----------------------------------------------------------------------

  /** Whether a key is remembered, read off the log alone. */
  predicate Taken(log: seq<Mark>, slot: Slot) {
    log != [] && var m := log[|log| - 1];
    if m.slot == slot then m.Told? else Taken(log[..|log| - 1], slot)
  }

  /** The key is forgotten somewhere strictly between. */
  predicate ForgottenBetween(log: seq<Mark>, slot: Slot, i: int, j: int) {
    exists k :: i < k < j && 0 <= k < |log| && log[k] == Forgot(slot)
  }

  predicate Same(log: seq<Mark>, i: int, j: int) {
    0 <= i < |log| && 0 <= j < |log| && log[i].Told? && log[j].Told? && log[i].slot == log[j].slot
  }

  /** Nobody is told it is the first while the key is remembered. */
  ghost predicate FirstsAreApart(log: seq<Mark>) {
    forall i, j :: i < j && Same(log, i, j) ==> ForgottenBetween(log, log[i].slot, i, j)
  }

  lemma {:induction false} NotTakenWasForgotten(log: seq<Mark>, slot: Slot, i: int)
    requires 0 <= i < |log| && log[i].Told? && log[i].slot == slot && !Taken(log, slot)
    ensures ForgottenBetween(log, slot, i, |log|)
  {
    var n := |log| - 1;
    if log[n].slot == slot {
      assert log[n] == Forgot(slot);
    } else {
      NotTakenWasForgotten(log[..n], slot, i);
      var k :| i < k < n && log[..n][k] == Forgot(slot);
      assert log[k] == Forgot(slot);
    }
  }

  lemma MarkKeepsApart(log: seq<Mark>, m: Mark)
    requires FirstsAreApart(log) && (m.Told? ==> !Taken(log, m.slot))
    ensures FirstsAreApart(log + [m])
  {
    var longer := log + [m];
    forall i, j | i < j && Same(longer, i, j) ensures ForgottenBetween(longer, longer[i].slot, i, j) {
      if j < |log| {
        assert Same(log, i, j);
      } else {
        NotTakenWasForgotten(log, m.slot, i);
      }
      var k :| i < k < j && k < |log| && log[k] == Forgot(longer[i].slot);
      assert longer[k] == log[k];
    }
  }

  // ----- the invariant -----------------------------------------------------------------------

  /** The table remembers exactly the keys the log says are taken. */
  ghost predicate TableIsTaken(s: State) {
    forall slot :: slot in s.table <==> Taken(s.log, slot)
  }

  /** The log names each delivery that was told it is the first, once, under its own key. */
  predicate LogNamesFirsts(s: State) {
    && (forall i :: 0 <= i < |s.log| && s.log[i].Told? ==>
          s.log[i].d in s.deliveries && s.deliveries[s.log[i].d].slot == s.log[i].slot
          && s.deliveries[s.log[i].d].pc.ToldFirst())
    && (forall i, j :: 0 <= i < j < |s.log| && s.log[i].Told? && s.log[j].Told? ==> s.log[i].d != s.log[j].d)
  }

  ghost predicate FirstsAreLogged(s: State) {
    forall d :: d in s.deliveries && s.deliveries[d].pc.ToldFirst() ==> Told(s.deliveries[d].slot, d) in s.log
  }

  /** The reply a first delivery for this slot has stored is what `text` says. */
  ghost predicate StoredBy(s: State, slot: Slot, text: string) {
    exists d :: d in s.deliveries && s.deliveries[d].slot == slot && s.deliveries[d].pc == Done(Some(text))
  }

  /** Whatever a row or a repeat holds is empty or was stored by a first. */
  ghost predicate TextIsFirsts(s: State) {
    && (forall slot :: slot in s.table ==> s.table[slot] == "" || StoredBy(s, slot, s.table[slot]))
    && (forall d :: d in s.deliveries && s.deliveries[d].pc.Replayed? && s.deliveries[d].pc.cached != "" ==>
          StoredBy(s, s.deliveries[d].slot, s.deliveries[d].pc.cached))
  }

  predicate EffectsByFirsts(s: State) {
    && (forall i :: 0 <= i < |s.effects| ==>
          s.effects[i] in s.deliveries && (s.deliveries[s.effects[i]].pc.Responding? || s.deliveries[s.effects[i]].pc.Done?))
    && (forall i, j :: 0 <= i < j < |s.effects| ==> s.effects[i] != s.effects[j])
  }

  ghost predicate Inv(s: State) {
    && TableIsTaken(s) && LogNamesFirsts(s) && FirstsAreLogged(s) && FirstsAreApart(s.log)
    && TextIsFirsts(s) && EffectsByFirsts(s)
  }

  lemma TakenSnoc(log: seq<Mark>, m: Mark, slot: Slot)
    ensures Taken(log + [m], slot) <==> if m.slot == slot then m.Told? else Taken(log, slot)
  {
    assert (log + [m])[..|log|] == log;
  }

  lemma StepKeepsTaken(s: State, a: Action)
    requires TableIsTaken(s) && FirstsAreApart(s.log)
    ensures TableIsTaken(Step(s, a)) && FirstsAreApart(Step(s, a).log)
  {
    var s' := Step(s, a);
    if s'.log != s.log {
      var m := s'.log[|s.log|];
      assert s'.log == s.log + [m];
      forall slot ensures slot in s'.table <==> Taken(s'.log, slot) {
        TakenSnoc(s.log, m, slot);
      }
      MarkKeepsApart(s.log, m);
    }
  }

  lemma FirstStaysFirst(s: State, a: Action, d: nat)
    requires d in s.deliveries
    ensures d in Step(s, a).deliveries && Step(s, a).deliveries[d].slot == s.deliveries[d].slot
    ensures s.deliveries[d].pc.ToldFirst() ==> Step(s, a).deliveries[d].pc.ToldFirst()
  {
  }

  /** A step adds at most one mark, and tells only somebody who was not told before. */
  lemma NewMark(s: State, a: Action)
    ensures var s' := Step(s, a);
      s'.log != s.log ==>
        && |s'.log| == |s.log| + 1 && s'.log[..|s.log|] == s.log
        && var m := s'.log[|s.log|];
           m.Told? ==>
             && m.d in s.deliveries && !s.deliveries[m.d].pc.ToldFirst()
             && s'.deliveries[m.d] == Delivery(m.slot, Working)
  {
  }

  /** Whoever is newly told leaves a mark. */
  lemma NewFirstIsLogged(s: State, a: Action, d: nat)
    requires d in Step(s, a).deliveries && Step(s, a).deliveries[d].pc.ToldFirst()
    requires !(d in s.deliveries && s.deliveries[d].pc.ToldFirst())
    ensures Step(s, a).log == s.log + [Told(Step(s, a).deliveries[d].slot, d)]
  {
  }

  lemma StepKeepsNames(s: State, a: Action)
    requires LogNamesFirsts(s)
    ensures LogNamesFirsts(Step(s, a))
  {
    var s' := Step(s, a);
    NewMark(s, a);
    forall i | 0 <= i < |s'.log| && s'.log[i].Told?
      ensures s'.log[i].d in s'.deliveries && s'.deliveries[s'.log[i].d].slot == s'.log[i].slot
              && s'.deliveries[s'.log[i].d].pc.ToldFirst()
    {
      if i < |s.log| {
        assert s'.log[i] == s.log[i];
        FirstStaysFirst(s, a, s.log[i].d);
      }
    }
    assert forall i :: 0 <= i < |s.log| ==> s'.log[i] == s.log[i];
  }

  lemma StepKeepsLogged(s: State, a: Action)
    requires FirstsAreLogged(s)
    ensures FirstsAreLogged(Step(s, a))
  {
    var s' := Step(s, a);
    NewMark(s, a);
    forall d | d in s'.deliveries && s'.deliveries[d].pc.ToldFirst() ensures Told(s'.deliveries[d].slot, d) in s'.log {
      if d in s.deliveries && s.deliveries[d].pc.ToldFirst() {
        FirstStaysFirst(s, a, d);
        var i :| 0 <= i < |s.log| && s.log[i] == Told(s.deliveries[d].slot, d);
        assert s'.log[i] == s.log[i];
      } else {
        NewFirstIsLogged(s, a, d);
      }
    }
  }

  lemma StoredStays(s: State, a: Action, slot: Slot, text: string)
    requires StoredBy(s, slot, text)
    ensures StoredBy(Step(s, a), slot, text)
  {
    var d :| d in s.deliveries && s.deliveries[d].slot == slot && s.deliveries[d].pc == Done(Some(text));
    assert Step(s, a).deliveries[d] == s.deliveries[d];
  }

  lemma StepKeepsText(s: State, a: Action)
    requires TextIsFirsts(s)
    ensures TextIsFirsts(Step(s, a))
  {
    var s' := Step(s, a);
    forall slot, text | StoredBy(s, slot, text) ensures StoredBy(s', slot, text) {
      StoredStays(s, a, slot, text);
    }
    if a.Store? && a.d in s.deliveries && s.deliveries[a.d].pc.Responding? {
      assert s'.deliveries[a.d].pc == Done(Some(s.deliveries[a.d].pc.reply));
      assert StoredBy(s', s.deliveries[a.d].slot, s.deliveries[a.d].pc.reply);
    }
  }

  lemma StepKeepsEffects(s: State, a: Action)
    requires EffectsByFirsts(s)
    ensures EffectsByFirsts(Step(s, a))
  {
  }

  lemma {:induction false} RunKeepsInv(run: seq<Action>)
    ensures Inv(Run(run))
  {
    if run != [] {
      var s, a := Run(run[..|run| - 1]), run[|run| - 1];
      RunKeepsInv(run[..|run| - 1]);
      StepKeepsTaken(s, a);
      StepKeepsNames(s, a);
      StepKeepsLogged(s, a);
      StepKeepsText(s, a);
      StepKeepsEffects(s, a);
    }
  }

  // ----- what every interleaving keeps -----------------------------------------------------------

  /** Where in the log a delivery was told it is the first. */
  predicate ToldAt(s: State, d: nat, i: int) {
    0 <= i < |s.log| && s.log[i].Told? && s.log[i].d == d
  }

  /** Deliveries `c` and `d` were told so with the key forgotten in between. */
  predicate ToldApart(s: State, slot: Slot, c: nat, i: int, d: nat, j: int) {
    && ToldAt(s, c, i) && ToldAt(s, d, j)
    && (ForgottenBetween(s.log, slot, i, j) || ForgottenBetween(s.log, slot, j, i))
  }

  /** However many deliveries race, two for one key are both told they are the first only if the
      key was forgotten in between; without an erasure at most one is. */
  lemma AtMostOneFirst(run: seq<Action>, c: nat, d: nat)
    requires c in Run(run).deliveries && d in Run(run).deliveries && c != d
    requires Run(run).deliveries[c].slot == Run(run).deliveries[d].slot
    requires Run(run).deliveries[c].pc.ToldFirst() && Run(run).deliveries[d].pc.ToldFirst()
    ensures exists i, j :: ToldApart(Run(run), Run(run).deliveries[c].slot, c, i, d, j)
  {
    RunKeepsInv(run);
    var s := Run(run);
    var i :| 0 <= i < |s.log| && s.log[i] == Told(s.deliveries[c].slot, c);
    var j :| 0 <= j < |s.log| && s.log[j] == Told(s.deliveries[d].slot, d);
    assert if i < j then Same(s.log, i, j) else Same(s.log, j, i);
    assert ToldApart(s, s.deliveries[c].slot, c, i, d, j);
  }

  predicate NeverForgotten(log: seq<Mark>, slot: Slot) {
    forall k :: 0 <= k < |log| ==> log[k] != Forgot(slot)
  }

  /** No delivery runs its side effects twice, and for a key that was never forgotten they run at
      most once, whoever delivers it. */
  lemma SideEffectsRunAtMostOnce(run: seq<Action>, i: nat, j: nat)
    requires i < j < |Run(run).effects|
    ensures Run(run).effects[i] in Run(run).deliveries && Run(run).effects[j] in Run(run).deliveries
    ensures Run(run).effects[i] != Run(run).effects[j]
    ensures NeverForgotten(Run(run).log, Run(run).deliveries[Run(run).effects[i]].slot) ==>
              Run(run).deliveries[Run(run).effects[i]].slot != Run(run).deliveries[Run(run).effects[j]].slot
  {
    RunKeepsInv(run);
    var s := Run(run);
    if s.deliveries[s.effects[i]].slot == s.deliveries[s.effects[j]].slot {
      AtMostOneFirst(run, s.effects[i], s.effects[j]);
    }
  }

  /** A repeat is told nothing, or exactly what a first delivery of its key stored. */
  lemma RepeatsSayWhatTheFirstSaid(run: seq<Action>, d: nat)
    requires d in Run(run).deliveries && Run(run).deliveries[d].pc.Replayed?
    ensures Run(run).deliveries[d].pc.cached == ""
         || StoredBy(Run(run), Run(run).deliveries[d].slot, Run(run).deliveries[d].pc.cached)
  {
    RunKeepsInv(run);
  }

  /** A first delivery whose handler fails leaves the key taken and no reply behind: for as long as
      the key is not forgotten, no other delivery of it is told it is the first, nor told anything
      at all. */
  lemma {:induction false} FailedFirstIsNeverRetried(before: seq<Action>, after: seq<Action>, f: nat, d: nat)
    requires f in Run(before).deliveries && Run(before).deliveries[f].pc == Done(None)
    requires d in Run(before + after).deliveries && d != f
    requires Run(before + after).deliveries[d].slot == Run(before).deliveries[f].slot
    requires NeverForgotten(Run(before + after).log, Run(before).deliveries[f].slot)
    ensures !Run(before + after).deliveries[d].pc.ToldFirst()
    ensures Run(before + after).deliveries[d].pc.Replayed? ==> Run(before + after).deliveries[d].pc.cached == ""
  {
    var s := Run(before + after);
    FinishedStays(before, after, f);
    RunKeepsInv(before + after);
    if s.deliveries[d].pc.ToldFirst() {
      AtMostOneFirst(before + after, d, f);
    } else if s.deliveries[d].pc.Replayed? && s.deliveries[d].pc.cached != "" {
      var e :| e in s.deliveries && s.deliveries[e].slot == s.deliveries[d].slot
               && s.deliveries[e].pc == Done(Some(s.deliveries[d].pc.cached));
      AtMostOneFirst(before + after, e, f);
    }
  }

  lemma {:induction false} FinishedStays(before: seq<Action>, after: seq<Action>, f: nat)
    requires f in Run(before).deliveries && Run(before).deliveries[f].pc.Done?
    ensures f in Run(before + after).deliveries && Run(before + after).deliveries[f] == Run(before).deliveries[f]
  {
    if after == [] {
      assert before + after == before;
    } else {
      var n := |after| - 1;
      assert (before + after)[..|before + after| - 1] == before + after[..n];
      FinishedStays(before, after[..n], f);
    }
  }

  /** An undisturbed delivery does what the three statements do together. */
  lemma AloneIsRemember(s: State, d: nat)
    requires d in s.deliveries && s.deliveries[d].pc == Arrived
    ensures var slot := s.deliveries[d].slot;
      var s' := Step(Step(s, Look(d)), Insert(d));
      && s'.table == Inserted(s.table, slot, "")
      && s'.deliveries[d].pc == match Found(s.table, slot) case Some(cached) => Replayed(cached) case None => Working
  {
  }

  // ----- when a delivery runs --------------------------------------------------------------------

  lemma RunSnoc(run: seq<Action>, a: Action)
    ensures Run(run + [a]) == Step(Run(run), a)
  {
    assert (run + [a])[..|run|] == run;
  }

  /** Key forgotten, and nothing marked for it since. */
  predicate LastForgotten(log: seq<Mark>, slot: Slot, k: int) {
    0 <= k < |log| && log[k] == Forgot(slot) && forall j :: k < j < |log| ==> log[j].slot != slot
  }

  /** A key that was ever taken is free exactly when its last mark forgets it. */
  lemma {:induction false} FreeExactlyWhenForgotten(log: seq<Mark>, slot: Slot, i: int)
    requires 0 <= i < |log| && log[i].Told? && log[i].slot == slot
    ensures !Taken(log, slot) <==> exists k :: LastForgotten(log, slot, k)
  {
    var n := |log| - 1;
    if log[n].slot == slot {
      if log[n] == Forgot(slot) {
        assert LastForgotten(log, slot, n);
      }
    } else {
      FreeExactlyWhenForgotten(log[..n], slot, i);
      forall k ensures LastForgotten(log, slot, k) <==> LastForgotten(log[..n], slot, k) {
        if LastForgotten(log[..n], slot, k) {
          assert forall j :: k < j < n ==> log[..n][j] == log[j];
        }
      }
    }
  }

  /** Over every run and interleaving: a delivery that looks is told it is a repeat exactly when the
      key is taken at that moment, and one that inserts is told it is the first exactly when the key
      is free at that moment. */
  lemma ToldFirstExactlyWhen(run: seq<Action>, d: nat)
    requires d in Run(run).deliveries
    ensures var s := Run(run);
      var slot, pc := s.deliveries[d].slot, s.deliveries[d].pc;
      && (pc.Arrived? ==> (Run(run + [Look(d)]).deliveries[d].pc.Replayed? <==> Taken(s.log, slot)))
      && (pc.Inserting? ==> (Run(run + [Insert(d)]).deliveries[d].pc.Working? <==> !Taken(s.log, slot)))
  {
    RunKeepsInv(run);
    RunSnoc(run, Look(d));
    RunSnoc(run, Insert(d));
  }

  /** After a first delivery whose handler failed, a retry that is not interfered with runs exactly
      when the key has been forgotten since it was last taken; otherwise it is told it is a repeat,
      and nothing runs. */
  lemma RetryRunsExactlyWhen(run: seq<Action>, f: nat, d: nat)
    requires f in Run(run).deliveries && Run(run).deliveries[f].pc == Done(None)
    requires d in Run(run).deliveries && Run(run).deliveries[d] == Delivery(Run(run).deliveries[f].slot, Arrived)
    ensures var s := Run(run);
      var s' := Run(run + [Look(d)] + [Insert(d)]);
      && d in s'.deliveries
      && (s'.deliveries[d].pc.Working? <==> exists k :: LastForgotten(s.log, s.deliveries[f].slot, k))
      && (!s'.deliveries[d].pc.Working? ==> s'.deliveries[d].pc.Replayed? && s'.log == s.log)
  {
    var s := Run(run);
    RunKeepsInv(run);
    var i :| 0 <= i < |s.log| && s.log[i] == Told(s.deliveries[f].slot, f);
    FreeExactlyWhenForgotten(s.log, s.deliveries[f].slot, i);
    AloneIsRemember(s, d);
    RunSnoc(run, Look(d));
    RunSnoc(run + [Look(d)], Insert(d));
  }

  /** One delivery, as far as being told. */
  function Telling(d: nat, slot: Slot): seq<Action> {
    [Arrive(d, slot)] + [Look(d)] + [Insert(d)]
  }

  /** Delivery `d` of this key has been told, and nothing else has changed. */
  ghost predicate HasBeenTold(s: State, s': State, d: nat, slot: Slot) {
    && d in s'.deliveries && s'.deliveries[d].slot == slot
    && s'.deliveries[d].pc == (match Found(s.table, slot) case Some(cached) => Replayed(cached) case None => Working)
    && s'.table == Inserted(s.table, slot, "") && s'.effects == s.effects
    && (forall e :: e in s.deliveries ==> e in s'.deliveries && s'.deliveries[e] == s.deliveries[e])
    && (forall e :: e in s'.deliveries ==> e in s.deliveries || e == d)
  }

  lemma TellingSteps(s: State, d: nat, slot: Slot)
    requires d !in s.deliveries
    ensures HasBeenTold(s, Step(Step(Step(s, Arrive(d, slot)), Look(d)), Insert(d)), d, slot)
  {
    AloneIsRemember(Step(s, Arrive(d, slot)), d);
  }

  lemma TellingRuns(run: seq<Action>, d: nat, slot: Slot)
    requires d !in Run(run).deliveries
    ensures HasBeenTold(Run(run), Run(run + Telling(d, slot)), d, slot)
  {
    RunSnoc(run, Arrive(d, slot));
    RunSnoc(run + [Arrive(d, slot)], Look(d));
    RunSnoc(run + [Arrive(d, slot)] + [Look(d)], Insert(d));
    assert run + Telling(d, slot) == run + [Arrive(d, slot)] + [Look(d)] + [Insert(d)];
    TellingSteps(Run(run), d, slot);
  }

  lemma FirstFails(slot: Slot)
    ensures var s := Run(Telling(0, slot) + [Work(0, None)]);
      && s.deliveries == map[0 := Delivery(slot, Done(None))] && Found(s.table, slot) == Some("") && s.effects == [0]
  {
    assert [] + Telling(0, slot) == Telling(0, slot);
    TellingRuns([], 0, slot);
    RunSnoc(Telling(0, slot), Work(0, None));
  }

  /** It happens to any key from the very start: the handler of the first delivery fails, the retry
      is told the key was handled and nothing runs; only once the key is forgotten does one run. */
  lemma FailureSilencesTheRetry(slot: Slot)
    ensures var failed := Telling(0, slot) + [Work(0, None)];
      var s := Run(failed + Telling(1, slot));
      var t := Run(failed + Telling(1, slot) + [Forget(slot)] + Telling(2, slot));
      && 0 in s.deliveries && s.deliveries[0] == Delivery(slot, Done(None))
      && 1 in s.deliveries && s.deliveries[1] == Delivery(slot, Replayed("")) && s.effects == [0]
      && 2 in t.deliveries && t.deliveries[2] == Delivery(slot, Working)
  {
    var failed := Telling(0, slot) + [Work(0, None)];
    FirstFails(slot);
    TellingRuns(failed, 1, slot);
    RunSnoc(failed + Telling(1, slot), Forget(slot));
    TellingRuns(failed + Telling(1, slot) + [Forget(slot)], 2, slot);
  }

  // ----- what a repeat is told -------------------------------------------------------------------

  /** What there is to replay for a key: nothing until a delivery is told it is the first, then the
      empty reply, then whatever was stored last; nothing again once it is forgotten. */
  function Recall(known: Option<string>, s: State, a: Action, slot: Slot): Option<string> {
    match a
    case Forget(forgotten) => if forgotten == slot then None else known
    case Insert(d) => if known.None? && d in s.deliveries && s.deliveries[d] == Delivery(slot, Inserting) then Some("") else known
    case Store(d) =>
      if known.Some? && d in s.deliveries && s.deliveries[d].slot == slot && s.deliveries[d].pc.Responding?
      then Some(s.deliveries[d].pc.reply) else known
    case _ => known
  }

  /** The same, read off a run. */
  function Remembered(run: seq<Action>, slot: Slot): Option<string> {
    if run == [] then None
    else Recall(Remembered(run[..|run| - 1], slot), Run(run[..|run| - 1]), run[|run| - 1], slot)
  }

  lemma RememberedSnoc(run: seq<Action>, a: Action, slot: Slot)
    ensures Remembered(run + [a], slot) == Recall(Remembered(run, slot), Run(run), a, slot)
  {
    assert (run + [a])[..|run|] == run;
  }

  lemma {:induction false} TableIsRemembered(run: seq<Action>, slot: Slot)
    ensures Found(Run(run).table, slot) == Remembered(run, slot)
  {
    if run != [] {
      TableIsRemembered(run[..|run| - 1], slot);
    }
  }

  /** Over every run and interleaving, a delivery that looks is told exactly what was stored last for
      its key since it was last taken, and one that lost the race and looks again likewise. */
  lemma RepeatIsToldWhatIsRemembered(run: seq<Action>, d: nat)
    requires d in Run(run).deliveries
    ensures var slot, pc := Run(run).deliveries[d].slot, Run(run).deliveries[d].pc;
      var known := Remembered(run, slot);
      && (pc.Arrived? ==> Run(run + [Look(d)]).deliveries[d].pc
                          == if known.Some? then Replayed(known.value) else Inserting)
      && (pc.Rereading? ==> Run(run + [Reread(d)]).deliveries[d].pc == Replayed(known.GetOr("")))
  {
    TableIsRemembered(run, Run(run).deliveries[d].slot);
    RunSnoc(run, Look(d));
    RunSnoc(run, Reread(d));
  }

  /** In these steps the key is not forgotten and no delivery but `f` stores a reply for it. */
  predicate OnlyStores(before: seq<Action>, more: seq<Action>, f: nat, slot: Slot) {
    more != [] ==>
      var front := more[..|more| - 1];
      OnlyStores(before, front, f, slot) && NotAnothers(Run(before + front), more[|more| - 1], f, slot)
  }

  predicate NotAnothers(s: State, a: Action, f: nat, slot: Slot) {
    && a != Forget(slot)
    && (a.Store? && a.d != f && a.d in s.deliveries && s.deliveries[a.d].slot == slot ==> !s.deliveries[a.d].pc.Responding?)
  }

  /** The reply a delivery told it is the first has stored so far. */
  function ReplyOf(pc: Pc): string {
    if pc.Done? && pc.stored.Some? then pc.stored.value else ""
  }

  /** Delivery `f` was told it is the first, and what there is to replay is what it has stored. */
  predicate FirstStands(s: State, known: Option<string>, f: nat, slot: Slot) {
    && f in s.deliveries && s.deliveries[f].slot == slot && s.deliveries[f].pc.ToldFirst()
    && known == Some(ReplyOf(s.deliveries[f].pc))
  }

  lemma StepLetsFirstStand(s: State, known: Option<string>, a: Action, f: nat, slot: Slot)
    requires FirstStands(s, known, f, slot) && NotAnothers(s, a, f, slot)
    ensures FirstStands(Step(s, a), Recall(known, s, a, slot), f, slot)
  {
  }

  lemma {:induction false} FirstsReplyStays(before: seq<Action>, more: seq<Action>, f: nat, slot: Slot)
    requires FirstStands(Run(before), Remembered(before, slot), f, slot)
    requires OnlyStores(before, more, f, slot)
    ensures FirstStands(Run(before + more), Remembered(before + more, slot), f, slot)
  {
    if more == [] {
      assert before + more == before;
    } else {
      var front, a := more[..|more| - 1], more[|more| - 1];
      FirstsReplyStays(before, front, f, slot);
      OneMoreStep(before + front, a, f, slot);
      assert before + more == (before + front) + [a];
    }
  }

  lemma OneMoreStep(run: seq<Action>, a: Action, f: nat, slot: Slot)
    requires FirstStands(Run(run), Remembered(run, slot), f, slot) && NotAnothers(Run(run), a, f, slot)
    ensures FirstStands(Run(run + [a]), Remembered(run + [a], slot), f, slot)
  {
    RunSnoc(run, a);
    RememberedSnoc(run, a, slot);
    StepLetsFirstStand(Run(run), Remembered(run, slot), a, f, slot);
  }

  /** A repeat replays the first's reply.  Once a delivery has been told it is the first, and as long
      as its key is not forgotten and nobody else stores for it, whoever looks is told what the first
      has stored, and nothing while it has stored nothing. */
  lemma RepeatReplaysTheFirstsReply(run: seq<Action>, f: nat, more: seq<Action>, d: nat)
    requires f in Run(run).deliveries && Run(run).deliveries[f].pc.Inserting?
    requires Remembered(run, Run(run).deliveries[f].slot).None?
    requires OnlyStores(run + [Insert(f)], more, f, Run(run).deliveries[f].slot)
    requires var s := Run(run + [Insert(f)] + more);
      d in s.deliveries && s.deliveries[d] == Delivery(Run(run).deliveries[f].slot, Arrived)
    ensures var s := Run(run + [Insert(f)] + more);
      && f in s.deliveries
      && Run(run + [Insert(f)] + more + [Look(d)]).deliveries[d].pc == Replayed(ReplyOf(s.deliveries[f].pc))
  {
    var slot := Run(run).deliveries[f].slot;
    InsertingStands(run, f);
    FirstsReplyStays(run + [Insert(f)], more, f, slot);
    RepeatIsToldWhatIsRemembered(run + [Insert(f)] + more, d);
  }

  lemma InsertingStands(run: seq<Action>, f: nat)
    requires f in Run(run).deliveries && Run(run).deliveries[f].pc.Inserting?
    requires Remembered(run, Run(run).deliveries[f].slot).None?
    ensures var slot := Run(run).deliveries[f].slot;
      FirstStands(Run(run + [Insert(f)]), Remembered(run + [Insert(f)], slot), f, slot)
  {
    TableIsRemembered(run, Run(run).deliveries[f].slot);
    RunSnoc(run, Insert(f));
    RememberedSnoc(run, Insert(f), Run(run).deliveries[f].slot);
  }

  lemma ForgottenLater(run: seq<Action>, a: Action, slot: Slot)
    requires NeverForgotten(Run(run + [a]).log, slot)
    ensures NeverForgotten(Run(run).log, slot)
    ensures Remembered(run, slot).Some? ==> a != Forget(slot)
  {
    RunSnoc(run, a);
    NewMark(Run(run), a);
    TableIsRemembered(run, slot);
    var s, s' := Run(run), Run(run + [a]);
    forall k | 0 <= k < |s.log| ensures s.log[k] != Forgot(slot) {
      assert s.log[k] == s'.log[k];
    }
  }

  lemma FirstIsAlone(run: seq<Action>, f: nat, a: Action)
    requires f in Run(run).deliveries && Run(run).deliveries[f].pc.ToldFirst()
    requires NeverForgotten(Run(run).log, Run(run).deliveries[f].slot) && a != Forget(Run(run).deliveries[f].slot)
    ensures FirstsAlone(Run(run), f) && NotAnothers(Run(run), a, f, Run(run).deliveries[f].slot)
  {
    forall e | e in Run(run).deliveries && Run(run).deliveries[e].slot == Run(run).deliveries[f].slot && e != f
      ensures !Run(run).deliveries[e].pc.ToldFirst()
    {
      if Run(run).deliveries[e].pc.ToldFirst() {
        AtMostOneFirst(run, e, f);
      }
    }
  }

  predicate FirstsAlone(s: State, f: nat) {
    f in s.deliveries && forall e :: e in s.deliveries && s.deliveries[e].slot == s.deliveries[f].slot && e != f ==>
      !s.deliveries[e].pc.ToldFirst()
  }

  /** A first whose key was never forgotten is whose reply is replayed. */
  lemma {:induction false} UnforgottenFirstStands(run: seq<Action>, f: nat)
    requires f in Run(run).deliveries && Run(run).deliveries[f].pc.ToldFirst()
    requires NeverForgotten(Run(run).log, Run(run).deliveries[f].slot)
    ensures FirstStands(Run(run), Remembered(run, Run(run).deliveries[f].slot), f, Run(run).deliveries[f].slot)
  {
    var front, a := run[..|run| - 1], run[|run| - 1];
    var slot := Run(run).deliveries[f].slot;
    assert run == front + [a];
    ForgottenLater(front, a, slot);
    if f in Run(front).deliveries && Run(front).deliveries[f].pc.ToldFirst() {
      FirstStaysFirst(Run(front), a, f);
      UnforgottenFirstStands(front, f);
      FirstIsAlone(front, f, a);
      OneMoreStep(front, a, f, slot);
    } else {
      TableIsRemembered(front, slot);
      NewFirstInserted(Run(front), a, f);
      InsertingStands(front, f);
    }
  }

  /** Whoever is newly told inserted into a free key. */
  lemma NewFirstInserted(s: State, a: Action, f: nat)
    requires f in Step(s, a).deliveries && Step(s, a).deliveries[f].pc.ToldFirst()
    requires !(f in s.deliveries && s.deliveries[f].pc.ToldFirst())
    ensures a == Insert(f) && f in s.deliveries && s.deliveries[f] == Delivery(Step(s, a).deliveries[f].slot, Inserting)
    ensures s.deliveries[f].slot !in s.table
  {
  }

  /** In particular, for a key that was never forgotten every later delivery replays exactly the reply
      that its first delivery stored, in any interleaving whatever. */
  lemma StoredReplyIsReplayed(run: seq<Action>, f: nat, d: nat)
    requires f in Run(run).deliveries && d in Run(run).deliveries
    requires Run(run).deliveries[f].pc.Done? && Run(run).deliveries[f].pc.stored.Some?
    requires Run(run).deliveries[d] == Delivery(Run(run).deliveries[f].slot, Arrived)
    requires NeverForgotten(Run(run).log, Run(run).deliveries[f].slot)
    ensures Run(run + [Look(d)]).deliveries[d].pc == Replayed(Run(run).deliveries[f].pc.stored.value)
  {
    UnforgottenFirstStands(run, f);
    RepeatIsToldWhatIsRemembered(run, d);
  }

  /** Not so across an erasure: a first from before it that is still at work stores its reply over
      that of the first after it, and that is what repeats are told from then on. */
  lemma LateReplyOverwrites(slot: Slot, early: string, late: string)
    ensures var run := Telling(0, slot) + [Work(0, Some(late))] + [Forget(slot)]
                       + Telling(1, slot) + [Work(1, Some(early))] + [Store(1)] + [Store(0)];
      var s := Run(run + Telling(2, slot));
      && 1 in s.deliveries && s.deliveries[1] == Delivery(slot, Done(Some(early)))
      && 2 in s.deliveries && s.deliveries[2] == Delivery(slot, Replayed(late))
  {
    var b := Telling(0, slot) + [Work(0, Some(late))] + [Forget(slot)];
    var c := b + Telling(1, slot) + [Work(1, Some(early))];
    EarlyFirstForgotten(slot, late);
    TellingRuns(b, 1, slot);
    RunSnoc(b + Telling(1, slot), Work(1, Some(early)));
    RunSnoc(c, Store(1));
    RunSnoc(c + [Store(1)], Store(0));
    BothStore(Run(c), slot, early, late);
    TellingRuns(c + [Store(1)] + [Store(0)], 2, slot);
  }

  lemma EarlyFirstForgotten(slot: Slot, late: string)
    ensures var s := Run(Telling(0, slot) + [Work(0, Some(late))] + [Forget(slot)]);
      && s.deliveries == map[0 := Delivery(slot, Responding(late))] && slot !in s.table
  {
    var a := Telling(0, slot);
    assert [] + a == a;
    TellingRuns([], 0, slot);
    RunSnoc(a, Work(0, Some(late)));
    RunSnoc(a + [Work(0, Some(late))], Forget(slot));
  }

  lemma BothStore(s: State, slot: Slot, early: string, late: string)
    requires 0 in s.deliveries && s.deliveries[0] == Delivery(slot, Responding(late))
    requires 1 in s.deliveries && s.deliveries[1] == Delivery(slot, Responding(early))
    requires slot in s.table && 2 !in s.deliveries
    ensures var t := Step(Step(s, Store(1)), Store(0));
      && 1 in t.deliveries && t.deliveries[1] == Delivery(slot, Done(Some(early)))
      && 2 !in t.deliveries && Found(t.table, slot) == Some(late)
  {
  }
}
