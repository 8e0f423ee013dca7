/** Consented signals: who may be known about, for how long, and a retention sweep no reader can
    notice. */
module Signals {
  import opened Clock
  import opened Options
  import opened Text

  const KINDS := ["heart_rate", "location", "calendar", "commitments"]

  function Ttl(kind: string): Option<int> {
    if kind == "heart_rate" then Some(2 * HOUR)
    else if kind == "location" then Some(6 * HOUR)
    else if kind == "calendar" then Some(12 * HOUR)
    else if kind == "commitments" then Some(7 * DAY)
    else None
  }

  function Retention(kind: string): Option<int> {
    if kind == "heart_rate" then Some(7 * DAY)
    else if kind == "location" then Some(DAY)
    else if kind == "calendar" then Some(7 * DAY)
    else if kind == "commitments" then Some(30 * DAY)
    else None
  }

  datatype Scope = Scope(user: int, kind: string)

  datatype Consent = Consent(granted: Option<Time>, revoked: Option<Time>)
  {
    predicate Active() {
      granted.Some? && (revoked.None? || revoked.value < granted.value)
    }
  }

  datatype Signal = Signal(scope: Scope, value: string, unit: string, source: string, observed: Time, expires: Time)

  datatype Reading = Known(value: string, unit: string, source: string, asOf: Time) | Unknown(reason: string)

  datatype Db = Db(consents: map<Scope, Consent>, signals: seq<Signal>)

  // ----- statements ------------------------------------------------------------------------

  /** An insert that gives way to an existing row, then an update of that row. */
  function SetConsent(db: Db, scope: Scope, granted: bool, now: Time): Db {
    if Ttl(scope.kind).None? then db
    else
      var row := if scope in db.consents then db.consents[scope]
                 else if granted then Consent(Some(now), None) else Consent(None, Some(now));
      db.(consents := db.consents[scope :=
        if granted then Consent(Some(now), None) else row.(revoked := Some(now))])
  }

  predicate HasConsent(db: Db, scope: Scope) {
    scope in db.consents && db.consents[scope].Active()
  }

  datatype Observation = Observation(scope: Scope, value: string, unit: string, source: string, observed: Option<Time>)

  predicate Acceptable(db: Db, o: Observation) {
    && Ttl(o.scope.kind).Some?
    && HasConsent(db, o.scope)
    && TrimSpace(o.source) != "" && TrimSpace(o.value) != "" && o.observed.Some?
  }

  function Ingest(db: Db, o: Observation): Db {
    if !Acceptable(db, o) then db
    else
      db.(signals := db.signals + [Signal(o.scope, o.value, o.unit, o.source, o.observed.value,
                                          o.observed.value + Ttl(o.scope.kind).value)])
  }

  /** The most recent observation; the earliest stored of those that tie. */
  function Newest(signals: seq<Signal>, scope: Scope): (s: Option<Signal>)
    ensures s.Some? ==> s.value in signals && s.value.scope == scope
  {
    if signals == [] then None
    else
      var best, last := Newest(signals[..|signals| - 1], scope), signals[|signals| - 1];
      if last.scope == scope && (best.None? || last.observed > best.value.observed) then Some(last) else best
  }

  function Latest(db: Db, scope: Scope, now: Time): Reading {
    if !HasConsent(db, scope) then Unknown("no consent on file")
    else
      var s := Newest(db.signals, scope);
      if s.None? then Unknown("no data received")
      else if !(now < s.value.expires) then Unknown("stale")
      else Known(s.value.value, s.value.unit, s.value.source, s.value.observed)
  }

  predicate PastRetention(s: Signal, kind: string, now: Time) {
    s.scope.kind == kind && Retention(kind).Some? && s.observed < now - Retention(kind).value
  }

  function DropOld(signals: seq<Signal>, kinds: seq<string>, now: Time): seq<Signal> {
    if signals == [] then []
    else
      var rest, last := DropOld(signals[..|signals| - 1], kinds, now), signals[|signals| - 1];
      if last.scope.kind in kinds && PastRetention(last, last.scope.kind, now) then rest else rest + [last]
  }

  function Sweep(db: Db, now: Time): Db {
    db.(signals := DropOld(db.signals, KINDS, now))
  }

  function DropUser(signals: seq<Signal>, user: int): seq<Signal> {
    if signals == [] then []
    else
      var rest, last := DropUser(signals[..|signals| - 1], user), signals[|signals| - 1];
      if last.scope.user == user then rest else rest + [last]
  }

  /** What erasing a profile leaves. */
  function Erase(db: Db, user: int): Db {
    Db(map s | s in db.consents && s.user != user :: db.consents[s], DropUser(db.signals, user))
  }

  // ----- the store -------------------------------------------------------------------------

  class Store {
    var consents: map<Scope, Consent>
    var signals: seq<Signal>

    ghost function State(): Db
      reads this
    {
      Db(consents, signals)
    }

    constructor ()
      ensures State() == Db(map[], [])
    {
      consents, signals := map[], [];
    }

    method Decide(scope: Scope, granted: bool, now: Time) returns (ok: bool)
      modifies this`consents
      ensures State() == SetConsent(old(State()), scope, granted, now)
      ensures ok == Ttl(scope.kind).Some?
    {
      if Ttl(scope.kind).None? {
        return false;
      }
      if scope !in consents {
        consents := consents[scope := if granted then Consent(Some(now), None) else Consent(None, Some(now))];
      }
      if granted {
        consents := consents[scope := consents[scope].(granted := Some(now), revoked := None)];
        return true;
      }
      consents := consents[scope := consents[scope].(revoked := Some(now))];
      return true;
    }

    method IngestSignal(o: Observation) returns (ok: bool)
      modifies this`signals
      ensures ok == Acceptable(old(State()), o)
      ensures State() == Ingest(old(State()), o)
    {
      var ttl := Ttl(o.scope.kind);
      if ttl.None? {
        return false;
      }
      if !(o.scope in consents && consents[o.scope].Active()) {
        return false;
      }
      if TrimSpace(o.source) == "" || TrimSpace(o.value) == "" || o.observed.None? {
        return false;
      }
      var expires := o.observed.value + ttl.value;
      signals := signals + [Signal(o.scope, o.value, o.unit, o.source, o.observed.value, expires)];
      return true;
    }

    method LatestSignal(scope: Scope, now: Time) returns (r: Reading)
      ensures r == Latest(State(), scope, now)
    {
      if !(scope in consents && consents[scope].Active()) {
        return Unknown("no consent on file");
      }
      var best: Option<Signal> := None;
      for i := 0 to |signals|
        invariant best == Newest(signals[..i], scope)
      {
        assert signals[..i + 1][..i] == signals[..i];
        if signals[i].scope == scope && (best.None? || signals[i].observed > best.value.observed) {
          best := Some(signals[i]);
        }
      }
      assert signals[..|signals|] == signals;
      if best.None? {
        return Unknown("no data received");
      }
      if best.value.expires <= now {
        return Unknown("stale");
      }
      return Known(best.value.value, best.value.unit, best.value.source, best.value.observed);
    }

    /** Reports how many observations were deleted. */
    method PurgeExpiredSignals(now: Time) returns (total: nat)
      modifies this`signals
      ensures State() == Sweep(old(State()), now)
      ensures total == |old(signals)| - |signals|
    {
      var kept := [];
      total := 0;
      for i := 0 to |signals|
        invariant signals == old(signals) && consents == old(consents)
        invariant kept == DropOld(signals[..i], KINDS, now) && total == i - |kept|
      {
        assert signals[..i + 1][..i] == signals[..i];
        if signals[i].scope.kind in KINDS && PastRetention(signals[i], signals[i].scope.kind, now) {
          total := total + 1;
        } else {
          kept := kept + [signals[i]];
        }
      }
      assert signals[..|signals|] == signals;
      signals := kept;
    }

    /** What erasing a profile does to these two tables. */
    method EraseUser(user: int)
      modifies this
      ensures State() == Erase(old(State()), user)
    {
      var kept := [];
      for i := 0 to |signals|
        invariant signals == old(signals) && consents == old(consents)
        invariant kept == DropUser(signals[..i], user)
      {
        assert signals[..i + 1][..i] == signals[..i];
        if signals[i].scope.user != user {
          kept := kept + [signals[i]];
        }
      }
      assert signals[..|signals|] == signals;
      signals := kept;
      consents := map s | s in consents && s.user != user :: consents[s];
    }
  }

  // ----- runs --------------------------------------------------------------------------------

  datatype Action =
    | DecideStep(scope: Scope, granted: bool)
    | IngestStep(o: Observation)
    | SweepStep
    | EraseStep(user: int)

  datatype Event = Event(action: Action, now: Time)

  function Step(db: Db, e: Event): Db {
    match e.action
    case DecideStep(scope, granted) => SetConsent(db, scope, granted, e.now)
    case IngestStep(o) => Ingest(db, o)
    case SweepStep => Sweep(db, e.now)
    case EraseStep(user) => Erase(db, user)
  }

  function Run(run: seq<Event>): Db {
    if run == [] then Db(map[], []) else Step(Run(run[..|run| - 1]), run[|run| - 1])
  }

  predicate Ordered(run: seq<Event>) {
    forall i, j :: 0 <= i < j < |run| ==> run[i].now <= run[j].now
  }

  /** The last decision made about a scope since its owner was last erased, read off the run
      alone. */
  function LastDecision(run: seq<Event>, scope: Scope): Option<bool> {
    if run == [] then None
    else
      var a := run[|run| - 1].action;
      if a.DecideStep? && a.scope == scope && Ttl(scope.kind).Some? then Some(a.granted)
      else if a.EraseStep? && a.user == scope.user then None
      else LastDecision(run[..|run| - 1], scope)
  }

  /** An observation that names its source, its value and its time, of a kind there is. */
  predicate Attributable(o: Observation) {
    Ttl(o.scope.kind).Some? && TrimSpace(o.source) != "" && TrimSpace(o.value) != "" && o.observed.Some?
  }

  function SignalOf(o: Observation): Signal
    requires Attributable(o)
  {
    Signal(o.scope, o.value, o.unit, o.source, o.observed.value, o.observed.value + Ttl(o.scope.kind).value)
  }

  /** The newest observation that was accepted since its owner was last erased, read off the run
      alone: nothing here knows of sweeps. */
  function NewestHeard(run: seq<Event>, scope: Scope): Option<Signal> {
    if run == [] then None
    else
      var best, a := NewestHeard(run[..|run| - 1], scope), run[|run| - 1].action;
      if a.IngestStep? && a.o.scope == scope && Attributable(a.o)
         && LastDecision(run[..|run| - 1], scope) == Some(true)
         && (best.None? || a.o.observed.value > best.value.observed)
      then Some(SignalOf(a.o))
      else if a.EraseStep? && a.user == scope.user then None
      else best
  }

  /** Stored observations expire a lifetime after they were made. */
  predicate ExpiryIsTtl(signals: seq<Signal>) {
    forall i :: 0 <= i < |signals| ==>
      Ttl(signals[i].scope.kind).Some? && signals[i].expires == signals[i].observed + Ttl(signals[i].scope.kind).value
  }

  predicate GrantedBy(consents: map<Scope, Consent>, now: Time) {
    forall s :: s in consents && consents[s].granted.Some? ==> consents[s].granted.value <= now
  }

  lemma {:induction false} DropOldIsPart(signals: seq<Signal>, kinds: seq<string>, now: Time)
    ensures forall i :: 0 <= i < |DropOld(signals, kinds, now)| ==> DropOld(signals, kinds, now)[i] in signals
  {
    if signals != [] {
      DropOldIsPart(signals[..|signals| - 1], kinds, now);
      assert signals == signals[..|signals| - 1] + [signals[|signals| - 1]];
    }
  }

  lemma {:induction false} DropUserIsPart(signals: seq<Signal>, user: int)
    ensures forall i :: 0 <= i < |DropUser(signals, user)| ==> DropUser(signals, user)[i] in signals
  {
    if signals != [] {
      DropUserIsPart(signals[..|signals| - 1], user);
      assert signals == signals[..|signals| - 1] + [signals[|signals| - 1]];
    }
  }

  lemma PartKeepsExpiry(part: seq<Signal>, signals: seq<Signal>)
    requires ExpiryIsTtl(signals) && forall i :: 0 <= i < |part| ==> part[i] in signals
    ensures ExpiryIsTtl(part)
  {
    forall i | 0 <= i < |part|
      ensures Ttl(part[i].scope.kind).Some? && part[i].expires == part[i].observed + Ttl(part[i].scope.kind).value
    {
      assert part[i] in signals;
    }
  }

  lemma {:induction false} RunKeepsInv(run: seq<Event>, now: Time)
    requires Ordered(run) && (run != [] ==> run[|run| - 1].now <= now)
    ensures ExpiryIsTtl(Run(run).signals) && GrantedBy(Run(run).consents, now)
  {
    if run != [] {
      var front, e := run[..|run| - 1], run[|run| - 1];
      RunKeepsInv(front, e.now);
      if e.action.SweepStep? {
        DropOldIsPart(Run(front).signals, KINDS, e.now);
        PartKeepsExpiry(DropOld(Run(front).signals, KINDS, e.now), Run(front).signals);
      } else if e.action.EraseStep? {
        DropUserIsPart(Run(front).signals, e.action.user);
        PartKeepsExpiry(DropUser(Run(front).signals, e.action.user), Run(front).signals);
      }
    }
  }

  /** Consent is active exactly when the last decision about that scope was a grant. */
  lemma {:induction false} ConsentIsLastDecision(run: seq<Event>, scope: Scope)
    requires Ordered(run)
    ensures HasConsent(Run(run), scope) <==> LastDecision(run, scope) == Some(true)
    ensures scope in Run(run).consents <==> LastDecision(run, scope).Some?
  {
    if run != [] {
      var front, e := run[..|run| - 1], run[|run| - 1];
      ConsentIsLastDecision(front, scope);
      RunKeepsInv(front, e.now);
    }
  }

  // ----- the sweep ---------------------------------------------------------------------------

  /** Nothing is thrown away while it could still be read. */
  lemma RetentionOutlastsTtl(kind: string)
    ensures Ttl(kind).Some? <==> kind in KINDS
    ensures Ttl(kind).Some? <==> Retention(kind).Some?
    ensures Ttl(kind).Some? ==> Retention(kind).value > Ttl(kind).value
  {
    assert KINDS[0] == "heart_rate" && KINDS[1] == "location" && KINDS[2] == "calendar" && KINDS[3] == "commitments";
  }

  lemma NewestSnoc(signals: seq<Signal>, s: Signal, scope: Scope)
    ensures var best := Newest(signals, scope);
      Newest(signals + [s], scope)
      == if s.scope == scope && (best.None? || s.observed > best.value.observed) then Some(s) else best
  {
    assert (signals + [s])[..|signals|] == signals;
  }

  /** A sweep removes the newest observation only along with every other one. */
  lemma {:induction false} SweepAndNewest(signals: seq<Signal>, kinds: seq<string>, now: Time, scope: Scope)
    ensures var before, after := Newest(signals, scope), Newest(DropOld(signals, kinds, now), scope);
      after == if before.Some? && !(scope.kind in kinds && PastRetention(before.value, scope.kind, now))
               then before else None
  {
    if signals != [] {
      var front, last := signals[..|signals| - 1], signals[|signals| - 1];
      SweepAndNewest(front, kinds, now, scope);
      NewestSnoc(DropOld(front, kinds, now), last, scope);
    }
  }

  lemma {:induction false} EraseAndNewest(signals: seq<Signal>, user: int, scope: Scope)
    ensures Newest(DropUser(signals, user), scope) == if scope.user == user then None else Newest(signals, scope)
  {
    if signals != [] {
      var front, last := signals[..|signals| - 1], signals[|signals| - 1];
      EraseAndNewest(front, user, scope);
      NewestSnoc(DropUser(front, user), last, scope);
    }
  }

  /** Nothing, or an observation old enough to be thrown away. */
  predicate Outlived(s: Option<Signal>, kind: string, now: Time) {
    s.None? || (Retention(kind).Some? && s.value.observed < now - Retention(kind).value)
  }

  /** The same observation, or none that a reader could still be told of. */
  predicate Agree(a: Option<Signal>, b: Option<Signal>, kind: string, now: Time) {
    a == b || (Outlived(a, kind, now) && Outlived(b, kind, now))
  }

  /** One more observation of the scope, accepted by the table and heard by the onlooker alike. */
  lemma HeardAlike(a: Option<Signal>, b: Option<Signal>, s: Signal, now: Time)
    requires Agree(a, b, s.scope.kind, now) && Retention(s.scope.kind).Some?
    ensures Agree(if a.None? || s.observed > a.value.observed then Some(s) else a,
                  if b.None? || s.observed > b.value.observed then Some(s) else b, s.scope.kind, now)
  {
  }

  /** However many sweeps there were, the table's newest observation is the newest one heard, unless
      both are too old to matter. */
  lemma {:induction false} TableAgreesWithHeard(run: seq<Event>, scope: Scope, now: Time)
    requires Ordered(run) && (run != [] ==> run[|run| - 1].now <= now)
    ensures Agree(Newest(Run(run).signals, scope), NewestHeard(run, scope), scope.kind, now)
  {
    if run != [] {
      var front, e := run[..|run| - 1], run[|run| - 1];
      var db := Run(front);
      TableAgreesWithHeard(front, scope, e.now);
      match e.action
      case DecideStep(_, _) =>
      case IngestStep(o) =>
        ConsentIsLastDecision(front, o.scope);
        RetentionOutlastsTtl(o.scope.kind);
        if Acceptable(db, o) {
          NewestSnoc(db.signals, SignalOf(o), scope);
          if o.scope == scope {
            HeardAlike(Newest(db.signals, scope), NewestHeard(front, scope), SignalOf(o), e.now);
          }
        }
      case SweepStep =>
        SweepAndNewest(db.signals, KINDS, e.now, scope);
      case EraseStep(user) =>
        EraseAndNewest(db.signals, user, scope);
    }
  }

  lemma {:induction false} HeardExpires(run: seq<Event>, scope: Scope)
    ensures NewestHeard(run, scope).Some? ==>
              var s := NewestHeard(run, scope).value;
              Ttl(scope.kind).Some? && s.expires == s.observed + Ttl(scope.kind).value
  {
    if run != [] {
      HeardExpires(run[..|run| - 1], scope);
    }
  }

  /** A reading is known exactly when the last decision was a grant and the newest observation ever
      accepted is still inside its lifetime; then it is that observation.  Sweeps do not come into
      it. */
  lemma KnownIff(run: seq<Event>, scope: Scope, now: Time)
    requires Ordered(run) && (run != [] ==> run[|run| - 1].now <= now)
    ensures var newest := NewestHeard(run, scope);
      var reading := Latest(Run(run), scope, now);
      && (reading.Known? <==>
            LastDecision(run, scope) == Some(true) && newest.Some? && Ttl(scope.kind).Some?
            && now < newest.value.observed + Ttl(scope.kind).value)
      && (reading.Known? ==>
            reading == Known(newest.value.value, newest.value.unit, newest.value.source, newest.value.observed))
  {
    ConsentIsLastDecision(run, scope);
    RunKeepsInv(run, now);
    TableAgreesWithHeard(run, scope, now);
    HeardExpires(run, scope);
    RetentionOutlastsTtl(scope.kind);
  }

  /** Sweeps leave what was decided and heard alone. */
  lemma {:induction false} SweepsAreUnheard(front: seq<Event>, sweep: Time, more: seq<Event>, scope: Scope)
    ensures LastDecision(front + [Event(SweepStep, sweep)] + more, scope) == LastDecision(front + more, scope)
    ensures NewestHeard(front + [Event(SweepStep, sweep)] + more, scope) == NewestHeard(front + more, scope)
  {
    var swept := front + [Event(SweepStep, sweep)];
    if more == [] {
      assert swept + more == swept && front + more == front && swept[..|front|] == front;
    } else {
      var n := |more| - 1;
      SweepsAreUnheard(front, sweep, more[..n], scope);
      assert (swept + more)[..|swept + more| - 1] == swept + more[..n] && (swept + more)[|swept + more| - 1] == more[n];
      assert (front + more)[..|front + more| - 1] == front + more[..n] && (front + more)[|front + more| - 1] == more[n];
    }
  }

  lemma OrderedWithout(front: seq<Event>, e: Event, more: seq<Event>, now: Time)
    requires Ordered(front + [e] + more) && forall i :: 0 <= i < |front + [e] + more| ==> (front + [e] + more)[i].now <= now
    ensures Ordered(front + more) && forall i :: 0 <= i < |front + more| ==> (front + more)[i].now <= now
  {
    var all, less := front + [e] + more, front + more;
    forall i | 0 <= i < |less| ensures less[i] == all[if i < |front| then i else i + 1] {
    }
  }

  /** A sweep anywhere in a run, whatever is decided, observed, swept or erased afterwards, changes
      no reading: what would be known without it is known with the same value, and what would be
      unknown is unknown. */
  lemma SweepIsInvisible(front: seq<Event>, sweep: Time, more: seq<Event>, scope: Scope, now: Time)
    requires Ordered(front + [Event(SweepStep, sweep)] + more)
    requires forall i :: 0 <= i < |front + [Event(SweepStep, sweep)] + more| ==>
               (front + [Event(SweepStep, sweep)] + more)[i].now <= now
    ensures var without := Latest(Run(front + more), scope, now);
      var with := Latest(Run(front + [Event(SweepStep, sweep)] + more), scope, now);
      without == with || (without.Unknown? && with.Unknown?)
  {
    OrderedWithout(front, Event(SweepStep, sweep), more, now);
    SweepsAreUnheard(front, sweep, more, scope);
    KnownIff(front + more, scope, now);
    KnownIff(front + [Event(SweepStep, sweep)] + more, scope, now);
  }

  // ----- what a sweep and a decision leave -----------------------------------------------------------

  /** How long each kind is kept. */
  function KeptFor(kind: string): int {
    match kind
    case "heart_rate" => 7 * DAY
    case "location" => DAY
    case "calendar" => 7 * DAY
    case "commitments" => 30 * DAY
    case _ => 0
  }

  lemma RetentionIsKeeping(kind: string)
    ensures Retention(kind) == if kind in KINDS then Some(KeptFor(kind)) else None
  {
    assert KINDS[0] == "heart_rate" && KINDS[1] == "location" && KINDS[2] == "calendar" && KINDS[3] == "commitments";
  }

  lemma {:induction false} DropOldLeaves(signals: seq<Signal>, now: Time, s: Signal)
    requires s.scope.kind in KINDS
    ensures s in DropOld(signals, KINDS, now) <==> s in signals && now - s.observed <= KeptFor(s.scope.kind)
  {
    if signals != [] {
      var front, last := signals[..|signals| - 1], signals[|signals| - 1];
      DropOldLeaves(front, now, s);
      RetentionIsKeeping(s.scope.kind);
      assert signals == front + [last];
    }
  }

  /** Over every run, a sweep deletes exactly the observations older than their kind is kept, and keeps
      the order of the rest; consents are not touched. */
  lemma SweepTakesTheOldAlone(run: seq<Event>, now: Time, s: Signal)
    requires Ordered(run) && (run != [] ==> run[|run| - 1].now <= now)
    ensures var before, after := Run(run), Step(Run(run), Event(SweepStep, now));
      && (s in after.signals <==> s in before.signals && now - s.observed <= KeptFor(s.scope.kind))
      && Subsequence(after.signals, before.signals)
      && after.consents == before.consents
  {
    RunKeepsInv(run, now);
    DropOldIsSubsequence(Run(run).signals, now);
    DropOldIsPart(Run(run).signals, KINDS, now);
    if s in Run(run).signals {
      var i :| 0 <= i < |Run(run).signals| && Run(run).signals[i] == s;
      RetentionOutlastsTtl(s.scope.kind);
      DropOldLeaves(Run(run).signals, now, s);
    }
  }

  /** `part` is `whole` with entries left out. */
  predicate Subsequence(part: seq<Signal>, whole: seq<Signal>) {
    part == [] ||
    (whole != [] && var front := whole[..|whole| - 1];
     Subsequence(part, front)
     || (part[|part| - 1] == whole[|whole| - 1] && Subsequence(part[..|part| - 1], front)))
  }

  lemma {:induction false} DropOldIsSubsequence(signals: seq<Signal>, now: Time)
    ensures Subsequence(DropOld(signals, KINDS, now), signals)
  {
    if signals != [] {
      DropOldIsSubsequence(signals[..|signals| - 1], now);
      var rest := DropOld(signals[..|signals| - 1], KINDS, now);
      assert (rest + [signals[|signals| - 1]])[..|rest|] == rest;
    }
  }

  /** When a scope was last granted, and when it was last refused since, read off the run. */
  function OnFile(run: seq<Event>, scope: Scope): Option<Consent> {
    if run == [] then None
    else
      var e, before := run[|run| - 1], OnFile(run[..|run| - 1], scope);
      match e.action
      case DecideStep(s, granted) =>
        if s != scope || Ttl(scope.kind).None? then before
        else if granted then Some(Consent(Some(e.now), None))
        else Some(Consent(if before.Some? then before.value.granted else None, Some(e.now)))
      case EraseStep(user) => if user == scope.user then None else before
      case _ => before
  }

  /** The row of a scope holds just that: a refusal keeps the time of the grant it takes back and
      invents none. */
  lemma {:induction false} ConsentRowIsOnFile(run: seq<Event>, scope: Scope)
    ensures scope in Run(run).consents <==> OnFile(run, scope).Some?
    ensures scope in Run(run).consents ==> Run(run).consents[scope] == OnFile(run, scope).value
  {
    if run != [] {
      ConsentRowIsOnFile(run[..|run| - 1], scope);
    }
  }

  // ----- the lifetimes themselves ------------------------------------------------------------------

  /** How long each kind is believed: a heart rate two hours, a location six, the calendar twelve and
      commitments a week. */
  function BelievedFor(kind: string): int {
    match kind
    case "heart_rate" => 2 * HOUR
    case "location" => 6 * HOUR
    case "calendar" => 12 * HOUR
    case "commitments" => 7 * DAY
    case _ => 0
  }

  lemma LifetimeIsBelief(kind: string)
    ensures Ttl(kind) == if BelievedFor(kind) > 0 then Some(BelievedFor(kind)) else None
  {
  }

  /** Over every run a reading is known exactly while consent holds and the newest observation is that
      young. */
  lemma KnownWhileBelieved(run: seq<Event>, scope: Scope, now: Time)
    requires Ordered(run) && (run != [] ==> run[|run| - 1].now <= now)
    ensures var newest := NewestHeard(run, scope);
      Latest(Run(run), scope, now).Known?
      <==> LastDecision(run, scope) == Some(true) && newest.Some? && BelievedFor(scope.kind) > 0
           && now < newest.value.observed + BelievedFor(scope.kind)
  {
    KnownIff(run, scope, now);
    LifetimeIsBelief(scope.kind);
  }
}
