/** The live-call slot on a profile: claimed by one conditional update before the provider is
    rung, and released by a refusal, a hang-up or a transcript. */
module CallSlot {
  import opened Clock
  import opened Options

  const CALL_MAX := 10 * MINUTE

  /** call_started_at of every profile that exists. */
  type Slots = map<int, Option<Time>>

  predicate CallInProgress(started: Option<Time>, now: Time) {
    started.Some? && now - started.value < CALL_MAX
  }

  predicate Claimable(started: Option<Time>, now: Time) {
    started.None? || started.value < now - CALL_MAX
  }

  /** The conditional update; `ok` says whether a row was changed. */
  datatype Claimed = Claimed(calls: Slots, ok: bool)

  function Claiming(calls: Slots, user: int, now: Time): Claimed {
    if user in calls && Claimable(calls[user], now) then Claimed(calls[user := Some(now)], true)
    else Claimed(calls, false)
  }

  function Freed(calls: Slots, user: int): Slots {
    if user in calls then calls[user := None] else calls
  }

  datatype Placed = Busy | Ringing | Failed

  class Profiles {
    var calls: Slots

    constructor (users: set<int>)
      ensures calls == map u | u in users :: None
    {
      calls := map u | u in users :: None;
    }

    method StartCall(user: int, now: Time) returns (started: bool)
      modifies this
      ensures Claimed(calls, started) == Claiming(old(calls), user, now)
    {
      if user in calls && (calls[user].None? || calls[user].value < now - CALL_MAX) {
        calls := calls[user := Some(now)];
        return true;
      }
      return false;
    }

    method EndCall(user: int)
      modifies this
      ensures calls == Freed(old(calls), user)
    {
      if user in calls {
        calls := calls[user := None];
      }
    }

    /** `rings` says whether the provider takes the call. */
    method PlaceCall(user: int, now: Time, rings: bool) returns (outcome: Placed)
      modifies this
      ensures var claim := Claiming(old(calls), user, now);
        && (outcome == Busy <==> !claim.ok)
        && (outcome == Ringing <==> claim.ok && rings)
        && calls == if claim.ok && !rings then Freed(claim.calls, user) else claim.calls
    {
      var started := StartCall(user, now);
      if !started {
        return Busy;
      }
      if !rings {
        EndCall(user);
        return Failed;
      }
      return Ringing;
    }
  }

  /** The button and the lock: while a call is shown as in progress no claim succeeds, and they
      part company at exactly the instant the maximum is reached. */
  lemma InProgressRefuses(started: Option<Time>, now: Time)
    requires started.Some? ==> started.value <= now
    ensures CallInProgress(started, now) ==> !Claimable(started, now)
    ensures !CallInProgress(started, now) && !Claimable(started, now)
       <==> started == Some(now - CALL_MAX)
  {
  }

  // ----- requests, interleaved -----------------------------------------------------------------

  /** `Rung` is a call the provider took; nothing but its transcript or a hang-up says it ended. */
  datatype Phase = Clicked | Claimant | Rung | TurnedAway | Unplaced

  datatype Request = Request(user: int, phase: Phase)

  /** Why a slot was released. */
  datatype Cause = Refused(r: nat) | HungUp(r: nat) | Transcribed(call: Option<nat>)

  /** What the outside world can see happen to a slot; a claim names the request that made it. */
  datatype Mark = Claim(user: int, at: Time, r: nat) | Release(user: int, cause: Cause)

  /** `ended` holds the calls a hang-up or a transcript has reported over. */
  datatype State = State(calls: Slots, requests: map<nat, Request>, ended: set<nat>, log: seq<Mark>)

  datatype Action =
    | Click(r: nat, user: int)
    | StartCall(r: nat)                               // the conditional update
    | ProviderRings(r: nat)
    | ProviderRefuses(r: nat)                         // the slot is released at once
    | HangUp(r: nat)                                  // the delayed hang-up of a call
    | TranscriptArrives(user: int, call: Option<nat>) // None: a call this service did not place

  datatype Event = Event(action: Action, now: Time)

  function Release(s: State, user: int, cause: Cause): State {
    if user in s.calls then s.(calls := Freed(s.calls, user), log := s.log + [Mark.Release(user, cause)]) else s
  }

  predicate IsRung(s: State, r: nat) {
    r in s.requests && s.requests[r].phase == Rung
  }

  function Step(s: State, e: Event): State {
    match e.action
    case Click(r, user) =>
      if r in s.requests then s else s.(requests := s.requests[r := Request(user, Clicked)])
    case StartCall(r) =>
      if r !in s.requests || s.requests[r].phase != Clicked then s
      else
        var user := s.requests[r].user;
        var claim := Claiming(s.calls, user, e.now);
        if claim.ok
        then s.(calls := claim.calls, requests := s.requests[r := Request(user, Claimant)],
                log := s.log + [Claim(user, e.now, r)])
        else s.(requests := s.requests[r := Request(user, TurnedAway)])
    case ProviderRings(r) =>
      if r in s.requests && s.requests[r].phase == Claimant
      then s.(requests := s.requests[r := s.requests[r].(phase := Rung)]) else s
    case ProviderRefuses(r) =>
      if r in s.requests && s.requests[r].phase == Claimant
      then Release(s.(requests := s.requests[r := s.requests[r].(phase := Unplaced)]), s.requests[r].user, Refused(r))
      else s
    case HangUp(r) =>
      if IsRung(s, r) then Release(s.(ended := s.ended + {r}), s.requests[r].user, HungUp(r)) else s
    case TranscriptArrives(user, call) =>
      if call.None? then Release(s, user, Transcribed(None))
      else if IsRung(s, call.value) && s.requests[call.value].user == user
      then Release(s.(ended := s.ended + {call.value}), user, Transcribed(call))
      else s
  }

  function Start(users: set<int>): State {
    State(map u | u in users :: None, map[], {}, [])
  }

  function Run(users: set<int>, run: seq<Event>): State {
    if run == [] then Start(users) else Step(Run(users, run[..|run| - 1]), run[|run| - 1])
  }

  predicate Ordered(run: seq<Event>) {
    forall i, j :: 0 <= i < j < |run| ==> run[i].now <= run[j].now
  }

  /** When the claim still standing was made, read off the log alone. */
  function Standing(log: seq<Mark>, user: int): Option<Time> {
    if log == [] then None
    else
      match log[|log| - 1]
      case Claim(u, at, _) => if u == user then Some(at) else Standing(log[..|log| - 1], user)
      case Release(u, _) => if u == user then None else Standing(log[..|log| - 1], user)
  }

  /** Mark `k` releases the slot of `user`. */
  predicate Releases(log: seq<Mark>, user: int, k: int)
    requires 0 <= k < |log|
  {
    log[k].Release? && log[k].user == user
  }

  predicate NoRelease(log: seq<Mark>, user: int, i: int, j: int)
    requires 0 <= i <= j <= |log|
  {
    forall k :: i <= k < j ==> !Releases(log, user, k)
  }

  predicate ClaimsInOrder(log: seq<Mark>, now: Time) {
    && (forall i :: 0 <= i < |log| && log[i].Claim? ==> log[i].at <= now)
    && (forall i, j :: 0 <= i < j < |log| && log[i].Claim? && log[j].Claim? ==> log[i].at <= log[j].at)
  }

  /** A claim succeeded only if nothing stood, or what stood was more than the maximum old. */
  predicate ClaimsWereFree(log: seq<Mark>) {
    forall j :: 0 <= j < |log| && log[j].Claim? ==> Claimable(Standing(log[..j], log[j].user), log[j].at)
  }

  ghost predicate Inv(s: State, now: Time) {
    && (forall u :: u in s.calls ==> s.calls[u] == Standing(s.log, u))
    && ClaimsInOrder(s.log, now)
    && ClaimsWereFree(s.log)
  }

  lemma StandingSnoc(log: seq<Mark>, m: Mark, user: int)
    ensures Standing(log + [m], user)
         == match m { case Claim(u, at, _) => if u == user then Some(at) else Standing(log, user)
                      case Release(u, _) => if u == user then None else Standing(log, user) }
  {
    assert (log + [m])[..|log|] == log;
  }

  lemma MarkKeepsFree(log: seq<Mark>, m: Mark)
    requires ClaimsWereFree(log)
    requires m.Claim? ==> Claimable(Standing(log, m.user), m.at)
    ensures ClaimsWereFree(log + [m])
  {
    forall j | 0 <= j < |log + [m]| && (log + [m])[j].Claim?
      ensures Claimable(Standing((log + [m])[..j], (log + [m])[j].user), (log + [m])[j].at)
    {
      assert (log + [m])[..j] == log[..j];
      if j == |log| {
        assert log[..j] == log;
      }
    }
  }

  lemma ReleaseKeepsInv(s: State, user: int, cause: Cause, now: Time)
    requires Inv(s, now)
    ensures Inv(Release(s, user, cause), now)
  {
    var m := Mark.Release(user, cause);
    forall u ensures Standing(s.log + [m], u) == if u == user then None else Standing(s.log, u) {
      StandingSnoc(s.log, m, u);
    }
    MarkKeepsFree(s.log, m);
  }

  lemma ClaimKeepsInv(s: State, r: nat, user: int, was: Time, now: Time)
    requires Inv(s, was) && was <= now && user in s.calls && Claimable(s.calls[user], now)
    ensures Inv(s.(calls := s.calls[user := Some(now)], log := s.log + [Claim(user, now, r)]), now)
  {
    var m := Claim(user, now, r);
    forall u ensures Standing(s.log + [m], u) == if u == user then Some(now) else Standing(s.log, u) {
      StandingSnoc(s.log, m, u);
    }
    MarkKeepsFree(s.log, m);
  }

  lemma StepKeepsInv(s: State, e: Event, was: Time)
    requires Inv(s, was) && was <= e.now
    ensures Inv(Step(s, e), e.now)
  {
    assert Inv(s, e.now);
    match e.action
    case StartCall(r) =>
      if r in s.requests && s.requests[r].phase == Clicked {
        var user := s.requests[r].user;
        if user in s.calls && Claimable(s.calls[user], e.now) {
          ClaimKeepsInv(s, r, user, was, e.now);
        }
      }
    case ProviderRefuses(r) =>
      if r in s.requests && s.requests[r].phase == Claimant {
        ReleaseKeepsInv(s.(requests := s.requests[r := s.requests[r].(phase := Unplaced)]),
                        s.requests[r].user, Refused(r), e.now);
      }
    case HangUp(r) =>
      if IsRung(s, r) {
        ReleaseKeepsInv(s.(ended := s.ended + {r}), s.requests[r].user, HungUp(r), e.now);
      }
    case TranscriptArrives(user, call) =>
      if call.None? {
        ReleaseKeepsInv(s, user, Transcribed(None), e.now);
      } else if IsRung(s, call.value) && s.requests[call.value].user == user {
        ReleaseKeepsInv(s.(ended := s.ended + {call.value}), user, Transcribed(call), e.now);
      }
    case Click(_, _) =>
    case ProviderRings(_) =>
  }

  lemma {:induction false} RunKeepsInv(users: set<int>, run: seq<Event>)
    requires Ordered(run)
    ensures Inv(Run(users, run), if run == [] then 0 else run[|run| - 1].now)
  {
    if run != [] {
      var front, e := run[..|run| - 1], run[|run| - 1];
      RunKeepsInv(users, front);
      if front == [] {
        StepKeepsInv(Run(users, front), e, e.now);
      } else {
        StepKeepsInv(Run(users, front), e, front[|front| - 1].now);
      }
    }
  }

  // ----- when a claim succeeds -------------------------------------------------------------------

  /** Over every run, a click is let through exactly when nothing stands in the log for that profile
      or what stands is more than the maximum old; otherwise it is turned away and the slot is as it
      was. */
  lemma AClaimSucceedsExactlyWhen(users: set<int>, run: seq<Event>, r: nat, now: Time)
    requires Ordered(run)
    requires r in Run(users, run).requests && Run(users, run).requests[r].phase == Clicked
    requires Run(users, run).requests[r].user in Run(users, run).calls
    ensures var s := Run(users, run);
      var stands := Standing(s.log, s.requests[r].user);
      var s' := Step(s, Event(StartCall(r), now));
      if stands.None? || now - stands.value > 10 * MINUTE
      then s'.log == s.log + [Claim(s.requests[r].user, now, r)] && s'.requests == s.requests[r := Request(s.requests[r].user, Claimant)]
      else s'.log == s.log && s'.requests == s.requests[r := Request(s.requests[r].user, TurnedAway)] && s'.calls == s.calls
  {
    RunKeepsInv(users, run);
  }

  /** Claim `i` stands at the end: no release of its slot and no later claim follows. */
  predicate StandsAt(log: seq<Mark>, user: int, i: int) {
    && 0 <= i < |log| && log[i].Claim? && log[i].user == user
    && forall k :: i < k < |log| ==> log[k].user != user
  }

  /** Nothing stands exactly when every claim has been followed by a release, whatever its cause;
      otherwise the last claim stands. */
  lemma {:induction false} StandingIsTheLastUnreleased(log: seq<Mark>, user: int)
    ensures Standing(log, user).Some? <==> exists i :: StandsAt(log, user, i)
    ensures forall i :: StandsAt(log, user, i) ==> Standing(log, user) == Some(log[i].at)
  {
    if log != [] {
      var n := |log| - 1;
      StandingIsTheLastUnreleased(log[..n], user);
      if log[n].user == user {
        if log[n].Claim? {
          assert StandsAt(log, user, n);
        }
      } else {
        forall i ensures StandsAt(log, user, i) <==> StandsAt(log[..n], user, i) {
          if StandsAt(log[..n], user, i) {
            assert forall k :: i < k < n ==> log[..n][k] == log[k];
          }
        }
      }
    }
  }

  /** What stands at j is at least as recent as any unreleased claim before it. */
  lemma {:induction false} UnreleasedStands(log: seq<Mark>, now: Time, i: nat, j: nat)
    requires ClaimsInOrder(log, now) && i < j <= |log| && log[i].Claim?
    requires NoRelease(log, log[i].user, i, j)
    ensures Standing(log[..j], log[i].user).Some? && Standing(log[..j], log[i].user).value >= log[i].at
  {
    assert log[..j][..j - 1] == log[..j - 1];
    if i < j - 1 {
      UnreleasedStands(log, now, i, j - 1);
    }
    assert !Releases(log, log[i].user, j - 1);
  }

  /** Exclusion: in every interleaving, two successful claims for one profile are separated by a
      release of that profile's slot or by strictly more than the maximum call length. */
  lemma ClaimsAreExclusive(users: set<int>, run: seq<Event>, i: nat, j: nat)
    requires Ordered(run) && i < j < |Run(users, run).log|
    requires Run(users, run).log[i].Claim? && Run(users, run).log[j].Claim?
    requires Run(users, run).log[i].user == Run(users, run).log[j].user
    ensures !NoRelease(Run(users, run).log, Run(users, run).log[i].user, i, j)
         || Run(users, run).log[j].at - Run(users, run).log[i].at > CALL_MAX
  {
    RunKeepsInv(users, run);
    var log := Run(users, run).log;
    if NoRelease(log, log[i].user, i, j) {
      UnreleasedStands(log, if run == [] then 0 else run[|run| - 1].now, i, j);
    }
  }

  /** A call the provider refused leaves the slot claimable at once, at any time. */
  lemma RefusalFreesTheSlot(s: State, r: nat, now: Time, retry: Time)
    requires r in s.requests && s.requests[r].phase == Claimant && s.requests[r].user in s.calls
    ensures var s' := Step(s, Event(ProviderRefuses(r), now));
            s.requests[r].user in s'.calls && Claimable(s'.calls[s.requests[r].user], retry)
  {
  }

  function UserOf(s: State, a: Action): Option<int> {
    match a
    case Click(_, user) => Some(user)
    case TranscriptArrives(user, _) => Some(user)
    case StartCall(r) => if r in s.requests then Some(s.requests[r].user) else None
    case ProviderRings(r) => if r in s.requests then Some(s.requests[r].user) else None
    case ProviderRefuses(r) => if r in s.requests then Some(s.requests[r].user) else None
    case HangUp(r) => if r in s.requests then Some(s.requests[r].user) else None
  }

  /** One profile's steps never touch another's slot, and never create or remove one. */
  lemma SlotsAreSeparate(s: State, e: Event, other: int)
    requires other in s.calls && UserOf(s, e.action) != Some(other)
    ensures other in Step(s, e).calls && Step(s, e).calls[other] == s.calls[other]
    ensures Step(s, e).calls.Keys == s.calls.Keys
  {
  }

  // ----- two calls at once -----------------------------------------------------------------------

  /** The provider took the call, and nothing has said it is over. */
  predicate InTheAir(s: State, r: nat) {
    IsRung(s, r) && r !in s.ended
  }

  predicate About(cause: Cause, r: nat) {
    match cause
    case Refused(q) => q == r
    case HungUp(q) => q == r
    case Transcribed(call) => call == Some(r)
  }

  /** A release on account of a call is of a call that was refused or has ended. */
  predicate ReleasesAreAccounted(s: State) {
    forall k :: 0 <= k < |s.log| && s.log[k].Release? ==>
      match s.log[k].cause
      case Refused(r) => r in s.requests && s.requests[r].phase == Unplaced
      case HungUp(r) => r in s.ended
      case Transcribed(call) => call.Some? ==> call.value in s.ended
  }

  lemma ReleaseAccounts(s: State, user: int, cause: Cause)
    requires ReleasesAreAccounted(s)
    requires match cause
             case Refused(r) => r in s.requests && s.requests[r].phase == Unplaced
             case HungUp(r) => r in s.ended
             case Transcribed(call) => call.Some? ==> call.value in s.ended
    ensures ReleasesAreAccounted(Release(s, user, cause))
  {
  }

  lemma StepAccounts(s: State, e: Event)
    requires ReleasesAreAccounted(s)
    ensures ReleasesAreAccounted(Step(s, e))
  {
    match e.action
    case ProviderRefuses(r) =>
      if r in s.requests && s.requests[r].phase == Claimant {
        ReleaseAccounts(s.(requests := s.requests[r := s.requests[r].(phase := Unplaced)]), s.requests[r].user, Refused(r));
      }
    case HangUp(r) =>
      if IsRung(s, r) {
        ReleaseAccounts(s.(ended := s.ended + {r}), s.requests[r].user, HungUp(r));
      }
    case TranscriptArrives(user, call) =>
      if call.None? {
        ReleaseAccounts(s, user, Transcribed(None));
      } else if IsRung(s, call.value) {
        ReleaseAccounts(s.(ended := s.ended + {call.value}), user, Transcribed(call));
      }
    case Click(_, _) =>
    case StartCall(_) =>
    case ProviderRings(_) =>
  }

  lemma {:induction false} RunAccounts(users: set<int>, run: seq<Event>)
    ensures ReleasesAreAccounted(Run(users, run))
  {
    if run != [] {
      RunAccounts(users, run[..|run| - 1]);
      StepAccounts(Run(users, run[..|run| - 1]), run[|run| - 1]);
    }
  }

  /** A call still in the air is joined by a second one for the same person only if that one came
      more than the maximum later, or if the slot was released in between on account of some other
      call: its transcript, its hang-up or its refusal. */
  lemma SecondCallNeedsAnothersRelease(users: set<int>, run: seq<Event>, i: nat, j: nat)
    requires Ordered(run) && i < j < |Run(users, run).log|
    requires Run(users, run).log[i].Claim? && Run(users, run).log[j].Claim?
    requires Run(users, run).log[i].user == Run(users, run).log[j].user
    requires InTheAir(Run(users, run), Run(users, run).log[i].r)
    ensures var log := Run(users, run).log;
      || log[j].at - log[i].at > CALL_MAX
      || exists k :: i < k < j && Releases(log, log[i].user, k) && !About(log[k].cause, log[i].r)
  {
    var s := Run(users, run);
    ClaimsAreExclusive(users, run, i, j);
    RunAccounts(users, run);
    if !NoRelease(s.log, s.log[i].user, i, j) {
      var k :| i <= k < j && Releases(s.log, s.log[i].user, k);
      assert !About(s.log[k].cause, s.log[i].r);
    }
  }

  lemma RunSnoc(users: set<int>, run: seq<Event>, e: Event)
    ensures Run(users, run + [e]) == Step(Run(users, run), e)
  {
    assert (run + [e])[..|run|] == run;
  }

  /** A call from claim to provider. */
  function Placing(r: nat, user: int, at: Time): seq<Event> {
    [Event(Click(r, user), at)] + [Event(StartCall(r), at)] + [Event(ProviderRings(r), at)]
  }

  /** The state once a call has been claimed and taken by the provider. */
  function AfterPlacing(s: State, r: nat, user: int, at: Time): State {
    s.(calls := s.calls[user := Some(at)], requests := s.requests[r := Request(user, Rung)],
       log := s.log + [Claim(user, at, r)])
  }

  lemma PlacingSteps(s: State, r: nat, user: int, at: Time)
    requires user in s.calls && s.calls[user].None? && r !in s.requests
    ensures Step(Step(Step(s, Event(Click(r, user), at)), Event(StartCall(r), at)), Event(ProviderRings(r), at))
         == AfterPlacing(s, r, user, at)
  {
    var clicked := Step(s, Event(Click(r, user), at));
    assert clicked == s.(requests := s.requests[r := Request(user, Clicked)]);
    var claimed := Step(clicked, Event(StartCall(r), at));
    assert claimed.requests == s.requests[r := Request(user, Claimant)];
    assert claimed.requests[r := Request(user, Rung)] == s.requests[r := Request(user, Rung)];
  }

  /** With the slot free, a call goes through. */
  lemma PlacingRings(users: set<int>, run: seq<Event>, r: nat, user: int, at: Time)
    requires user in Run(users, run).calls && Run(users, run).calls[user].None? && r !in Run(users, run).requests
    ensures Run(users, run + Placing(r, user, at)) == AfterPlacing(Run(users, run), r, user, at)
  {
    var a, b, c := Event(Click(r, user), at), Event(StartCall(r), at), Event(ProviderRings(r), at);
    RunSnoc(users, run, a);
    RunSnoc(users, run + [a], b);
    RunSnoc(users, run + [a] + [b], c);
    assert run + Placing(r, user, at) == run + [a] + [b] + [c];
    PlacingSteps(Run(users, run), r, user, at);
  }

  /** A transcript of a call says it is over and frees the slot, whichever call holds it. */
  function AfterTranscript(s: State, user: int, r: nat): State {
    s.(calls := s.calls[user := None], ended := s.ended + {r},
       log := s.log + [Mark.Release(user, Transcribed(Some(r)))])
  }

  lemma TranscriptFrees(users: set<int>, run: seq<Event>, user: int, r: nat, at: Time)
    requires IsRung(Run(users, run), r) && Run(users, run).requests[r].user == user && user in Run(users, run).calls
    ensures Run(users, run + [Event(TranscriptArrives(user, Some(r)), at)]) == AfterTranscript(Run(users, run), user, r)
  {
    RunSnoc(users, run, Event(TranscriptArrives(user, Some(r)), at));
  }

  /** From a free slot: a call placed, an earlier call's transcript, and another call. */
  lemma TranscriptBetweenTwo(users: set<int>, run: seq<Event>, user: int, old0: nat, r: nat, q: nat, second: Time, third: Time)
    requires var s := Run(users, run);
      && IsRung(s, old0) && s.requests[old0].user == user && user in s.calls && s.calls[user].None?
      && r !in s.requests && q !in s.requests && r != q && r !in s.ended && q !in s.ended
    ensures var s := Run(users, run);
      var again := Event(TranscriptArrives(user, Some(old0)), third);
      var s' := Run(users, run + Placing(r, user, second) + [again] + Placing(q, user, third));
      && InTheAir(s', r) && InTheAir(s', q)
      && s'.ended == s.ended + {old0}
      && s'.log == s.log + [Claim(user, second, r), Mark.Release(user, Transcribed(Some(old0))), Claim(user, third, q)]
  {
    var again := Event(TranscriptArrives(user, Some(old0)), third);
    PlacingRings(users, run, r, user, second);
    TranscriptFrees(users, run + Placing(r, user, second), user, old0, third);
    PlacingRings(users, run + Placing(r, user, second) + [again], q, user, third);
  }

  /** The first call, and the transcript that says it is over. */
  lemma FirstCallIsOver(user: int, first: Time, done: Time)
    ensures var s := Run({user}, Placing(0, user, first) + [Event(TranscriptArrives(user, Some(0)), done)]);
      && IsRung(s, 0) && s.requests[0].user == user && user in s.calls && s.calls[user].None?
      && 1 !in s.requests && 2 !in s.requests && s.ended == {0}
      && s.log == [Claim(user, first, 0), Mark.Release(user, Transcribed(Some(0)))]
  {
    assert [] + Placing(0, user, first) == Placing(0, user, first);
    PlacingRings({user}, [], 0, user, first);
    TranscriptFrees({user}, Placing(0, user, first), user, 0, done);
  }

  /** And it does happen: the transcript of a call long over, delivered once more, frees the slot
      of the call now in the air, and the next click rings the same person a second time. */
  lemma OldTranscriptLetsASecondCallRing(user: int, first: Time, done: Time, second: Time, third: Time)
    requires first <= done <= second <= third
    ensures var told := Event(TranscriptArrives(user, Some(0)), done);
      var again := Event(TranscriptArrives(user, Some(0)), third);
      var run := Placing(0, user, first) + [told] + Placing(1, user, second) + [again] + Placing(2, user, third);
      var s := Run({user}, run);
      && InTheAir(s, 1) && InTheAir(s, 2) && !InTheAir(s, 0)
      && s.log == [Claim(user, first, 0), Mark.Release(user, Transcribed(Some(0))), Claim(user, second, 1),
                   Mark.Release(user, Transcribed(Some(0))), Claim(user, third, 2)]
  {
    var told := Event(TranscriptArrives(user, Some(0)), done);
    FirstCallIsOver(user, first, done);
    TranscriptBetweenTwo({user}, Placing(0, user, first) + [told], user, 0, 1, 2, second, third);
  }
}
