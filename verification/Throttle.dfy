/** The three limits every login code request goes through, applied in order: per client, then
    a per-number cooldown, then the per-number budget.  A later limiter only sees what the
    earlier ones let through. */
module Throttle {
  import opened Clock
  import opened SlidingWindow
  import opened Limiter

  const LOGIN_LIMIT := 10
  const LOGIN_WINDOW := 5 * MINUTE
  const COOLDOWN_LIMIT := 1
  const COOLDOWN_WINDOW := 30 * SECOND
  const BUDGET_LIMIT := 3
  const BUDGET_WINDOW := 15 * MINUTE

  datatype Stage = Client | Cooldown | Budget | Accepted

  /** Which limit turns a request away, given the three logs it is checked against. */
  function Verdict(client: seq<Time>, cooldown: seq<Time>, budget: seq<Time>, now: Time): Stage {
    if TakeHit(client, LOGIN_LIMIT, LOGIN_WINDOW, now).decision.Refused? then Client
    else NumberVerdict(cooldown, budget, now)
  }

  function NumberVerdict(cooldown: seq<Time>, budget: seq<Time>, now: Time): Stage {
    if TakeHit(cooldown, COOLDOWN_LIMIT, COOLDOWN_WINDOW, now).decision.Refused? then Cooldown
    else if TakeHit(budget, BUDGET_LIMIT, BUDGET_WINDOW, now).decision.Refused? then Budget
    else Accepted
  }

  /** How long a number refused by either of its limits is told to wait. */
  function NumberWait(cooldown: seq<Time>, budget: seq<Time>, now: Time): int {
    match TakeHit(cooldown, COOLDOWN_LIMIT, COOLDOWN_WINDOW, now).decision
    case Refused(wait) => wait
    case Allowed =>
      match TakeHit(budget, BUDGET_LIMIT, BUDGET_WINDOW, now).decision
      case Refused(wait) => wait
      case Allowed => 0
  }

  class CodeThrottle {
    const login: IPLimiter
    const cooldown: IPLimiter
    const budget: IPLimiter

    ghost predicate Valid()
      reads this, login, cooldown, budget
    {
      && login != cooldown && login != budget && cooldown != budget
      && login.Valid() && login.limit == LOGIN_LIMIT && login.window == LOGIN_WINDOW
      && cooldown.Valid() && cooldown.limit == COOLDOWN_LIMIT && cooldown.window == COOLDOWN_WINDOW
      && budget.Valid() && budget.limit == BUDGET_LIMIT && budget.window == BUDGET_WINDOW
      && login.Buffers() !! cooldown.Buffers()
      && login.Buffers() !! budget.Buffers()
      && cooldown.Buffers() !! budget.Buffers()
    }

    constructor ()
      ensures Valid()
      ensures forall key :: login.Log(key) == cooldown.Log(key) == budget.Log(key) == []
    {
      login := new IPLimiter(LOGIN_LIMIT, LOGIN_WINDOW);
      cooldown := new IPLimiter(COOLDOWN_LIMIT, COOLDOWN_WINDOW);
      budget := new IPLimiter(BUDGET_LIMIT, BUDGET_WINDOW);
    }

    /** One hit at the limiter kept per client; the other two are out of its reach. */
    method TakeClient(ip: string, now: Time) returns (ok: bool)
      requires Valid()
      modifies login, login.Buffers()
      ensures Valid() && fresh(login.Buffers() - old(login.Buffers()))
      ensures ok == TakeHit(old(login.Log(ip)), LOGIN_LIMIT, LOGIN_WINDOW, now).decision.Allowed?
      ensures login.Log(ip) == TakeHit(old(login.Log(ip)), LOGIN_LIMIT, LOGIN_WINDOW, now).log
      ensures forall other :: other != ip ==> login.Log(other) == old(login.Log(other))
      ensures unchanged(cooldown) && unchanged(budget)
      ensures forall p :: cooldown.Log(p) == old(cooldown.Log(p)) && budget.Log(p) == old(budget.Log(p))
    {
      assert forall p :: p in cooldown.hits ==> cooldown.hits[p].buf in cooldown.Buffers();
      assert forall p :: p in budget.hits ==> budget.hits[p].buf in budget.Buffers();
      var wait;
      ok, wait := login.Take(ip, now);
      assert cooldown.Buffers() == old(cooldown.Buffers()) && budget.Buffers() == old(budget.Buffers());
    }

    method TakeCooldown(phone: string, now: Time) returns (ok: bool, wait: int)
      requires Valid()
      modifies cooldown, cooldown.Buffers()
      ensures Valid() && fresh(cooldown.Buffers() - old(cooldown.Buffers()))
      ensures TakeHit(old(cooldown.Log(phone)), COOLDOWN_LIMIT, COOLDOWN_WINDOW, now)
           == Outcome(cooldown.Log(phone), if ok then Allowed else Refused(wait))
      ensures forall other :: other != phone ==> cooldown.Log(other) == old(cooldown.Log(other))
      ensures unchanged(login) && unchanged(budget)
      ensures forall p :: login.Log(p) == old(login.Log(p)) && budget.Log(p) == old(budget.Log(p))
    {
      assert forall p :: p in login.hits ==> login.hits[p].buf in login.Buffers();
      assert forall p :: p in budget.hits ==> budget.hits[p].buf in budget.Buffers();
      ok, wait := cooldown.Take(phone, now);
      assert login.Buffers() == old(login.Buffers()) && budget.Buffers() == old(budget.Buffers());
    }

    method TakeBudget(phone: string, now: Time) returns (ok: bool, wait: int)
      requires Valid()
      modifies budget, budget.Buffers()
      ensures Valid() && fresh(budget.Buffers() - old(budget.Buffers()))
      ensures TakeHit(old(budget.Log(phone)), BUDGET_LIMIT, BUDGET_WINDOW, now)
           == Outcome(budget.Log(phone), if ok then Allowed else Refused(wait))
      ensures forall other :: other != phone ==> budget.Log(other) == old(budget.Log(other))
      ensures unchanged(login) && unchanged(cooldown)
      ensures forall p :: login.Log(p) == old(login.Log(p)) && cooldown.Log(p) == old(cooldown.Log(p))
    {
      assert forall p :: p in login.hits ==> login.hits[p].buf in login.Buffers();
      assert forall p :: p in cooldown.hits ==> cooldown.hits[p].buf in cooldown.Buffers();
      ok, wait := budget.Take(phone, now);
      assert login.Buffers() == old(login.Buffers()) && cooldown.Buffers() == old(cooldown.Buffers());
    }

    /** The two limits kept per number. */
    method ThrottleNumber(phone: string, now: Time) returns (stage: Stage, wait: int)
      requires Valid()
      modifies cooldown, budget, cooldown.Buffers(), budget.Buffers()
      ensures Valid()
      ensures stage == NumberVerdict(old(cooldown.Log(phone)), old(budget.Log(phone)), now)
      ensures wait == NumberWait(old(cooldown.Log(phone)), old(budget.Log(phone)), now)
      ensures cooldown.Log(phone) == TakeHit(old(cooldown.Log(phone)), COOLDOWN_LIMIT, COOLDOWN_WINDOW, now).log
      ensures budget.Log(phone) == if stage == Cooldown then old(budget.Log(phone))
                                   else TakeHit(old(budget.Log(phone)), BUDGET_LIMIT, BUDGET_WINDOW, now).log
      ensures forall p :: login.Log(p) == old(login.Log(p))
      ensures forall p :: p != phone ==> cooldown.Log(p) == old(cooldown.Log(p)) && budget.Log(p) == old(budget.Log(p))
    {
      var ok;
      ok, wait := TakeCooldown(phone, now);
      if !ok {
        return Cooldown, wait;
      }
      ok, wait := TakeBudget(phone, now);
      if !ok {
        return Budget, wait;
      }
      return Accepted, 0;
    }

    /** A hit is recorded by every limiter the request reached, including the one refusing it
        only when that one allowed it: a request refused by the budget still restarts the
        cooldown, and one refused by the cooldown still costs the client.  Nothing is recorded for
        anybody else. */
    method ThrottleCode(ip: string, phone: string, now: Time) returns (stage: Stage, wait: int)
      requires Valid()
      modifies login, cooldown, budget, login.Buffers(), cooldown.Buffers(), budget.Buffers()
      ensures Valid()
      ensures stage == Verdict(old(login.Log(ip)), old(cooldown.Log(phone)), old(budget.Log(phone)), now)
      ensures wait == if stage == Client then 0 else NumberWait(old(cooldown.Log(phone)), old(budget.Log(phone)), now)
      ensures login.Log(ip) == TakeHit(old(login.Log(ip)), LOGIN_LIMIT, LOGIN_WINDOW, now).log
      ensures cooldown.Log(phone) == if stage == Client then old(cooldown.Log(phone))
                                     else TakeHit(old(cooldown.Log(phone)), COOLDOWN_LIMIT, COOLDOWN_WINDOW, now).log
      ensures budget.Log(phone) == if stage == Client || stage == Cooldown then old(budget.Log(phone))
                                   else TakeHit(old(budget.Log(phone)), BUDGET_LIMIT, BUDGET_WINDOW, now).log
      ensures forall other :: other != ip ==> login.Log(other) == old(login.Log(other))
      ensures forall p :: p != phone ==> cooldown.Log(p) == old(cooldown.Log(p)) && budget.Log(p) == old(budget.Log(p))
    {
      var ok := TakeClient(ip, now);
      if !ok {
        return Client, 0;
      }
      stage, wait := ThrottleNumber(phone, now);
    }
  }

  // ----- runs -----------------------------------------------------------------------------

  datatype Request = Request(ip: string, phone: string, at: Time)

  predicate InOrder(reqs: seq<Request>) {
    forall i, j :: 0 <= i < j < |reqs| ==> reqs[i].at <= reqs[j].at
  }

  /** The hits each limiter has been asked to take, in order. */
  datatype Asked = Asked(client: seq<Hit>, cooldown: seq<Hit>, budget: seq<Hit>)

  /** Where the next request gets to, at the logs the three limiters keep. */
  function StageAt(a: Asked, r: Request): Stage {
    Verdict(Kept(a.client, r.ip, LOGIN_LIMIT, LOGIN_WINDOW),
            Kept(a.cooldown, r.phone, COOLDOWN_LIMIT, COOLDOWN_WINDOW),
            Kept(a.budget, r.phone, BUDGET_LIMIT, BUDGET_WINDOW), r.at)
  }

  /** A limiter is only asked about what the ones before it let through. */
  function Asking(a: Asked, r: Request): Asked {
    var stage := StageAt(a, r);
    Asked(a.client + [Hit(r.ip, r.at)],
          if stage == Client then a.cooldown else a.cooldown + [Hit(r.phone, r.at)],
          if stage == Client || stage == Cooldown then a.budget else a.budget + [Hit(r.phone, r.at)])
  }

  function Seen(reqs: seq<Request>): (a: Asked)
    ensures |a.client| == |reqs|
  {
    if reqs == [] then Asked([], [], []) else Asking(Seen(reqs[..|reqs| - 1]), reqs[|reqs| - 1])
  }

  /** When the requests for one number that were let through were made. */
  function AcceptedFor(reqs: seq<Request>, phone: string): seq<Time> {
    if reqs == [] then []
    else
      var front, r := reqs[..|reqs| - 1], reqs[|reqs| - 1];
      if r.phone == phone && StageAt(Seen(front), r) == Accepted
      then AcceptedFor(front, phone) + [r.at] else AcceptedFor(front, phone)
  }

  /** The calls one after another keep just these logs: what a call of the throttle ensures of each
      limiter is what asking it over the run amounts to. */
  lemma LogsFollow(a: Asked, r: Request, ip: string, phone: string)
    ensures var stage := StageAt(a, r);
      var a' := Asking(a, r);
      var client, cooldown, budget := Kept(a.client, ip, LOGIN_LIMIT, LOGIN_WINDOW),
        Kept(a.cooldown, phone, COOLDOWN_LIMIT, COOLDOWN_WINDOW), Kept(a.budget, phone, BUDGET_LIMIT, BUDGET_WINDOW);
      && Kept(a'.client, ip, LOGIN_LIMIT, LOGIN_WINDOW)
         == (if ip == r.ip then TakeHit(client, LOGIN_LIMIT, LOGIN_WINDOW, r.at).log else client)
      && Kept(a'.cooldown, phone, COOLDOWN_LIMIT, COOLDOWN_WINDOW)
         == (if phone == r.phone && stage != Client then TakeHit(cooldown, COOLDOWN_LIMIT, COOLDOWN_WINDOW, r.at).log
             else cooldown)
      && Kept(a'.budget, phone, BUDGET_LIMIT, BUDGET_WINDOW)
         == (if phone == r.phone && (stage == Budget || stage == Accepted)
             then TakeHit(budget, BUDGET_LIMIT, BUDGET_WINDOW, r.at).log else budget)
  {
    KeptSnoc(a.client, Hit(r.ip, r.at), ip, LOGIN_LIMIT, LOGIN_WINDOW);
    KeptSnoc(a.cooldown, Hit(r.phone, r.at), phone, COOLDOWN_LIMIT, COOLDOWN_WINDOW);
    KeptSnoc(a.budget, Hit(r.phone, r.at), phone, BUDGET_LIMIT, BUDGET_WINDOW);
  }

  lemma KeptSnoc(run: seq<Hit>, hit: Hit, key: string, limit: int, window: int)
    requires limit >= 1
    ensures Kept(run + [hit], key, limit, window)
         == if hit.key == key then TakeHit(Kept(run, key, limit, window), limit, window, hit.at).log
            else Kept(run, key, limit, window)
  {
    assert (run + [hit])[..|run|] == run;
  }

  lemma {:induction false} SeenInOrder(reqs: seq<Request>, now: Time)
    requires InOrder(reqs) && (forall i :: 0 <= i < |reqs| ==> reqs[i].at <= now)
    ensures Ordered(Seen(reqs).client) && Before(Seen(reqs).client, now)
    ensures Ordered(Seen(reqs).cooldown) && Before(Seen(reqs).cooldown, now)
    ensures Ordered(Seen(reqs).budget) && Before(Seen(reqs).budget, now)
  {
    if reqs != [] {
      SeenInOrder(reqs[..|reqs| - 1], reqs[|reqs| - 1].at);
    }
  }

  lemma HistorySnoc(run: seq<Hit>, hit: Hit, key: string, limit: int, window: int)
    requires limit >= 1
    ensures History(run + [hit], key, limit, window)
         == if hit.key == key && TakeHit(Kept(run, key, limit, window), limit, window, hit.at).decision.Allowed?
            then History(run, key, limit, window) + [hit.at]
            else History(run, key, limit, window)
  {
    assert (run + [hit])[..|run|] == run;
  }

  // ----- which requests get through --------------------------------------------------------------

  /** How many hits of one key were allowed in the window that ends now. */
  function InWindow(run: seq<Hit>, key: string, limit: int, window: int, now: Time): nat
    requires limit >= 1
  {
    WindowCount(History(run, key, limit, window), window, now)
  }

  lemma RefusedExactlyWhen(run: seq<Hit>, key: string, limit: int, window: int, now: Time)
    requires limit >= 1 && window >= 0 && Ordered(run) && Before(run, now)
    ensures TakeHit(Kept(run, key, limit, window), limit, window, now).decision.Refused?
       <==> InWindow(run, key, limit, window, now) >= limit
  {
    TakeAgreesWithHistory(run, key, limit, window, now);
  }

  /** Over every run, a request is turned away by the first limit that is used up, counting only what
      that limit allowed before: ten of its client's in five minutes, then one of its number's in
      thirty seconds, then three of its number's in fifteen minutes.  Otherwise it goes through. */
  lemma StageIsTheFirstLimitUsedUp(reqs: seq<Request>, r: Request)
    requires InOrder(reqs) && forall i :: 0 <= i < |reqs| ==> reqs[i].at <= r.at
    ensures var a := Seen(reqs);
      var client := InWindow(a.client, r.ip, 10, 5 * MINUTE, r.at) >= 10;
      var cooldown := InWindow(a.cooldown, r.phone, 1, 30 * SECOND, r.at) >= 1;
      var budget := InWindow(a.budget, r.phone, 3, 15 * MINUTE, r.at) >= 3;
      && (StageAt(a, r) == Client <==> client)
      && (StageAt(a, r) == Cooldown <==> !client && cooldown)
      && (StageAt(a, r) == Budget <==> !client && !cooldown && budget)
      && (StageAt(a, r) == Accepted <==> !client && !cooldown && !budget)
  {
    SeenInOrder(reqs, r.at);
    RefusedExactlyWhen(Seen(reqs).client, r.ip, LOGIN_LIMIT, LOGIN_WINDOW, r.at);
    RefusedExactlyWhen(Seen(reqs).cooldown, r.phone, COOLDOWN_LIMIT, COOLDOWN_WINDOW, r.at);
    RefusedExactlyWhen(Seen(reqs).budget, r.phone, BUDGET_LIMIT, BUDGET_WINDOW, r.at);
  }

  /** Every request that was let through is on the budget's record, and nothing else is. */
  lemma {:induction false} BudgetRecordsTheAccepted(reqs: seq<Request>, phone: string)
    ensures History(Seen(reqs).budget, phone, BUDGET_LIMIT, BUDGET_WINDOW) == AcceptedFor(reqs, phone)
  {
    if reqs != [] {
      var front, r := reqs[..|reqs| - 1], reqs[|reqs| - 1];
      BudgetRecordsTheAccepted(front, phone);
      HistorySnoc(Seen(front).budget, Hit(r.phone, r.at), phone, BUDGET_LIMIT, BUDGET_WINDOW);
    }
  }

  /** Whatever was let through, the cooldown had allowed. */
  lemma {:induction false} AcceptedWithinCooldown(reqs: seq<Request>, phone: string, window: int, end: Time)
    ensures WindowCount(AcceptedFor(reqs, phone), window, end)
         <= WindowCount(History(Seen(reqs).cooldown, phone, COOLDOWN_LIMIT, COOLDOWN_WINDOW), window, end)
  {
    if reqs != [] {
      var front, r := reqs[..|reqs| - 1], reqs[|reqs| - 1];
      AcceptedWithinCooldown(front, phone, window, end);
      HistorySnoc(Seen(front).cooldown, Hit(r.phone, r.at), phone, COOLDOWN_LIMIT, COOLDOWN_WINDOW);
      WindowCountSnoc(History(Seen(front).cooldown, phone, COOLDOWN_LIMIT, COOLDOWN_WINDOW), r.at, window, end);
      WindowCountSnoc(AcceptedFor(front, phone), r.at, window, end);
    }
  }

  /** However the requests are spread over clients and numbers, no number ever gets more than
      one request through in thirty seconds or more than three in fifteen minutes. */
  lemma NoNumberIsFlooded(reqs: seq<Request>, phone: string)
    requires InOrder(reqs)
    ensures WithinBudget(AcceptedFor(reqs, phone), COOLDOWN_WINDOW, COOLDOWN_LIMIT)
    ensures WithinBudget(AcceptedFor(reqs, phone), BUDGET_WINDOW, BUDGET_LIMIT)
  {
    SeenInOrder(reqs, if reqs == [] then 0 else reqs[|reqs| - 1].at);
    NoWindowOverBudget(Seen(reqs).cooldown, phone, COOLDOWN_LIMIT, COOLDOWN_WINDOW);
    NoWindowOverBudget(Seen(reqs).budget, phone, BUDGET_LIMIT, BUDGET_WINDOW);
    BudgetRecordsTheAccepted(reqs, phone);
    forall end ensures WindowCount(AcceptedFor(reqs, phone), COOLDOWN_WINDOW, end) <= COOLDOWN_LIMIT {
      AcceptedWithinCooldown(reqs, phone, COOLDOWN_WINDOW, end);
    }
  }

  /** The wait a refused number is told is how long it takes for the oldest request that counts
      against it to leave the window of the limit that refused it, and never less than a second. */
  lemma {:induction false} WaitIsForTheLimitThatRefused(reqs: seq<Request>, r: Request)
    requires InOrder(reqs) && forall i :: 0 <= i < |reqs| ==> reqs[i].at <= r.at
    ensures var a := Seen(reqs);
      var cooldown, budget := Kept(a.cooldown, r.phone, COOLDOWN_LIMIT, COOLDOWN_WINDOW),
        Kept(a.budget, r.phone, BUDGET_LIMIT, BUDGET_WINDOW);
      && (StageAt(a, r) == Cooldown ==>
            WaitsFor(NumberWait(cooldown, budget, r.at), cooldown, 30 * SECOND, r.at))
      && (StageAt(a, r) == Budget ==>
            WaitsFor(NumberWait(cooldown, budget, r.at), budget, 15 * MINUTE, r.at))
      && (StageAt(a, r) == Accepted ==> NumberWait(cooldown, budget, r.at) == 0)
  {
  }

  /** The oldest entry of `log` inside the window has left it after `wait`, and no sooner unless that
      is within a second. */
  predicate WaitsFor(wait: int, log: seq<Time>, window: int, now: Time) {
    var live := Live(log, now - window);
    && live != [] && now + wait >= live[0] + window && wait >= SECOND
    && (wait > SECOND ==> now + wait == live[0] + window)
  }
}
