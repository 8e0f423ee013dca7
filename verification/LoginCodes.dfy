/** Sign-in codes: issuing, consuming, discarding and purging, as atomic steps on the
    login_codes table, and what holds over every run of them. */
module LoginCodes {
  import opened Clock
  import opened Options
  import opened SlidingWindow

  const CODE_TTL := 10 * MINUTE
  const CODE_ATTEMPTS := 5
  const CODE_RATE := 3
  const CODE_WINDOW := 15 * MINUTE

  /** The stored hash of a code, taken to be injective. */
  datatype Digest = Sha256(secret: string)

  datatype Code = Code(id: int, phone: string, digest: Digest, attempts: int,
                       created: Time, expires: Time, consumed: Option<Time>)
  {
    predicate OpenFor(number: string) { phone == number && consumed.None? }
  }

  datatype Verdict = Accepted | Invalid | Expired | Exhausted

  // ----- the statements, as functions on the table -----------------------------------------

  /** When the rows for one number were created, in table order. */
  function Times(rows: seq<Code>, phone: string): seq<Time> {
    if rows == [] then []
    else
      var rest, r := Times(rows[..|rows| - 1], phone), rows[|rows| - 1];
      if r.phone == phone then rest + [r.created] else rest
  }

  function Recent(rows: seq<Code>, phone: string, since: Time): nat {
    |Live(Times(rows, phone), since)|
  }

  /** UPDATE login_codes SET consumed_at for the open codes of a number. */
  function Supersede(rows: seq<Code>, phone: string, now: Time): (r: seq<Code>)
    ensures |r| == |rows|
    ensures forall i :: 0 <= i < |rows| ==>
              r[i] == if rows[i].OpenFor(phone) then rows[i].(consumed := Some(now)) else rows[i]
  {
    if rows == [] then []
    else
      var last := rows[|rows| - 1];
      Supersede(rows[..|rows| - 1], phone, now) +
      [if last.OpenFor(phone) then last.(consumed := Some(now)) else last]
  }

  function NewCode(id: int, phone: string, secret: string, now: Time): Code {
    Code(id, phone, Sha256(secret), 0, now, now + CODE_TTL, None)
  }

  /** DELETE FROM login_codes for the open codes of a number. */
  function DropOpen(rows: seq<Code>, phone: string): seq<Code> {
    if rows == [] then []
    else
      var rest, last := DropOpen(rows[..|rows| - 1], phone), rows[|rows| - 1];
      if last.OpenFor(phone) then rest else rest + [last]
  }

  /** DELETE FROM login_codes of rows that expired before `cutoff`. */
  function DropExpired(rows: seq<Code>, cutoff: Time): seq<Code> {
    if rows == [] then []
    else
      var rest, last := DropExpired(rows[..|rows| - 1], cutoff), rows[|rows| - 1];
      if last.expires < cutoff then rest else rest + [last]
  }

  /** DELETE FROM login_codes for one number. */
  function DropNumber(rows: seq<Code>, phone: string): seq<Code> {
    if rows == [] then []
    else
      var rest, last := DropNumber(rows[..|rows| - 1], phone), rows[|rows| - 1];
      if last.phone == phone then rest else rest + [last]
  }

  /** Where the newest open code of a number is, by creation time and then id. */
  function Newest(rows: seq<Code>, phone: string): (at: Option<nat>)
    ensures at.Some? ==> at.value < |rows| && rows[at.value].OpenFor(phone)
    ensures at.None? ==> forall i :: 0 <= i < |rows| ==> !rows[i].OpenFor(phone)
  {
    if rows == [] then None
    else
      var n := |rows| - 1;
      var best := Newest(rows[..n], phone);
      if !rows[n].OpenFor(phone) then best
      else if best.None? || Later(rows[n], rows[best.value]) then Some(n)
      else best
  }

  predicate Later(a: Code, b: Code) {
    a.created > b.created || (a.created == b.created && a.id > b.id)
  }

  datatype Judged = Judged(code: Code, verdict: Verdict)

  /** What checking a secret does to the row it is checked against. */
  function Judge(c: Code, secret: string, now: Time): Judged {
    if now > c.expires then Judged(c.(consumed := Some(now)), Expired)
    else if c.attempts >= CODE_ATTEMPTS then Judged(c.(consumed := Some(now)), Exhausted)
    else if c.digest != Sha256(secret) then
      var missed := c.(attempts := c.attempts + 1);
      Judged(if c.attempts + 1 >= CODE_ATTEMPTS then missed.(consumed := Some(now)) else missed, Invalid)
    else Judged(c.(consumed := Some(now)), Accepted)
  }

  // ----- the store -------------------------------------------------------------------------

  class Store {
    var rows: seq<Code>
    var nextId: int

    constructor ()
      ensures rows == [] && nextId == 1
    {
      rows, nextId := [], 1;
    }

    /** SELECT COUNT(*) of a number's codes created after `since`. */
    method CountRecent(phone: string, since: Time) returns (recent: nat)
      ensures recent == Recent(rows, phone, since)
    {
      recent := 0;
      for i := 0 to |rows|
        invariant recent == Recent(rows[..i], phone, since)
      {
        assert rows[..i + 1][..i] == rows[..i];
        LiveSnoc(Times(rows[..i], phone), rows[i].created, since);
        if rows[i].phone != phone {
          assert Times(rows[..i + 1], phone) == Times(rows[..i], phone);
        } else if rows[i].created > since {
          recent := recent + 1;
        }
      }
      assert rows[..|rows|] == rows;
    }

    method SpendOpen(phone: string, now: Time)
      modifies this`rows
      ensures rows == Supersede(old(rows), phone, now)
    {
      for i := 0 to |rows|
        invariant |rows| == |old(rows)|
        invariant forall k :: 0 <= k < i ==>
                    rows[k] == if old(rows)[k].OpenFor(phone) then old(rows)[k].(consumed := Some(now)) else old(rows)[k]
        invariant forall k :: i <= k < |rows| ==> rows[k] == old(rows)[k]
      {
        if rows[i].OpenFor(phone) {
          rows := rows[i := rows[i].(consumed := Some(now))];
        }
      }
    }

    /** Refuses when the number has used its budget; otherwise every open code is spent and a
        new one added. */
    method IssueLoginCode(phone: string, secret: string, now: Time) returns (ok: bool)
      modifies this
      ensures ok == (Recent(old(rows), phone, now - CODE_WINDOW) < CODE_RATE)
      ensures !ok ==> rows == old(rows) && nextId == old(nextId)
      ensures ok ==> nextId == old(nextId) + 1
      ensures ok ==> rows == Supersede(old(rows), phone, now) + [NewCode(old(nextId), phone, secret, now)]
    {
      var recent := CountRecent(phone, now - CODE_WINDOW);
      if recent >= CODE_RATE {
        return false;
      }
      SpendOpen(phone, now);
      rows := rows + [NewCode(nextId, phone, secret, now)];
      nextId := nextId + 1;
      return true;
    }

    method DiscardLoginCode(phone: string)
      modifies this`rows
      ensures rows == DropOpen(old(rows), phone)
    {
      var kept := [];
      for i := 0 to |rows|
        invariant kept == DropOpen(rows[..i], phone)
        invariant rows == old(rows)
      {
        assert rows[..i + 1][..i] == rows[..i];
        if !rows[i].OpenFor(phone) {
          kept := kept + [rows[i]];
        }
      }
      assert rows[..|rows|] == rows;
      rows := kept;
    }

    method ConsumeLoginCode(phone: string, secret: string, now: Time) returns (verdict: Verdict)
      modifies this`rows
      ensures Newest(old(rows), phone).None? ==> verdict == Invalid && rows == old(rows)
      ensures var at := Newest(old(rows), phone);
              at.Some? ==> var judged := Judge(old(rows)[at.value], secret, now);
                           verdict == judged.verdict && rows == old(rows)[at.value := judged.code]
    {
      var found: int := -1;
      for i := 0 to |rows|
        invariant rows == old(rows)
        invariant -1 <= found < i
        invariant Newest(rows[..i], phone) == if found < 0 then None else Some(found)
      {
        assert rows[..i + 1][..i] == rows[..i];
        if rows[i].OpenFor(phone) {
          if found < 0 || Later(rows[i], rows[found]) {
            found := i;
          }
        }
      }
      assert rows[..|rows|] == rows;
      if found < 0 {
        return Invalid;
      }
      var code := rows[found];
      if now > code.expires {
        rows := rows[found := code.(consumed := Some(now))];
        return Expired;
      }
      if code.attempts >= CODE_ATTEMPTS {
        rows := rows[found := code.(consumed := Some(now))];
        return Exhausted;
      }
      if code.digest != Sha256(secret) {
        rows := rows[found := rows[found].(attempts := code.attempts + 1)];
        if code.attempts + 1 >= CODE_ATTEMPTS {
          rows := rows[found := rows[found].(consumed := Some(now))];
        }
        return Invalid;
      }
      rows := rows[found := code.(consumed := Some(now))];
      return Accepted;
    }

    method PurgeExpired(now: Time)
      modifies this`rows
      ensures rows == DropExpired(old(rows), now - CODE_WINDOW)
    {
      var kept := [];
      for i := 0 to |rows|
        invariant kept == DropExpired(rows[..i], now - CODE_WINDOW)
        invariant rows == old(rows)
      {
        assert rows[..i + 1][..i] == rows[..i];
        if rows[i].expires >= now - CODE_WINDOW {
          kept := kept + [rows[i]];
        }
      }
      assert rows[..|rows|] == rows;
      rows := kept;
    }

    /** What erasing a profile does to the codes of its number. */
    method EraseNumber(phone: string)
      modifies this`rows
      ensures rows == DropNumber(old(rows), phone)
    {
      var kept := [];
      for i := 0 to |rows|
        invariant kept == DropNumber(rows[..i], phone)
        invariant rows == old(rows)
      {
        assert rows[..i + 1][..i] == rows[..i];
        if rows[i].phone != phone {
          kept := kept + [rows[i]];
        }
      }
      assert rows[..|rows|] == rows;
      rows := kept;
    }
  }
}
