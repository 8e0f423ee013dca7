/** Post-call transcripts: one row per conversation, delivered by webhook or by sync, possibly
    before its number has signed up. */
module Transcripts {
  import opened Clock
  import opened Options
  import opened Text

  const RETENTION := 90 * DAY

  /** A transcript row.  `content` stands for the columns no rule looks at. */
  datatype Row = Row(id: int, owner: Option<int>, phone: string, conversation: string,
                     content: string, startedAt: Time)

  /** A transcript about to be saved. */
  datatype Delivery = Delivery(owner: Option<int>, phone: string, conversation: string,
                               content: string, startedAt: Time)

  /** The phone column of every profile. */
  type Users = map<int, string>

  datatype Db = Db(users: Users, rows: seq<Row>, nextUser: int, nextRow: int)

  // ----- queries ---------------------------------------------------------------------------

  ghost function UserByPhone(users: Users, phone: string): (u: Option<int>)
    ensures u.Some? ==> u.value in users && users[u.value] == phone
    ensures u.None? ==> forall v :: v in users ==> users[v] != phone
  {
    if v :| v in users && users[v] == phone then Some(v) else None
  }

  /** Which rows a profile may read: those attached to it, and unattached ones held for its
      number. */
  predicate Owned(users: Users, user: int, r: Row) {
    r.owner == Some(user) || (r.owner.None? && r.phone != "" && user in users && r.phone == users[user])
  }

  function View(users: Users, rows: seq<Row>, user: int): seq<Row> {
    if rows == [] then []
    else
      var r := rows[|rows| - 1];
      var rest := View(users, rows[..|rows| - 1], user);
      if Owned(users, user, r) then rest + [r] else rest
  }

  /** The simple story the ownership rule has to tell: all the calls with one number. */
  function CallsWith(rows: seq<Row>, phone: string): seq<Row> {
    if rows == [] then []
    else
      var r := rows[|rows| - 1];
      var rest := CallsWith(rows[..|rows| - 1], phone);
      if r.phone == phone then rest + [r] else rest
  }

  /** Where a conversation's row is, if it has one. */
  function Find(rows: seq<Row>, conversation: string): (i: int)
    ensures -1 <= i < |rows|
    ensures i >= 0 ==> rows[i].conversation == conversation
    ensures i < 0 ==> forall k :: 0 <= k < |rows| ==> rows[k].conversation != conversation
  {
    if rows == [] then -1
    else if rows[|rows| - 1].conversation == conversation then |rows| - 1
    else Find(rows[..|rows| - 1], conversation)
  }

  // ----- statements ------------------------------------------------------------------------

  predicate Storable(db: Db, t: Delivery) {
    && (t.owner.Some? || TrimSpace(t.phone) != "")
    && TrimSpace(t.conversation) != ""
    && (t.owner.Some? ==> t.owner.value in db.users)     // the foreign key
  }

  function Updated(r: Row, t: Delivery): Row {
    Row(r.id, if t.owner.Some? then t.owner else r.owner, t.phone, r.conversation, t.content, t.startedAt)
  }

  /** The upsert; refused deliveries change nothing. */
  function Save(db: Db, t: Delivery): Db {
    if !Storable(db, t) then db
    else
      var i := Find(db.rows, t.conversation);
      if i >= 0 then db.(rows := db.rows[i := Updated(db.rows[i], t)])
      else db.(rows := db.rows + [Row(db.nextRow, t.owner, t.phone, t.conversation, t.content, t.startedAt)],
               nextRow := db.nextRow + 1)
  }

  function Attach(users: Users, r: Row, user: int): Row {
    if r.owner.None? && user in users && r.phone == users[user] then r.(owner := Some(user)) else r
  }

  function AdoptRows(users: Users, rows: seq<Row>, user: int): (adopted: seq<Row>)
    ensures |adopted| == |rows|
    ensures forall i :: 0 <= i < |rows| ==> adopted[i] == Attach(users, rows[i], user)
  {
    if rows == [] then []
    else AdoptRows(users, rows[..|rows| - 1], user) + [Attach(users, rows[|rows| - 1], user)]
  }

  /** How many rows an adoption attaches: the unowned ones held for the profile's number. */
  function Adoptable(users: Users, rows: seq<Row>, user: int): nat {
    if rows == [] then 0
    else
      var r := rows[|rows| - 1];
      var rest := Adoptable(users, rows[..|rows| - 1], user);
      if r.owner.None? && user in users && r.phone == users[user] then rest + 1 else rest
  }

  predicate Doomed(users: Users, user: int, r: Row) {
    r.owner == Some(user) || (r.owner.None? && user in users && r.phone == users[user])
  }

  function ForgetRows(users: Users, rows: seq<Row>, user: int): seq<Row> {
    if rows == [] then []
    else
      var r := rows[|rows| - 1];
      var rest := ForgetRows(users, rows[..|rows| - 1], user);
      if Doomed(users, user, r) then rest else rest + [r]
  }

  function DeleteRows(users: Users, rows: seq<Row>, user: int, id: int): seq<Row> {
    if rows == [] then []
    else
      var r := rows[|rows| - 1];
      var rest := DeleteRows(users, rows[..|rows| - 1], user, id);
      if r.id == id && Owned(users, user, r) then rest else rest + [r]
  }

  function PurgeRows(rows: seq<Row>, cutoff: Time): seq<Row> {
    if rows == [] then []
    else
      var r := rows[|rows| - 1];
      var rest := PurgeRows(rows[..|rows| - 1], cutoff);
      if r.startedAt < cutoff then rest else rest + [r]
  }

  ghost function SignUp(db: Db, phone: string): Db {
    if UserByPhone(db.users, phone).Some? then db
    else db.(users := db.users[db.nextUser := phone], nextUser := db.nextUser + 1)
  }

  function Adopt(db: Db, user: int): Db {
    db.(rows := AdoptRows(db.users, db.rows, user))
  }

  function Forget(db: Db, user: int): Db {
    db.(rows := ForgetRows(db.users, db.rows, user), users := db.users - {user})
  }

  // ----- the store -------------------------------------------------------------------------

  class Store {
    var users: Users
    var rows: seq<Row>
    var nextUser: int
    var nextRow: int

    ghost function State(): Db
      reads this
    {
      Db(users, rows, nextUser, nextRow)
    }

    constructor ()
      ensures State() == Db(map[], [], 1, 1)
    {
      users, rows, nextUser, nextRow := map[], [], 1, 1;
    }

    method SaveTranscript(t: Delivery) returns (ok: bool)
      modifies this
      ensures ok == Storable(old(State()), t)
      ensures State() == Save(old(State()), t)
    {
      if t.owner.None? && TrimSpace(t.phone) == "" {
        return false;
      }
      if TrimSpace(t.conversation) == "" {
        return false;
      }
      if t.owner.Some? && t.owner.value !in users {
        return false;
      }
      var i := Find(rows, t.conversation);
      if i >= 0 {
        var owner := if t.owner.Some? then t.owner else rows[i].owner;
        rows := rows[i := rows[i].(owner := owner, phone := t.phone, content := t.content, startedAt := t.startedAt)];
        return true;
      }
      rows := rows + [Row(nextRow, t.owner, t.phone, t.conversation, t.content, t.startedAt)];
      nextRow := nextRow + 1;
      return true;
    }

    method AdoptTranscripts(user: int) returns (n: nat)
      modifies this`rows
      ensures rows == AdoptRows(users, old(rows), user)
      ensures n == Adoptable(users, old(rows), user)
    {
      n := 0;
      var i := 0;
      while i < |rows|
        invariant 0 <= i <= |rows| == |old(rows)|
        invariant forall k :: 0 <= k < i ==> rows[k] == Attach(users, old(rows)[k], user)
        invariant forall k :: i <= k < |rows| ==> rows[k] == old(rows)[k]
        invariant n == Adoptable(users, old(rows)[..i], user)
      {
        assert old(rows)[..i + 1][..i] == old(rows)[..i];
        if rows[i].owner.None? && user in users && rows[i].phone == users[user] {
          rows := rows[i := rows[i].(owner := Some(user))];
          n := n + 1;
        }
        i := i + 1;
      }
      assert old(rows)[..i] == old(rows);
    }

    /** One call, or nothing when it is somebody else's. */
    method Transcript(user: int, id: int) returns (found: Option<Row>)
      ensures found.Some? ==> found.value in rows && found.value.id == id && Owned(users, user, found.value)
      ensures found.None? ==> forall r :: r in rows && r.id == id ==> !Owned(users, user, r)
    {
      for i := 0 to |rows|
        invariant forall k :: 0 <= k < i ==> !(rows[k].id == id && Owned(users, user, rows[k]))
      {
        if rows[i].id == id && Owned(users, user, rows[i]) {
          return Some(rows[i]);
        }
      }
      return None;
    }

    method DeleteTranscript(user: int, id: int) returns (deleted: bool)
      modifies this`rows
      ensures rows == DeleteRows(users, old(rows), user, id)
      ensures deleted == exists r :: r in old(rows) && r.id == id && Owned(users, user, r)
    {
      deleted := false;
      var kept := [];
      for i := 0 to |rows|
        invariant rows == old(rows)
        invariant kept == DeleteRows(users, rows[..i], user, id)
        invariant deleted == exists k :: 0 <= k < i && rows[k].id == id && Owned(users, user, rows[k])
      {
        assert rows[..i + 1][..i] == rows[..i];
        if rows[i].id == id && Owned(users, user, rows[i]) {
          deleted := true;
        } else {
          kept := kept + [rows[i]];
        }
      }
      assert rows[..|rows|] == rows;
      rows := kept;
    }

    method PurgeExpiredTranscripts(now: Time) returns (n: nat)
      modifies this`rows
      ensures rows == PurgeRows(old(rows), now - RETENTION)
      ensures n == |old(rows)| - |rows|
    {
      var kept := [];
      for i := 0 to |rows|
        invariant rows == old(rows)
        invariant kept == PurgeRows(rows[..i], now - RETENTION)
        invariant |kept| <= i
      {
        assert rows[..i + 1][..i] == rows[..i];
        if rows[i].startedAt >= now - RETENTION {
          kept := kept + [rows[i]];
        }
      }
      assert rows[..|rows|] == rows;
      n := |rows| - |kept|;
      rows := kept;
    }

    method ForgetUser(user: int)
      modifies this`rows, this`users
      ensures State() == Forget(old(State()), user)
    {
      var kept := [];
      for i := 0 to |rows|
        invariant rows == old(rows) && users == old(users)
        invariant kept == ForgetRows(users, rows[..i], user)
      {
        assert rows[..i + 1][..i] == rows[..i];
        if !(rows[i].owner == Some(user)
             || (rows[i].owner.None? && user in users && rows[i].phone == users[user])) {
          kept := kept + [rows[i]];
        }
      }
      assert rows[..|rows|] == rows;
      rows := kept;
      users := users - {user};
    }

    /** Whose number this is.  Unknown numbers stay unknown: reading a call signs nobody up. */
    method LookUpOwner(phone: string) returns (owner: Option<int>)
      requires forall u, v :: u in users && v in users && users[u] == users[v] ==> u == v
      ensures owner == UserByPhone(users, phone)
    {
      if u :| u in users && users[u] == phone {
        return Some(u);
      }
      return None;
    }
  }
}
