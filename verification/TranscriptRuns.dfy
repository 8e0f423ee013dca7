/** What holds in every interleaving of deliveries, sign-up, adoption, deletion, retention and
    erasure. */
module TranscriptRuns {
  import opened Clock
  import opened Options
  import opened Text
  import opened Transcripts

  /** The database, and deliveries that have looked up an owner but not saved yet. */
  datatype World = World(db: Db, pending: map<nat, Delivery>)

  datatype Action =
    | Receive(d: nat, phone: string, conversation: string, content: string, startedAt: Time)
    | SaveStep(d: nat)
    | SignUpStep(phone: string)
    | AdoptStep(user: int)
    | DeleteStep(user: int, id: int)
    | PurgeStep(now: Time)
    | ForgetStep(user: int)

  const START := World(Db(map[], [], 1, 1), map[])

  /** A number in international form: never blank. */
  predicate UsableNumber(phone: string) {
    TrimSpace(phone) != "" && phone != ""
  }

  ghost function Step(w: World, a: Action): World {
    match a
    case Receive(d, phone, conversation, content, startedAt) =>
      if !UsableNumber(phone) || d in w.pending then w
      else w.(pending := w.pending[d :=
        Delivery(UserByPhone(w.db.users, phone), phone, conversation, content, startedAt)])
    case SaveStep(d) =>
      if d !in w.pending then w else World(Save(w.db, w.pending[d]), w.pending - {d})
    case SignUpStep(phone) => w.(db := SignUp(w.db, phone))
    case AdoptStep(user) => w.(db := Adopt(w.db, user))
    case DeleteStep(user, id) => w.(db := w.db.(rows := DeleteRows(w.db.users, w.db.rows, user, id)))
    case PurgeStep(now) => w.(db := w.db.(rows := PurgeRows(w.db.rows, now - RETENTION)))
    case ForgetStep(user) => w.(db := Forget(w.db, user))
  }

  ghost function Run(run: seq<Action>): World {
    if run == [] then START else Step(Run(run[..|run| - 1]), run[|run| - 1])
  }

  /** One number per conversation: a call is placed to one number and stays with it. */
  predicate OneNumberEach(run: seq<Action>, number: string -> string) {
    forall i :: 0 <= i < |run| && run[i].Receive? ==> run[i].phone == number(run[i].conversation)
  }

  // ----- the invariant -----------------------------------------------------------------------

  predicate NumbersAreUnique(users: Users) {
    forall u, v :: u in users && v in users && users[u] == users[v] ==> u == v
  }

  predicate RowSound(db: Db, number: string -> string, r: Row) {
    && r.id < db.nextRow && r.phone != "" && r.phone == number(r.conversation)
    && (r.owner.Some? ==> r.owner.value in db.users && db.users[r.owner.value] == r.phone)
  }

  predicate RowsSound(db: Db, number: string -> string) {
    && (forall i :: 0 <= i < |db.rows| ==> RowSound(db, number, db.rows[i]))
    && (forall i, j :: 0 <= i < j < |db.rows| ==>
          db.rows[i].conversation != db.rows[j].conversation && db.rows[i].id < db.rows[j].id)
  }

  /** A delivery that found an owner found the profile with its number; that profile may be gone
      by now, and ids are not reused. */
  predicate DeliverySound(db: Db, number: string -> string, t: Delivery) {
    && t.phone != "" && t.phone == number(t.conversation)
    && (t.owner.Some? ==> t.owner.value < db.nextUser)
    && (t.owner.Some? && t.owner.value in db.users ==> db.users[t.owner.value] == t.phone)
  }

  predicate Inv(w: World, number: string -> string) {
    && NumbersAreUnique(w.db.users)
    && (forall u :: u in w.db.users ==> u < w.db.nextUser)
    && RowsSound(w.db, number)
    && (forall d :: d in w.pending ==> DeliverySound(w.db, number, w.pending[d]))
  }

  lemma SaveKeepsRows(db: Db, number: string -> string, t: Delivery)
    requires RowsSound(db, number) && DeliverySound(db, number, t)
    ensures RowsSound(Save(db, t), number)
  {
  }

  /** A subsequence of the rows, as every DELETE leaves. */
  predicate PartOf(part: seq<Row>, rows: seq<Row>) {
    && (forall i :: 0 <= i < |part| ==> part[i] in rows)
    && (forall i, j :: 0 <= i < j < |part| ==> part[i].id < part[j].id)
  }

  predicate IdsIncrease(rows: seq<Row>) {
    forall i, j :: 0 <= i < j < |rows| ==> rows[i].id < rows[j].id
  }

  lemma PartSnoc(part: seq<Row>, front: seq<Row>, last: Row)
    requires PartOf(part, front) && IdsIncrease(front + [last])
    ensures PartOf(part, front + [last]) && PartOf(part + [last], front + [last])
  {
    forall i | 0 <= i < |part| ensures part[i].id < last.id {
      assert part[i] in front;
      var k :| 0 <= k < |front| && front[k] == part[i];
      assert (front + [last])[k].id < (front + [last])[|front|].id;
    }
  }

  lemma {:induction false} DeleteIsPart(users: Users, rows: seq<Row>, user: int, id: int)
    requires IdsIncrease(rows)
    ensures PartOf(DeleteRows(users, rows, user, id), rows)
  {
    if rows != [] {
      var front, last := rows[..|rows| - 1], rows[|rows| - 1];
      assert rows == front + [last];
      DeleteIsPart(users, front, user, id);
      PartSnoc(DeleteRows(users, front, user, id), front, last);
    }
  }

  lemma {:induction false} PurgeIsPart(rows: seq<Row>, cutoff: Time)
    requires IdsIncrease(rows)
    ensures PartOf(PurgeRows(rows, cutoff), rows)
  {
    if rows != [] {
      var front, last := rows[..|rows| - 1], rows[|rows| - 1];
      assert rows == front + [last];
      PurgeIsPart(front, cutoff);
      PartSnoc(PurgeRows(front, cutoff), front, last);
    }
  }

  lemma {:induction false} ForgetIsPart(users: Users, rows: seq<Row>, user: int)
    requires IdsIncrease(rows)
    ensures PartOf(ForgetRows(users, rows, user), rows)
    ensures forall i :: 0 <= i < |ForgetRows(users, rows, user)| ==> !Doomed(users, user, ForgetRows(users, rows, user)[i])
  {
    if rows != [] {
      var front, last := rows[..|rows| - 1], rows[|rows| - 1];
      assert rows == front + [last];
      ForgetIsPart(users, front, user);
      PartSnoc(ForgetRows(users, front, user), front, last);
    }
  }

  lemma PartKeepsRows(db: Db, number: string -> string, part: seq<Row>)
    requires RowsSound(db, number) && PartOf(part, db.rows)
    ensures RowsSound(db.(rows := part), number)
  {
    forall i | 0 <= i < |part| ensures RowSound(db, number, part[i]) {
      assert part[i] in db.rows;
    }
    forall i, j | 0 <= i < j < |part| ensures part[i].conversation != part[j].conversation {
      assert part[i] in db.rows && part[j] in db.rows;
    }
  }

  lemma ForgetKeepsRows(db: Db, number: string -> string, user: int)
    requires RowsSound(db, number)
    ensures RowsSound(Forget(db, user), number)
  {
    ForgetIsPart(db.users, db.rows, user);
    PartKeepsRows(db, number, ForgetRows(db.users, db.rows, user));
    var left := ForgetRows(db.users, db.rows, user);
    forall i | 0 <= i < |left| ensures RowSound(Forget(db, user), number, left[i]) {
      assert RowSound(db.(rows := left), number, left[i]);
    }
  }

  lemma StepKeepsInv(w: World, a: Action, number: string -> string)
    requires Inv(w, number) && (a.Receive? ==> a.phone == number(a.conversation))
    ensures Inv(Step(w, a), number)
  {
    match a
    case Receive(_, _, _, _, _) =>
    case SaveStep(d) =>
      if d in w.pending {
        SaveKeepsRows(w.db, number, w.pending[d]);
      }
    case SignUpStep(phone) =>
    case AdoptStep(user) => AdoptKeepsRows(w.db, number, user);
    case DeleteStep(user, id) =>
      DeleteIsPart(w.db.users, w.db.rows, user, id);
      PartKeepsRows(w.db, number, DeleteRows(w.db.users, w.db.rows, user, id));
    case PurgeStep(now) =>
      PurgeIsPart(w.db.rows, now - RETENTION);
      PartKeepsRows(w.db, number, PurgeRows(w.db.rows, now - RETENTION));
    case ForgetStep(user) =>
      ForgetKeepsRows(w.db, number, user);
  }

  lemma AdoptKeepsRows(db: Db, number: string -> string, user: int)
    requires RowsSound(db, number)
    ensures RowsSound(Adopt(db, user), number)
  {
  }

  lemma {:induction false} RunKeepsInv(run: seq<Action>, number: string -> string)
    requires OneNumberEach(run, number)
    ensures Inv(Run(run), number)
  {
    if run != [] {
      RunKeepsInv(run[..|run| - 1], number);
      StepKeepsInv(Run(run[..|run| - 1]), run[|run| - 1], number);
    }
  }

  // ----- the views ---------------------------------------------------------------------------

  /** A sound row is visible to a profile exactly when it has the profile's number. */
  lemma OwnedIffNumber(db: Db, number: string -> string, r: Row, user: int)
    requires NumbersAreUnique(db.users) && user in db.users && RowSound(db, number, r)
    ensures Owned(db.users, user, r) <==> r.phone == db.users[user]
    ensures Doomed(db.users, user, r) <==> r.phone == db.users[user]
  {
    if r.owner.Some? && r.phone == db.users[user] {
      SameNumberSameProfile(db.users, r.owner.value, user);
    }
  }

  lemma SameNumberSameProfile(users: Users, u: int, v: int)
    requires NumbersAreUnique(users) && u in users && v in users && users[u] == users[v]
    ensures u == v
  {
  }

  lemma {:induction false} ViewIsCalls(db: Db, rows: seq<Row>, number: string -> string, user: int)
    requires NumbersAreUnique(db.users) && user in db.users
    requires forall i :: 0 <= i < |rows| ==> RowSound(db, number, rows[i])
    ensures View(db.users, rows, user) == CallsWith(rows, db.users[user])
  {
    if rows != [] {
      ViewIsCalls(db, rows[..|rows| - 1], number, user);
      OwnedIffNumber(db, number, rows[|rows| - 1], user);
    }
  }

  /** Refinement: in every interleaving, what the two-way ownership rule lets a profile read is
      exactly the calls with its number, attached or not. */
  lemma VisibleCallsAreTheNumbersCalls(run: seq<Action>, number: string -> string, user: int)
    requires OneNumberEach(run, number) && user in Run(run).db.users
    ensures View(Run(run).db.users, Run(run).db.rows, user) == CallsWith(Run(run).db.rows, Run(run).db.users[user])
  {
    RunKeepsInv(run, number);
    ViewIsCalls(Run(run).db, Run(run).db.rows, number, user);
  }

  /** Whoever signs up sees at once every call held for their number, and nobody else's profile
      changes. */
  lemma NewcomerSeesTheCallsHeld(run: seq<Action>, number: string -> string, phone: string)
    requires OneNumberEach(run, number)
    ensures var before, after := Run(run).db, Step(Run(run), SignUpStep(phone)).db;
      var user := UserByPhone(after.users, phone);
      && user.Some? && before.users == after.users - (if user.value in before.users then {} else {user.value})
      && View(after.users, after.rows, user.value) == CallsWith(before.rows, phone)
  {
    var a := SignUpStep(phone);
    assert (run + [a])[..|run|] == run;
    var after := Run(run + [a]).db;
    RunKeepsInv(run, number);
    RunKeepsInv(run + [a], number);
    if UserByPhone(Run(run).db.users, phone).None? {
      assert after.users[Run(run).db.nextUser] == phone;
    }
    var user := UserByPhone(after.users, phone);
    VisibleCallsAreTheNumbersCalls(run + [a], number, user.value);
  }

  /** One row per conversation, and whoever owns a row has its number. */
  lemma OneRowPerConversation(run: seq<Action>, number: string -> string, i: nat, j: nat)
    requires OneNumberEach(run, number) && i < |Run(run).db.rows| && j < |Run(run).db.rows|
    ensures Run(run).db.rows[i].conversation == Run(run).db.rows[j].conversation ==> i == j
    ensures Run(run).db.rows[i].owner.Some? ==>
              && Run(run).db.rows[i].owner.value in Run(run).db.users
              && Run(run).db.users[Run(run).db.rows[i].owner.value] == Run(run).db.rows[i].phone
  {
    RunKeepsInv(run, number);
    assert RowSound(Run(run).db, number, Run(run).db.rows[i]);
  }

  /** Whatever happens next, a row that has an owner keeps that very owner for as long as the row
      exists. */
  lemma OwnersAreForKeeps(run: seq<Action>, a: Action, number: string -> string, i: nat, j: nat)
    requires OneNumberEach(run + [a], number)
    requires i < |Run(run).db.rows| && Run(run).db.rows[i].owner.Some?
    requires j < |Step(Run(run), a).db.rows|
    requires Run(run).db.rows[i].conversation == Step(Run(run), a).db.rows[j].conversation
    ensures Run(run).db.rows[i].owner == Step(Run(run), a).db.rows[j].owner
  {
    OneNumberPrefix(run, a, number);
    RunKeepsInv(run, number);
    StepKeepsInv(Run(run), a, number);
    StepKeepsOwner(Run(run), a, number, i, j);
  }

  lemma StepKeepsOwner(w: World, a: Action, number: string -> string, i: nat, j: nat)
    requires Inv(w, number) && Inv(Step(w, a), number)
    requires i < |w.db.rows| && w.db.rows[i].owner.Some? && j < |Step(w, a).db.rows|
    requires w.db.rows[i].conversation == Step(w, a).db.rows[j].conversation
    ensures w.db.rows[i].owner == Step(w, a).db.rows[j].owner
  {
    match a
    case DeleteStep(user, id) =>
      DeleteIsPart(w.db.users, w.db.rows, user, id);
      SameRow(w.db, number, DeleteRows(w.db.users, w.db.rows, user, id), i, j);
    case PurgeStep(now) =>
      PurgeIsPart(w.db.rows, now - RETENTION);
      SameRow(w.db, number, PurgeRows(w.db.rows, now - RETENTION), i, j);
    case ForgetStep(user) =>
      ForgetIsPart(w.db.users, w.db.rows, user);
      SameRow(w.db, number, ForgetRows(w.db.users, w.db.rows, user), i, j);
    case SaveStep(d) =>
      if d in w.pending {
        SaveKeepsOwned(w.db, w.pending[d], number, i, j);
        OwnerIsByNumber(w.db, Save(w.db, w.pending[d]), number, i, j);
      } else {
        assert i == j;
      }
    case AdoptStep(user) =>
      assert i == j;
    case Receive(_, _, _, _, _) =>
      assert i == j;
    case SignUpStep(_) =>
      assert i == j;
  }

  /** Among the same profiles the number settles the owner. */
  lemma OwnerIsByNumber(db: Db, db': Db, number: string -> string, i: nat, j: nat)
    requires db.users == db'.users && NumbersAreUnique(db.users)
    requires RowsSound(db, number) && RowsSound(db', number) && i < |db.rows| && j < |db'.rows|
    requires db.rows[i].conversation == db'.rows[j].conversation
    requires db.rows[i].owner.Some? && db'.rows[j].owner.Some?
    ensures db.rows[i].owner == db'.rows[j].owner
  {
    assert RowSound(db, number, db.rows[i]) && RowSound(db', number, db'.rows[j]);
    SameNumberSameProfile(db.users, db.rows[i].owner.value, db'.rows[j].owner.value);
  }

  lemma SaveKeepsOwned(db: Db, t: Delivery, number: string -> string, i: nat, j: nat)
    requires RowsSound(db, number) && i < |db.rows| && j < |Save(db, t).rows|
    requires db.rows[i].conversation == Save(db, t).rows[j].conversation && db.rows[i].owner.Some?
    ensures Save(db, t).rows[j].owner.Some?
  {
    if j < |db.rows| {
      assert i == j;
    }
  }

  lemma OneNumberPrefix(run: seq<Action>, a: Action, number: string -> string)
    requires OneNumberEach(run + [a], number)
    ensures OneNumberEach(run, number) && (a.Receive? ==> a.phone == number(a.conversation))
  {
    forall i | 0 <= i < |run| && run[i].Receive? ensures run[i].phone == number(run[i].conversation) {
      assert (run + [a])[i] == run[i];
    }
    assert (run + [a])[|run|] == a;
  }

  lemma SameRow(db: Db, number: string -> string, part: seq<Row>, i: nat, j: nat)
    requires RowsSound(db, number) && PartOf(part, db.rows) && i < |db.rows| && j < |part|
    requires db.rows[i].conversation == part[j].conversation
    ensures db.rows[i] == part[j]
  {
    assert part[j] in db.rows;
  }

  // ----- adoption ----------------------------------------------------------------------------

  function Erased(rows: seq<Row>): seq<Row> {
    if rows == [] then []
    else Erased(rows[..|rows| - 1]) + [rows[|rows| - 1].(owner := None)]
  }

  lemma {:induction false} AdoptKeepsViews(db: Db, rows: seq<Row>, number: string -> string, user: int, viewer: int)
    requires NumbersAreUnique(db.users)
    requires forall i :: 0 <= i < |rows| ==> RowSound(db, number, rows[i])
    ensures Erased(View(db.users, AdoptRows(db.users, rows, user), viewer)) == Erased(View(db.users, rows, viewer))
  {
    if rows != [] {
      var front, last := rows[..|rows| - 1], rows[|rows| - 1];
      AdoptKeepsViews(db, front, number, user, viewer);
      assert RowSound(db, number, last);
      var after := AdoptRows(db.users, rows, user);
      assert after[..|after| - 1] == AdoptRows(db.users, front, user);
      ErasedSnoc(View(db.users, front, viewer), last);
      ErasedSnoc(View(db.users, AdoptRows(db.users, front, user), viewer), Attach(db.users, last, user));
    }
  }

  lemma ErasedSnoc(rows: seq<Row>, r: Row)
    ensures Erased(rows + [r]) == Erased(rows) + [r.(owner := None)]
  {
    assert (rows + [r])[..|rows|] == rows;
  }

  /** Attaching held calls to a profile changes what nobody sees, neither theirs nor another's:
      the same calls in the same order, in every reachable state. */
  lemma AdoptionChangesNobodysView(run: seq<Action>, number: string -> string, user: int, viewer: int)
    requires OneNumberEach(run, number)
    ensures var db := Run(run).db;
            Erased(View(db.users, Adopt(db, user).rows, viewer)) == Erased(View(db.users, db.rows, viewer))
  {
    RunKeepsInv(run, number);
    AdoptKeepsViews(Run(run).db, Run(run).db.rows, number, user, viewer);
  }

  // ----- erasure -----------------------------------------------------------------------------

  /** The rows a profile cannot see. */
  function Unseen(users: Users, rows: seq<Row>, user: int): seq<Row> {
    if rows == [] then []
    else
      var r := rows[|rows| - 1];
      var rest := Unseen(users, rows[..|rows| - 1], user);
      if Owned(users, user, r) then rest else rest + [r]
  }

  lemma {:induction false} ForgetDropsTheView(db: Db, rows: seq<Row>, number: string -> string, user: int, other: int)
    requires NumbersAreUnique(db.users) && user in db.users
    requires forall i :: 0 <= i < |rows| ==> RowSound(db, number, rows[i])
    ensures ForgetRows(db.users, rows, user) == Unseen(db.users, rows, user)
    ensures CallsWith(ForgetRows(db.users, rows, user), db.users[user]) == []
    ensures other in db.users && other != user ==>
              View(db.users - {user}, ForgetRows(db.users, rows, user), other) == View(db.users, rows, other)
  {
    if rows != [] {
      var front, last := rows[..|rows| - 1], rows[|rows| - 1];
      ForgetDropsTheView(db, front, number, user, other);
      OwnedIffNumber(db, number, last, user);
      var left := ForgetRows(db.users, front, user);
      assert (left + [last])[..|left|] == left;
    }
  }

  /** Erasing a profile removes exactly what it could see - leaving no call with its number
      behind - and leaves every other profile's calls as they were. */
  lemma ForgettingErasesExactlyOneView(run: seq<Action>, number: string -> string, user: int, other: int)
    requires OneNumberEach(run, number) && user in Run(run).db.users
    ensures var db, db' := Run(run).db, Forget(Run(run).db, user);
            && db'.rows == Unseen(db.users, db.rows, user)
            && CallsWith(db'.rows, db.users[user]) == []
            && user !in db'.users
            && (other in db.users && other != user ==>
                  other in db'.users && View(db'.users, db'.rows, other) == View(db.users, db.rows, other))
  {
    RunKeepsInv(run, number);
    ForgetDropsTheView(Run(run).db, Run(run).db.rows, number, user, other);
  }

  lemma {:induction false} DeleteLeavesOthers(db: Db, rows: seq<Row>, number: string -> string, user: int, id: int, other: int)
    requires NumbersAreUnique(db.users) && user in db.users && other in db.users && other != user
    requires forall i :: 0 <= i < |rows| ==> RowSound(db, number, rows[i])
    ensures View(db.users, DeleteRows(db.users, rows, user, id), other) == View(db.users, rows, other)
  {
    if rows != [] {
      var front, last := rows[..|rows| - 1], rows[|rows| - 1];
      DeleteLeavesOthers(db, front, number, user, id, other);
      assert RowSound(db, number, last);
      var left := DeleteRows(db.users, front, user, id);
      assert (left + [last])[..|left|] == left;
    }
  }

  /** Nobody can delete, by any id, a call somebody else can see. */
  lemma DeletingNeverTouchesAnotherView(run: seq<Action>, number: string -> string, user: int, id: int, other: int)
    requires OneNumberEach(run, number)
    requires user in Run(run).db.users && other in Run(run).db.users && other != user
    ensures var db := Run(run).db;
            View(db.users, DeleteRows(db.users, db.rows, user, id), other) == View(db.users, db.rows, other)
  {
    RunKeepsInv(run, number);
    DeleteLeavesOthers(Run(run).db, Run(run).db.rows, number, user, id, other);
  }

  // ----- deletion and retention, row by row --------------------------------------------------------

  function WithoutId(rows: seq<Row>, id: int): seq<Row> {
    if rows == [] then []
    else
      var rest, r := WithoutId(rows[..|rows| - 1], id), rows[|rows| - 1];
      if r.id == id then rest else rest + [r]
  }

  lemma {:induction false} DeleteShortensTheView(users: Users, rows: seq<Row>, user: int, id: int)
    ensures View(users, DeleteRows(users, rows, user, id), user) == WithoutId(View(users, rows, user), id)
  {
    if rows != [] {
      var front, last := rows[..|rows| - 1], rows[|rows| - 1];
      DeleteShortensTheView(users, front, user, id);
      var left, seen := DeleteRows(users, front, user, id), View(users, front, user);
      assert (left + [last])[..|left|] == left && (seen + [last])[..|seen|] == seen;
    }
  }

  lemma {:induction false} DeleteLeaves(users: Users, rows: seq<Row>, user: int, id: int, r: Row)
    ensures r in DeleteRows(users, rows, user, id) <==> r in rows && !(r.id == id && Owned(users, user, r))
  {
    if rows != [] {
      var front, last := rows[..|rows| - 1], rows[|rows| - 1];
      DeleteLeaves(users, front, user, id, r);
      assert rows == front + [last];
    }
  }

  lemma {:induction false} NothingToDelete(users: Users, rows: seq<Row>, user: int, id: int)
    requires forall i :: 0 <= i < |rows| ==> !(rows[i].id == id && Owned(users, user, rows[i]))
    ensures DeleteRows(users, rows, user, id) == rows
  {
    if rows != [] {
      NothingToDelete(users, rows[..|rows| - 1], user, id);
      assert rows == rows[..|rows| - 1] + [rows[|rows| - 1]];
    }
  }

  lemma {:induction false} ViewHolds(users: Users, rows: seq<Row>, user: int, r: Row)
    ensures r in View(users, rows, user) <==> r in rows && Owned(users, user, r)
  {
    if rows != [] {
      ViewHolds(users, rows[..|rows| - 1], user, r);
      assert rows == rows[..|rows| - 1] + [rows[|rows| - 1]];
    }
  }

  predicate HasId(rows: seq<Row>, id: int) {
    exists i :: 0 <= i < |rows| && rows[i].id == id
  }

  /** Deleting a call takes that one call out of the deleter's view and leaves the rest in order; a
      row is gone exactly when it has that id and the deleter could see it; and an id that is not in
      the view deletes nothing at all. */
  lemma DeletingTakesThatCallAlone(run: seq<Action>, user: int, id: int, r: Row)
    ensures var db := Run(run).db;
      var left := Step(Run(run), DeleteStep(user, id)).db.rows;
      && View(db.users, left, user) == WithoutId(View(db.users, db.rows, user), id)
      && (r in left <==> r in db.rows && !(r.id == id && Owned(db.users, user, r)))
      && (!HasId(View(db.users, db.rows, user), id) ==> left == db.rows)
  {
    var db := Run(run).db;
    DeleteShortensTheView(db.users, db.rows, user, id);
    DeleteLeaves(db.users, db.rows, user, id, r);
    if !HasId(View(db.users, db.rows, user), id) {
      forall i | 0 <= i < |db.rows| ensures !(db.rows[i].id == id && Owned(db.users, user, db.rows[i])) {
        ViewHolds(db.users, db.rows, user, db.rows[i]);
      }
      NothingToDelete(db.users, db.rows, user, id);
    }
  }

  /** And it is at most one row: ids are given once. */
  lemma IdsAreGivenOnce(run: seq<Action>, number: string -> string, i: nat, j: nat)
    requires OneNumberEach(run, number) && i < |Run(run).db.rows| && j < |Run(run).db.rows|
    requires Run(run).db.rows[i].id == Run(run).db.rows[j].id
    ensures i == j
  {
    RunKeepsInv(run, number);
  }

  lemma {:induction false} PurgeLeaves(rows: seq<Row>, cutoff: Time, r: Row)
    ensures r in PurgeRows(rows, cutoff) <==> r in rows && r.startedAt >= cutoff
  {
    if rows != [] {
      PurgeLeaves(rows[..|rows| - 1], cutoff, r);
      assert rows == rows[..|rows| - 1] + [rows[|rows| - 1]];
    }
  }

  /** A sweep takes exactly the calls that started more than ninety days before it, and keeps the
      order of the rest. */
  lemma SweepTakesTheOldAlone(run: seq<Action>, number: string -> string, now: Time, r: Row)
    requires OneNumberEach(run, number)
    ensures var left := Step(Run(run), PurgeStep(now)).db.rows;
      && (r in left <==> r in Run(run).db.rows && now - r.startedAt <= 90 * DAY)
      && PartOf(left, Run(run).db.rows)
  {
    RunKeepsInv(run, number);
    PurgeLeaves(Run(run).db.rows, now - RETENTION, r);
    PurgeIsPart(Run(run).db.rows, now - RETENTION);
  }

  // ----- what a delivery leaves behind -------------------------------------------------------------

  /** The last delivery saved for a conversation, read off the run. */
  ghost function LastSaved(run: seq<Action>, conversation: string): Option<Delivery> {
    if run == [] then None
    else
      var before, a := Run(run[..|run| - 1]), run[|run| - 1];
      if a.SaveStep? && a.d in before.pending && before.pending[a.d].conversation == conversation
         && Storable(before.db, before.pending[a.d])
      then Some(before.pending[a.d])
      else LastSaved(run[..|run| - 1], conversation)
  }

  ghost predicate SaysWhatWasSaved(run: seq<Action>, r: Row) {
    var t := LastSaved(run, r.conversation);
    && t.Some?
    && r.phone == t.value.phone && r.content == t.value.content && r.startedAt == t.value.startedAt
  }

  lemma SavedRows(db: Db, t: Delivery, r: Row)
    requires r in Save(db, t).rows && Storable(db, t)
    requires forall i, j :: 0 <= i < j < |db.rows| ==> db.rows[i].conversation != db.rows[j].conversation
    ensures if r.conversation == t.conversation
            then r.phone == t.phone && r.content == t.content && r.startedAt == t.startedAt
            else r in db.rows
  {
  }

  lemma {:induction false} AdoptedRows(users: Users, rows: seq<Row>, user: int, r: Row)
    requires r in AdoptRows(users, rows, user)
    ensures exists q :: q in rows && r == Attach(users, q, user)
  {
    var i :| 0 <= i < |rows| && AdoptRows(users, rows, user)[i] == r;
    assert rows[i] in rows;
  }

  predicate SameWords(q: Row, r: Row) {
    q.conversation == r.conversation && q.phone == r.phone && q.content == r.content && q.startedAt == r.startedAt
  }

  lemma OtherStepsKeepWords(w: World, a: Action, r: Row)
    requires !a.SaveStep? && r in Step(w, a).db.rows
    ensures exists q :: q in w.db.rows && SameWords(q, r)
  {
    match a
    case AdoptStep(user) =>
      AdoptedRows(w.db.users, w.db.rows, user, r);
      var q :| q in w.db.rows && r == Attach(w.db.users, q, user);
      assert SameWords(q, r);
    case DeleteStep(user, id) =>
      DeleteLeaves(w.db.users, w.db.rows, user, id, r);
      assert SameWords(r, r);
    case PurgeStep(now) =>
      PurgeLeaves(w.db.rows, now - RETENTION, r);
      assert SameWords(r, r);
    case ForgetStep(user) =>
      ForgetLeaves(w.db.users, w.db.rows, user, r);
      assert SameWords(r, r);
    case Receive(_, _, _, _, _) => assert SameWords(r, r);
    case SignUpStep(_) => assert SameWords(r, r);
  }

  lemma {:induction false} ForgetLeaves(users: Users, rows: seq<Row>, user: int, r: Row)
    ensures r in ForgetRows(users, rows, user) ==> r in rows
  {
    if rows != [] {
      ForgetLeaves(users, rows[..|rows| - 1], user, r);
      assert rows == rows[..|rows| - 1] + [rows[|rows| - 1]];
    }
  }

  lemma LastSavedSnoc(run: seq<Action>, a: Action, conversation: string)
    ensures var last := LastSaved(run + [a], conversation);
      if a.SaveStep? && a.d in Run(run).pending && Run(run).pending[a.d].conversation == conversation
         && Storable(Run(run).db, Run(run).pending[a.d])
      then last == Some(Run(run).pending[a.d])
      else last == LastSaved(run, conversation)
  {
    assert (run + [a])[..|run|] == run;
  }

  lemma StepKeepsSayings(run: seq<Action>, a: Action, number: string -> string, r: Row)
    requires OneNumberEach(run + [a], number)
    requires forall q :: q in Run(run).db.rows ==> SaysWhatWasSaved(run, q)
    requires r in Step(Run(run), a).db.rows
    ensures SaysWhatWasSaved(run + [a], r)
  {
    LastSavedSnoc(run, a, r.conversation);
    var w := Run(run);
    if !a.SaveStep? {
      OtherStepsKeepWords(w, a, r);
      var q :| q in w.db.rows && SameWords(q, r);
    } else if a.d in w.pending && Storable(w.db, w.pending[a.d]) {
      OneNumberPrefix(run, a, number);
      RunKeepsInv(run, number);
      SavedRows(w.db, w.pending[a.d], r);
    }
  }

  /** In every interleaving each row says what the last delivery saved for its conversation said: a
      retried or later delivery overwrites, and no adoption, sweep or deletion rewrites. */
  lemma {:induction false} RowsSayWhatWasLastSaved(run: seq<Action>, number: string -> string)
    requires OneNumberEach(run, number)
    ensures forall r :: r in Run(run).db.rows ==> SaysWhatWasSaved(run, r)
  {
    if run != [] {
      var front, a := run[..|run| - 1], run[|run| - 1];
      assert run == front + [a];
      RowsSayWhatWasLastSaved(front, number);
      forall r | r in Run(run).db.rows ensures SaysWhatWasSaved(run, r) {
        StepKeepsSayings(front, a, number, r);
      }
    }
  }

  /** A call delivered and saved is on file, in its own words and attached to whoever has its number,
      exactly when its conversation has a name; a call without one changes nothing. */
  lemma DeliveredCallIsKeptExactlyWhen(run: seq<Action>, a: Action)
    requires a.Receive? && TrimSpace(a.phone) != "" && a.d !in Run(run).pending
    ensures var w, w' := Run(run), Step(Step(Run(run), a), SaveStep(a.d));
      if TrimSpace(a.conversation) == "" then w'.db == w.db
      else var i := Find(w'.db.rows, a.conversation);
        i >= 0 && w'.db.rows[i].phone == a.phone && w'.db.rows[i].content == a.content
        && w'.db.rows[i].startedAt == a.startedAt
        && (UserByPhone(w.db.users, a.phone).Some? ==> w'.db.rows[i].owner == UserByPhone(w.db.users, a.phone))
  {
    assert TrimSpace("") == "";
    var w := Run(run);
    var t := Delivery(UserByPhone(w.db.users, a.phone), a.phone, a.conversation, a.content, a.startedAt);
    if TrimSpace(a.conversation) != "" {
      SavedIsFound(w.db, t);
    }
  }

  lemma SavedIsFound(db: Db, t: Delivery)
    requires Storable(db, t)
    ensures var i := Find(Save(db, t).rows, t.conversation);
      && i >= 0
      && var r := Save(db, t).rows[i];
         r.phone == t.phone && r.content == t.content && r.startedAt == t.startedAt
         && (t.owner.Some? ==> r.owner == t.owner)
  {
    var i, rows := Find(db.rows, t.conversation), Save(db, t).rows;
    if i >= 0 {
      FindUpdated(db.rows, i, Updated(db.rows[i], t));
    } else {
      assert rows[|db.rows|].conversation == t.conversation;
    }
  }

  /** Overwriting a conversation's row leaves it where it was found. */
  lemma {:induction false} FindUpdated(rows: seq<Row>, i: nat, r: Row)
    requires i < |rows| && Find(rows, r.conversation) == i
    ensures Find(rows[i := r], r.conversation) == i
  {
    var n := |rows| - 1;
    if i < n {
      assert rows[i := r][..n] == rows[..n][i := r];
      FindUpdated(rows[..n], i, r);
    }
  }

  /** No run leaves a row without a conversation. */
  lemma EveryRowIsNamed(run: seq<Action>, number: string -> string, r: Row)
    requires OneNumberEach(run, number) && r in Run(run).db.rows
    ensures TrimSpace(r.conversation) != ""
  {
    RowsSayWhatWasLastSaved(run, number);
    SavedCallsAreNamed(run, r.conversation);
  }

  lemma {:induction false} SavedCallsAreNamed(run: seq<Action>, conversation: string)
    ensures LastSaved(run, conversation).Some? ==> TrimSpace(conversation) != ""
  {
    if run != [] {
      SavedCallsAreNamed(run[..|run| - 1], conversation);
    }
  }

  /** Once a profile has adopted them, every call with its number is attached to it, and every other
      call is as it was. */
  lemma AdoptionAttachesEveryCall(run: seq<Action>, number: string -> string, user: int, i: nat)
    requires OneNumberEach(run, number) && user in Run(run).db.users && i < |Run(run).db.rows|
    ensures var w, w' := Run(run), Step(Run(run), AdoptStep(user));
      && |w'.db.rows| == |w.db.rows|
      && w'.db.rows[i] == if w.db.rows[i].phone == w.db.users[user] then w.db.rows[i].(owner := Some(user)) else w.db.rows[i]
  {
    RunKeepsInv(run, number);
    var db := Run(run).db;
    assert RowSound(db, number, db.rows[i]);
    if db.rows[i].owner.Some? && db.rows[i].phone == db.users[user] {
      SameNumberSameProfile(db.users, db.rows[i].owner.value, user);
    }
  }

  /** In how many places two tables of the same length differ. */
  function Differing(before: seq<Row>, after: seq<Row>): nat
    requires |before| == |after|
  {
    if before == [] then 0
    else
      var n := |before| - 1;
      var rest := Differing(before[..n], after[..n]);
      if before[n] != after[n] then rest + 1 else rest
  }

  /** The number an adoption answers with is how many rows it changed. */
  lemma {:induction false} AdoptionCountsWhatItChanged(users: Users, rows: seq<Row>, user: int)
    ensures Adoptable(users, rows, user) == Differing(rows, AdoptRows(users, rows, user))
  {
    if rows != [] {
      var n := |rows| - 1;
      AdoptionCountsWhatItChanged(users, rows[..n], user);
      assert AdoptRows(users, rows, user)[..n] == AdoptRows(users, rows[..n], user);
    }
  }

  // ----- why one number per conversation is assumed ----------------------------------------------

  predicate OwnersAgree(db: Db) {
    forall i :: 0 <= i < |db.rows| && db.rows[i].owner.Some? ==>
      db.rows[i].owner.value in db.users && db.users[db.rows[i].owner.value] == db.rows[i].phone
  }

  /** The upsert overwrites a row's number but keeps its owner, so it keeps owners and numbers in
      agreement exactly when the delivery names an owner, or the row has none, or the number is
      the one already there. */
  lemma SaveKeepsOwnersIff(db: Db, t: Delivery)
    requires OwnersAgree(db) && Storable(db, t)
    requires t.owner.Some? ==> db.users[t.owner.value] == t.phone
    ensures var i := Find(db.rows, t.conversation);
      OwnersAgree(Save(db, t)) <==>
        (i < 0 || t.owner.Some? || db.rows[i].owner.None? || db.rows[i].phone == t.phone)
  {
    var i := Find(db.rows, t.conversation);
    var db' := Save(db, t);
    if i >= 0 {
      assert db'.rows[i] == Updated(db.rows[i], t);
    }
  }

  /** A delivery that gives an owned conversation a new, unregistered number leaves a profile
      owning a call that is not with its number. */
  lemma RenumberedConversationBreaksOwnership()
    ensures var db := Db(map[1 := "+441"], [Row(1, Some(1), "+441", "c", "", 0)], 2, 2);
      OwnersAgree(db) && !OwnersAgree(Save(db, Delivery(None, "+442", "c", "", 0)))
  {
    var db := Db(map[1 := "+441"], [Row(1, Some(1), "+441", "c", "", 0)], 2, 2);
    var t := Delivery(None, "+442", "c", "", 0);
    assert Storable(db, t);
    assert Find(db.rows, "c") == 0;
    SaveKeepsOwnersIff(db, t);
  }
}
