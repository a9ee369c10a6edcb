/**
 * The two SQLite tables of the backend (users, pto_requests) and the `db`
 * object over them. The tables are sequences in rowid order; the
 * AUTOINCREMENT counters are explicit. Every `db` operation first runs the
 * lazy `initDB`, which opens the file once per process and seeds it when
 * the users table is empty.
 */
module Ledger {
  import opened Wrappers
  import opened Text

  /** A row of the users table. */
  datatype User = User(id: int, email: string, password: string, maxPtoHours: int, usedPtoHours: int)

  /** A row of the pto_requests table. */
  datatype PtoRequest = PtoRequest(id: int, userId: int, requestDate: string, hours: int, reason: string, status: string)

  /** The argument of `createPtoRequest`: its id is not used and its status is optional. */
  datatype NewRequest = NewRequest(id: int, userId: int, requestDate: string, hours: int, reason: string, status: Option<string>)

  /** What bcrypt returns for the two seed passwords; hashing itself is not modelled. */
  datatype SeedHashes = SeedHashes(john: string, jane: string)

  /** The database as one process sees it: whether `initDB` has run, both tables, and the next AUTOINCREMENT ids. */
  datatype Db = Db(isOpen: bool, users: seq<User>, requests: seq<PtoRequest>, nextUserId: int, nextRequestId: int)

  ghost predicate UniqueIds(users: seq<User>) {
    forall i, j :: 0 <= i < j < |users| ==> users[i].id != users[j].id
  }

  /** The UNIQUE constraint on users.email. */
  ghost predicate UniqueEmails(users: seq<User>) {
    forall i, j :: 0 <= i < j < |users| ==> users[i].email != users[j].email
  }

  /** What SQLite's schema guarantees: primary keys and emails are unique, and ids come from the counters. */
  ghost predicate Consistent(d: Db) {
    && UniqueIds(d.users)
    && UniqueEmails(d.users)
    && (forall i :: 0 <= i < |d.users| ==> d.users[i].id < d.nextUserId)
    && (forall i, j :: 0 <= i < j < |d.requests| ==> d.requests[i].id != d.requests[j].id)
    && (forall i :: 0 <= i < |d.requests| ==> d.requests[i].id < d.nextRequestId)
  }

  // ---------------------------------------------------------------- queries

  /** `SELECT * FROM users WHERE id = ?`; an absent id binds NULL, which matches no row. */
  function UserWithId(users: seq<User>, id: Option<int>): (r: Option<User>)
    ensures r.None? <==> (forall u :: u in users ==> Some(u.id) != id)
    ensures r.Some? ==> r.value in users && Some(r.value.id) == id
  {
    if users == [] then None
    else if Some(users[0].id) == id then Some(users[0])
    else UserWithId(users[1..], id)
  }

  /** `SELECT * FROM users WHERE email = ?`. */
  function UserWithEmail(users: seq<User>, email: string): (r: Option<User>)
    ensures r.None? <==> (forall u :: u in users ==> u.email != email)
    ensures r.Some? ==> r.value in users && r.value.email == email
  {
    if users == [] then None
    else if users[0].email == email then Some(users[0])
    else UserWithEmail(users[1..], email)
  }

  /** A lookup by primary key finds the row carrying that key. */
  lemma {:induction false} UserWithIdFindsRow(users: seq<User>, i: int)
    requires UniqueIds(users) && 0 <= i < |users|
    ensures UserWithId(users, Some(users[i].id)) == Some(users[i])
  {
    if i > 0 {
      assert users[0].id != users[i].id;
      assert users[1..][i - 1] == users[i];
      UserWithIdFindsRow(users[1..], i - 1);
    }
  }

  /** Because emails are unique, a lookup by email finds the one row carrying it. */
  lemma {:induction false} UserWithEmailFindsRow(users: seq<User>, i: int)
    requires UniqueEmails(users) && 0 <= i < |users|
    ensures UserWithEmail(users, users[i].email) == Some(users[i])
  {
    if i > 0 {
      assert users[0].email != users[i].email;
      assert users[1..][i - 1] == users[i];
      UserWithEmailFindsRow(users[1..], i - 1);
    }
  }

  /** `SELECT * FROM pto_requests WHERE userId = ?`, in rowid order. */
  function RequestsOf(requests: seq<PtoRequest>, userId: Option<int>): (r: seq<PtoRequest>)
    ensures |r| <= |requests|
  {
    if requests == [] then []
    else (if Some(requests[0].userId) == userId then [requests[0]] else []) + RequestsOf(requests[1..], userId)
  }

  /** The selection holds exactly the rows of that user. */
  lemma {:induction false} RequestsOfMembers(requests: seq<PtoRequest>, userId: Option<int>)
    ensures forall x :: x in RequestsOf(requests, userId) <==> x in requests && Some(x.userId) == userId
  {
    if requests != [] {
      RequestsOfMembers(requests[1..], userId);
      assert requests == [requests[0]] + requests[1..];
    }
  }

  /** The selection keeps table order: selecting from a concatenation concatenates the selections. */
  lemma {:induction false} RequestsOfAppend(a: seq<PtoRequest>, b: seq<PtoRequest>, userId: Option<int>)
    ensures RequestsOf(a + b, userId) == RequestsOf(a, userId) + RequestsOf(b, userId)
  {
    if a != [] {
      assert (a + b)[1..] == a[1..] + b;
      RequestsOfAppend(a[1..], b, userId);
    } else {
      assert a + b == b;
    }
  }

  // ---------------------------------------------------------------- writes

  /** The WHERE clause of `updateUser` hits a row, and another row already holds the new email. */
  predicate EmailClash(users: seq<User>, u: User) {
    (exists v :: v in users && v.id == u.id) && (exists w :: w in users && w.id != u.id && w.email == u.email)
  }

  /** `UPDATE users SET email, password, maxPtoHours, usedPtoHours WHERE id = u.id`, without the constraint check. */
  function ReplaceUser(users: seq<User>, u: User): (r: seq<User>)
    ensures |r| == |users|
  {
    seq(|users|, i requires 0 <= i < |users| => if users[i].id == u.id then u else users[i])
  }

  /** `updateUser` when the UNIQUE constraint on email lets the statement through. */
  function Updated(d: Db, u: User): Db
    requires !EmailClash(d.users, u)
  {
    d.(users := ReplaceUser(d.users, u))
  }

  /** A raw `INSERT INTO pto_requests`: the row gets the next AUTOINCREMENT id. */
  function Appended(d: Db, userId: int, requestDate: string, hours: int, reason: string, status: string): (r: Db)
    ensures r.users == d.users && r.isOpen == d.isOpen && r.nextUserId == d.nextUserId
  {
    d.(requests := d.requests + [PtoRequest(d.nextRequestId, userId, requestDate, hours, reason, status)],
       nextRequestId := d.nextRequestId + 1)
  }

  /** `request.status || 'pending'`. */
  function StatusOrPending(status: Option<string>): (s: string)
    ensures s != ""
    ensures Truthy(status) ==> s == status.value
    ensures !Truthy(status) ==> s == "pending"
  {
    if Truthy(status) then status.value else "pending"
  }

  /** `createPtoRequest`: the passed id is ignored. */
  function Inserted(d: Db, r: NewRequest): Db {
    Appended(d, r.userId, r.requestDate, r.hours, r.reason, StatusOrPending(r.status))
  }

  /** `UPDATE users SET usedPtoHours = ? WHERE id = ?`. */
  function SetUsed(users: seq<User>, id: int, used: int): (r: seq<User>)
    ensures |r| == |users|
  {
    seq(|users|, i requires 0 <= i < |users| => if users[i].id == id then users[i].(usedPtoHours := used) else users[i])
  }

  // ---------------------------------------------------------------- initDB

  /** John's three seeded requests. */
  function JohnSeed(john: int, firstId: int): seq<PtoRequest> {
    [ PtoRequest(firstId, john, "01/10/2025", 16, "Vacation", "approved"),
      PtoRequest(firstId + 1, john, "01/15/2025", 24, "Family Event", "approved"),
      PtoRequest(firstId + 2, john, "01/20/2025", 8, "Doctor Appointment", "pending") ]
  }

  /** Jane's four seeded requests. */
  function JaneSeed(jane: int, firstId: int): seq<PtoRequest> {
    [ PtoRequest(firstId, jane, "01/05/2025", 8, "Vacation", "approved"),
      PtoRequest(firstId + 1, jane, "01/08/2025", 16, "Personal Time", "approved"),
      PtoRequest(firstId + 2, jane, "01/12/2025", 8, "Doctor Appointment", "approved"),
      PtoRequest(firstId + 3, jane, "01/18/2025", 8, "Errands", "pending") ]
  }

  /** The seven seeded requests, John's three then Jane's four. */
  function SeedRequests(john: int, jane: int, firstId: int): seq<PtoRequest> {
    JohnSeed(john, firstId) + JaneSeed(jane, firstId + 3)
  }

  /** The tables after seeding: two users with their used totals, seven requests. */
  function Seeded(d: Db, h: SeedHashes): Db {
    var john := d.nextUserId;
    var jane := d.nextUserId + 1;
    d.(users := d.users + [User(john, "john@example.com", h.john, 120, 48),
                           User(jane, "jane@example.com", h.jane, 120, 40)],
       requests := d.requests + SeedRequests(john, jane, d.nextRequestId),
       nextUserId := d.nextUserId + 2,
       nextRequestId := d.nextRequestId + 7)
  }

  /** The database after `initDB`: opened once, seeded only if there were no users at that moment. */
  function AfterInit(d: Db, h: SeedHashes): (r: Db)
    ensures r.isOpen
  {
    if d.isOpen then d
    else if |d.users| == 0 then Seeded(d.(isOpen := true), h)
    else d.(isOpen := true)
  }

  /** `initDB` runs its body once: a second call returns the same handle and seeds nothing. */
  lemma AfterInitIdempotent(d: Db, h: SeedHashes)
    ensures AfterInit(AfterInit(d, h), h) == AfterInit(d, h)
    ensures d.isOpen ==> AfterInit(d, h) == d
    ensures (d.isOpen || |d.users| > 0) ==> AfterInit(d, h).users == d.users && AfterInit(d, h).requests == d.requests
  {
  }

  function TotalHours(rs: seq<PtoRequest>): int {
    if rs == [] then 0 else rs[0].hours + TotalHours(rs[1..])
  }

  /**
   * In the seeded state each user's used hours is the sum of that user's
   * seeded requests (John 16 + 24 + 8, Jane 8 + 16 + 8 + 8), within the
   * allotment of 120.
   */
  lemma SeededUsedMatchesRequests(d: Db, h: SeedHashes)
    requires !d.isOpen && d.users == []
    ensures AfterInit(d, h).users == [User(d.nextUserId, "john@example.com", h.john, 120, 48),
                                      User(d.nextUserId + 1, "jane@example.com", h.jane, 120, 40)]
    ensures AfterInit(d, h).requests == d.requests + SeedRequests(d.nextUserId, d.nextUserId + 1, d.nextRequestId)
    ensures TotalHours(RequestsOf(SeedRequests(d.nextUserId, d.nextUserId + 1, d.nextRequestId), Some(d.nextUserId))) == 48
    ensures TotalHours(RequestsOf(SeedRequests(d.nextUserId, d.nextUserId + 1, d.nextRequestId), Some(d.nextUserId + 1))) == 40
  {
    SeedSelection(d.nextUserId, d.nextRequestId);
    SeedTotals(d.nextUserId, d.nextRequestId);
  }

  lemma SeedSelection(n: int, m: int)
    ensures RequestsOf(SeedRequests(n, n + 1, m), Some(n)) == JohnSeed(n, m)
    ensures RequestsOf(SeedRequests(n, n + 1, m), Some(n + 1)) == JaneSeed(n + 1, m + 3)
  {
    var johns, janes := JohnSeed(n, m), JaneSeed(n + 1, m + 3);
    RequestsOfAll(johns, Some(n));
    RequestsOfNone(janes, Some(n));
    RequestsOfAppend(johns, janes, Some(n));
    RequestsOfNone(johns, Some(n + 1));
    RequestsOfAll(janes, Some(n + 1));
    RequestsOfAppend(johns, janes, Some(n + 1));
  }

  lemma SeedTotals(n: int, m: int)
    ensures TotalHours(JohnSeed(n, m)) == 48
    ensures TotalHours(JaneSeed(n + 1, m + 3)) == 40
  {
    var johns, janes := JohnSeed(n, m), JaneSeed(n + 1, m + 3);
    assert TotalHours(johns[1..][1..][1..]) == 0;
    assert TotalHours(johns[1..][1..]) == 8;
    assert TotalHours(johns[1..]) == 32;
    assert TotalHours(janes[1..][1..][1..][1..]) == 0;
    assert TotalHours(janes[1..][1..][1..]) == 8;
    assert TotalHours(janes[1..][1..]) == 16;
    assert TotalHours(janes[1..]) == 32;
  }

  lemma {:induction false} RequestsOfAll(rs: seq<PtoRequest>, userId: Option<int>)
    requires forall i :: 0 <= i < |rs| ==> Some(rs[i].userId) == userId
    ensures RequestsOf(rs, userId) == rs
  {
    if rs != [] { RequestsOfAll(rs[1..], userId); }
  }

  lemma {:induction false} RequestsOfNone(rs: seq<PtoRequest>, userId: Option<int>)
    requires forall i :: 0 <= i < |rs| ==> Some(rs[i].userId) != userId
    ensures RequestsOf(rs, userId) == []
  {
    if rs != [] { RequestsOfNone(rs[1..], userId); }
  }

  // ---------------------------------------------------------------- invariants

  lemma AfterInitValid(d: Db, h: SeedHashes)
    requires Consistent(d)
    ensures Consistent(AfterInit(d, h))
  {
    if !d.isOpen && |d.users| == 0 {
      var c := AfterInit(d, h);
      var seed := SeedRequests(d.nextUserId, d.nextUserId + 1, d.nextRequestId);
      assert c.requests == d.requests + seed;
      forall i, j | 0 <= i < j < |c.requests| ensures c.requests[i].id != c.requests[j].id {
        if j >= |d.requests| && i < |d.requests| {
          assert c.requests[i] == d.requests[i];
          assert c.requests[j] == seed[j - |d.requests|];
        }
      }
    }
  }

  lemma {:induction false} ReplaceUserFinds(users: seq<User>, u: User, i: int)
    requires UniqueIds(users) && 0 <= i < |users| && users[i].id == u.id
    ensures UserWithId(ReplaceUser(users, u), Some(u.id)) == Some(u)
  {
    var r := ReplaceUser(users, u);
    forall a, b | 0 <= a < b < |r| ensures r[a].id != r[b].id {}
    UserWithIdFindsRow(r, i);
  }

  lemma {:induction false} ReplaceUserKeepsOthers(users: seq<User>, u: User, id: Option<int>)
    requires id != Some(u.id)
    ensures UserWithId(ReplaceUser(users, u), id) == UserWithId(users, id)
  {
    if users != [] {
      assert ReplaceUser(users, u)[1..] == ReplaceUser(users[1..], u);
      ReplaceUserKeepsOthers(users[1..], u, id);
    }
  }

  /** A successful `updateUser` keeps the schema's guarantees. */
  lemma UpdatedValid(d: Db, u: User)
    requires Consistent(d) && !EmailClash(d.users, u)
    requires exists v :: v in d.users && v.id == u.id
    ensures Consistent(Updated(d, u))
  {
    var r := ReplaceUser(d.users, u);
    forall i, j | 0 <= i < j < |r| ensures r[i].email != r[j].email {
      if d.users[i].id == u.id && d.users[j].id != u.id {
        assert d.users[j] in d.users;
      } else if d.users[j].id == u.id && d.users[i].id != u.id {
        assert d.users[i] in d.users;
      }
    }
  }

  /** An update that keeps a row's id and email never trips the email constraint. */
  lemma SameEmailNoClash(d: Db, v: User, u: User)
    requires Consistent(d) && v in d.users && u.id == v.id && u.email == v.email
    ensures !EmailClash(d.users, u)
  {
    forall w | w in d.users && w.id != u.id ensures w.email != u.email {
      var i :| 0 <= i < |d.users| && d.users[i] == v;
      var j :| 0 <= j < |d.users| && d.users[j] == w;
      assert i != j;
    }
  }

  lemma InsertedValid(d: Db, userId: int, requestDate: string, hours: int, reason: string, status: string)
    requires Consistent(d)
    ensures Consistent(Appended(d, userId, requestDate, hours, reason, status))
  {
  }

  /** Three single-row inserts for John append his seeded requests. */
  lemma JohnRows(before: seq<PtoRequest>, john: int, m: int)
    ensures before + [PtoRequest(m, john, "01/10/2025", 16, "Vacation", "approved")]
                   + [PtoRequest(m + 1, john, "01/15/2025", 24, "Family Event", "approved")]
                   + [PtoRequest(m + 2, john, "01/20/2025", 8, "Doctor Appointment", "pending")]
            == before + JohnSeed(john, m)
  {
  }

  /** Four single-row inserts for Jane append her seeded requests. */
  lemma JaneRows(before: seq<PtoRequest>, jane: int, m: int)
    ensures before + [PtoRequest(m, jane, "01/05/2025", 8, "Vacation", "approved")]
                   + [PtoRequest(m + 1, jane, "01/08/2025", 16, "Personal Time", "approved")]
                   + [PtoRequest(m + 2, jane, "01/12/2025", 8, "Doctor Appointment", "approved")]
                   + [PtoRequest(m + 3, jane, "01/18/2025", 8, "Errands", "pending")]
            == before + JaneSeed(jane, m)
  {
  }

  lemma ConcatAssoc(a: seq<PtoRequest>, b: seq<PtoRequest>, c: seq<PtoRequest>)
    ensures (a + b) + c == a + (b + c)
  {
  }

  /** The two used-hours updates of the seed, on the two seeded users. */
  lemma SetUsedPair(a: User, b: User, x: int, y: int)
    requires a.id != b.id
    ensures SetUsed([a, b], a.id, x) == [a.(usedPtoHours := x), b]
    ensures SetUsed([a.(usedPtoHours := x), b], b.id, y) == [a.(usedPtoHours := x), b.(usedPtoHours := y)]
  {
  }

  // ---------------------------------------------------------------- the db object

  /** The `db` object of backend/src/db/index.ts over one process's connection. */
  class Store {
    var isOpen: bool
    var users: seq<User>
    var requests: seq<PtoRequest>
    var nextUserId: int
    var nextRequestId: int
    const hashes: SeedHashes

    function Value(): Db
      reads this
    {
      Db(isOpen, users, requests, nextUserId, nextRequestId)
    }

    ghost predicate Valid()
      reads this
    {
      Consistent(Value())
    }

    /** A process that has not opened the file yet; the file holds `users` and `requests`. */
    constructor (users: seq<User>, requests: seq<PtoRequest>, nextUserId: int, nextRequestId: int, hashes: SeedHashes)
      requires Consistent(Db(false, users, requests, nextUserId, nextRequestId))
      ensures Valid()
      ensures Value() == Db(false, users, requests, nextUserId, nextRequestId) && this.hashes == hashes
    {
      this.isOpen := false;
      this.users := users;
      this.requests := requests;
      this.nextUserId := nextUserId;
      this.nextRequestId := nextRequestId;
      this.hashes := hashes;
    }

    /** The raw `INSERT INTO pto_requests (...) VALUES (...)` statement. */
    method InsertRequestRow(userId: int, requestDate: string, hours: int, reason: string, status: string)
      modifies this
      ensures requests == old(requests) + [PtoRequest(old(nextRequestId), userId, requestDate, hours, reason, status)]
      ensures nextRequestId == old(nextRequestId) + 1
      ensures users == old(users) && isOpen == old(isOpen) && nextUserId == old(nextUserId)
      ensures Value() == Appended(old(Value()), userId, requestDate, hours, reason, status)
    {
      requests := requests + [PtoRequest(nextRequestId, userId, requestDate, hours, reason, status)];
      nextRequestId := nextRequestId + 1;
    }

    /** The raw `UPDATE users SET usedPtoHours = ? WHERE id = ?` statement. */
    method SetUsedHours(id: int, used: int)
      modifies this
      ensures users == SetUsed(old(users), id, used)
      ensures requests == old(requests) && isOpen == old(isOpen)
      ensures nextUserId == old(nextUserId) && nextRequestId == old(nextRequestId)
    {
      users := SetUsed(users, id, used);
    }

    /** `initDB`: open once, then seed when the users table is empty. */
    method InitDB()
      requires Valid()
      modifies this
      ensures Valid()
      ensures Value() == AfterInit(old(Value()), hashes)
    {
      AfterInitValid(Value(), hashes);
      if !isOpen {
        isOpen := true;
        if |users| == 0 {
          SeedTables();
        }
      }
    }

    /** The seeding branch of `initDB`, statement by statement. */
    method SeedTables()
      requires users == []
      modifies this
      ensures Value() == Seeded(old(Value()), hashes)
    {
      ghost var m := nextRequestId;
      ghost var before := requests;
      var johnId := nextUserId;
      users := users + [User(johnId, "john@example.com", hashes.john, 120, 0)];
      nextUserId := nextUserId + 1;
      var janeId := nextUserId;
      users := users + [User(janeId, "jane@example.com", hashes.jane, 120, 0)];
      nextUserId := nextUserId + 1;
      ghost var john, jane := User(johnId, "john@example.com", hashes.john, 120, 0), User(janeId, "jane@example.com", hashes.jane, 120, 0);
      assert users == [john, jane];

      InsertRequestRow(johnId, "01/10/2025", 16, "Vacation", "approved");
      InsertRequestRow(johnId, "01/15/2025", 24, "Family Event", "approved");
      InsertRequestRow(johnId, "01/20/2025", 8, "Doctor Appointment", "pending");
      SetUsedHours(johnId, 48);
      SetUsedPair(john, jane, 48, 40);
      JohnRows(before, johnId, m);
      ghost var afterJohn := requests;

      InsertRequestRow(janeId, "01/05/2025", 8, "Vacation", "approved");
      InsertRequestRow(janeId, "01/08/2025", 16, "Personal Time", "approved");
      InsertRequestRow(janeId, "01/12/2025", 8, "Doctor Appointment", "approved");
      InsertRequestRow(janeId, "01/18/2025", 8, "Errands", "pending");
      SetUsedHours(janeId, 40);
      JaneRows(afterJohn, janeId, m + 3);
      ConcatAssoc(before, JohnSeed(johnId, m), JaneSeed(janeId, m + 3));
      assert requests == before + SeedRequests(johnId, janeId, m);
      assert users == [] + [john.(usedPtoHours := 48), jane.(usedPtoHours := 40)];
    }

    /** `db.connect()`. */
    method Connect()
      requires Valid()
      modifies this
      ensures Valid()
      ensures Value() == AfterInit(old(Value()), hashes)
    {
      InitDB();
    }

    /** `findUserById`: None when no row matches, otherwise a copy of the row. */
    method FindUserById(id: Option<int>) returns (user: Option<User>)
      requires Valid()
      modifies this
      ensures Valid()
      ensures Value() == AfterInit(old(Value()), hashes)
      ensures user == UserWithId(users, id)
    {
      InitDB();
      user := UserWithId(users, id);
    }

    /** `findUserByEmail`: None when no row matches, otherwise a copy of the row. */
    method FindUserByEmail(email: string) returns (user: Option<User>)
      requires Valid()
      modifies this
      ensures Valid()
      ensures Value() == AfterInit(old(Value()), hashes)
      ensures user == UserWithEmail(users, email)
    {
      InitDB();
      user := UserWithEmail(users, email);
    }

    /** `updateUser`: false when SQLite rejects the statement (UNIQUE constraint on email). */
    method UpdateUser(user: User) returns (ok: bool)
      requires Valid()
      modifies this
      ensures Valid()
      ensures var d := AfterInit(old(Value()), hashes);
              ok == !EmailClash(d.users, user)
              && Value() == if ok then Updated(d, user) else d
    {
      InitDB();
      ok := !EmailClash(users, user);
      if ok {
        if exists v :: v in users && v.id == user.id {
          UpdatedValid(Value(), user);
        } else {
          assert ReplaceUser(users, user) == users;
        }
        users := ReplaceUser(users, user);
      }
    }

    /** `getRequestsByUserId`: the rows whose userId matches, in table order. */
    method GetRequestsByUserId(userId: Option<int>) returns (rows: seq<PtoRequest>)
      requires Valid()
      modifies this
      ensures Valid()
      ensures Value() == AfterInit(old(Value()), hashes)
      ensures rows == RequestsOf(requests, userId)
    {
      InitDB();
      rows := RequestsOf(requests, userId);
    }

    /** `createPtoRequest`. */
    method CreatePtoRequest(request: NewRequest)
      requires Valid()
      modifies this
      ensures Valid()
      ensures Value() == Inserted(AfterInit(old(Value()), hashes), request)
    {
      InitDB();
      InsertedValid(Value(), request.userId, request.requestDate, request.hours, request.reason, StatusOrPending(request.status));
      InsertRequestRow(request.userId, request.requestDate, request.hours, request.reason, StatusOrPending(request.status));
    }
  }
}
