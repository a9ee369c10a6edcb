/**
 * The leave service: balance query, per-user request list, and the
 * balance-checked submit that appends one request and debits the user.
 * The pure functions state each operation on the database value; the
 * methods run the same steps against the `db` object.
 */
module PtoService {
  import opened Wrappers
  import opened Ledger

  datatype Balance = Balance(maxHours: int, usedHours: int, remainingHours: int)

  /** The errors the service throws. */
  datatype PtoError = UserNotFound | InsufficientBalance | StoreFailure(message: string)

  /** The `message` of the thrown Error. */
  function Message(e: PtoError): string {
    match e
    case UserNotFound => "User not found"
    case InsufficientBalance => "Insufficient PTO balance"
    case StoreFailure(m) => m
  }

  /** What SQLite reports when `updateUser` would duplicate an email. */
  const UniqueEmailViolation := "SQLITE_CONSTRAINT: UNIQUE constraint failed: users.email"

  /** `getBalance` against an opened database. */
  function BalanceOf(d: Db, userId: Option<int>): (r: Result<Balance, PtoError>)
    ensures r.Failure? <==> (forall u :: u in d.users ==> Some(u.id) != userId)
    ensures r.Failure? ==> r.error == UserNotFound
    ensures r.Success? ==> r.value.remainingHours == r.value.maxHours - r.value.usedHours
    ensures r.Success? ==> exists u :: u in d.users && Some(u.id) == userId
                                       && r.value.maxHours == u.maxPtoHours && r.value.usedHours == u.usedPtoHours
  {
    match UserWithId(d.users, userId)
    case None => Failure(UserNotFound)
    case Some(u) => Success(Balance(u.maxPtoHours, u.usedPtoHours, u.maxPtoHours - u.usedPtoHours))
  }

  /** The balance of a stored user is that row's allotment, its used hours, and their difference. */
  lemma BalanceOfRow(d: Db, i: int)
    requires Consistent(d) && 0 <= i < |d.users|
    ensures var u := d.users[i];
            BalanceOf(d, Some(u.id)) == Success(Balance(u.maxPtoHours, u.usedPtoHours, u.maxPtoHours - u.usedPtoHours))
  {
    UserWithIdFindsRow(d.users, i);
  }

  /** What a submit returns and the database it leaves behind. */
  datatype Submission = Submission(outcome: Outcome<PtoError>, db: Db)

  /** `submitRequest` against an opened database: look up, check the balance, insert, debit. */
  function Submit(d: Db, userId: Option<int>, requestDate: string, hours: int, reason: string): Submission {
    match UserWithId(d.users, userId)
    case None => Submission(Fail(UserNotFound), d)
    case Some(u) =>
      if hours > u.maxPtoHours - u.usedPtoHours then Submission(Fail(InsufficientBalance), d)
      else
        var d1 := Inserted(d, NewRequest(0, userId.value, requestDate, hours, reason, Some("pending")));
        var u1 := u.(usedPtoHours := u.usedPtoHours + hours);
        if EmailClash(d1.users, u1) then Submission(Fail(StoreFailure(UniqueEmailViolation)), d1)
        else Submission(Pass, Updated(d1, u1))
  }

  /** A submit for an unknown user, or one asking for more than remains, writes nothing. */
  lemma SubmitRejectionWritesNothing(d: Db, userId: Option<int>, requestDate: string, hours: int, reason: string)
    ensures var s := Submit(d, userId, requestDate, hours, reason);
            s.outcome in {Fail(UserNotFound), Fail(InsufficientBalance)} ==> s.db == d
  {
  }

  /**
   * Which way a submit goes, in both directions: unknown user, not enough
   * balance, or success. The email constraint never fires, since the row
   * keeps its own email.
   */
  lemma SubmitOutcomes(d: Db, userId: Option<int>, requestDate: string, hours: int, reason: string)
    requires Consistent(d)
    ensures var s := Submit(d, userId, requestDate, hours, reason);
            && (s.outcome == Fail(UserNotFound) <==> forall u :: u in d.users ==> Some(u.id) != userId)
            && (s.outcome == Fail(InsufficientBalance) <==>
                  exists u :: u in d.users && Some(u.id) == userId && hours > u.maxPtoHours - u.usedPtoHours)
            && (s.outcome == Pass <==>
                  exists u :: u in d.users && Some(u.id) == userId && hours <= u.maxPtoHours - u.usedPtoHours)
  {
    var s := Submit(d, userId, requestDate, hours, reason);
    match UserWithId(d.users, userId)
    case None =>
    case Some(u) =>
      var i :| 0 <= i < |d.users| && d.users[i] == u;
      UserWithIdFindsRow(d.users, i);
      forall v | v in d.users && Some(v.id) == userId ensures v == u {
        var j :| 0 <= j < |d.users| && d.users[j] == v;
        UserWithIdFindsRow(d.users, j);
      }
      if hours <= u.maxPtoHours - u.usedPtoHours {
        SameEmailNoClash(d, u, u.(usedPtoHours := u.usedPtoHours + hours));
      }
  }

  /**
   * A successful submit appends exactly one pending row with the given
   * fields and a fresh id, adds `hours` to that user's used hours, and
   * changes no other field and no other user.
   */
  lemma SubmitSuccessEffect(d: Db, i: int, requestDate: string, hours: int, reason: string)
    requires Consistent(d) && 0 <= i < |d.users|
    requires hours <= d.users[i].maxPtoHours - d.users[i].usedPtoHours
    ensures var u := d.users[i];
            var s := Submit(d, Some(u.id), requestDate, hours, reason);
            && s.outcome == Pass
            && s.db.requests == d.requests + [PtoRequest(d.nextRequestId, u.id, requestDate, hours, reason, "pending")]
            && (forall r :: r in d.requests ==> r.id != d.nextRequestId)
            && |s.db.users| == |d.users|
            && s.db.users[i] == u.(usedPtoHours := u.usedPtoHours + hours)
            && (forall j :: 0 <= j < |d.users| && j != i ==> s.db.users[j] == d.users[j])
            && s.db.isOpen == d.isOpen && s.db.nextUserId == d.nextUserId && s.db.nextRequestId == d.nextRequestId + 1
  {
    var u := d.users[i];
    UserWithIdFindsRow(d.users, i);
    SameEmailNoClash(d, u, u.(usedPtoHours := u.usedPtoHours + hours));
    forall r | r in d.requests ensures r.id != d.nextRequestId {
      var k :| 0 <= k < |d.requests| && d.requests[k] == r;
    }
  }

  /** If no user had used more than the allotment before a submit, none has after it. */
  lemma SubmitKeepsWithinAllotment(d: Db, userId: Option<int>, requestDate: string, hours: int, reason: string)
    requires Consistent(d)
    requires forall u :: u in d.users ==> u.usedPtoHours <= u.maxPtoHours
    ensures var s := Submit(d, userId, requestDate, hours, reason);
            forall u :: u in s.db.users ==> u.usedPtoHours <= u.maxPtoHours
  {
    var s := Submit(d, userId, requestDate, hours, reason);
    SubmitOutcomes(d, userId, requestDate, hours, reason);
    if s.outcome == Pass {
      var v :| v in d.users && Some(v.id) == userId && hours <= v.maxPtoHours - v.usedPtoHours;
      var i :| 0 <= i < |d.users| && d.users[i] == v;
      SubmitSuccessEffect(d, i, requestDate, hours, reason);
      forall w | w in s.db.users ensures w.usedPtoHours <= w.maxPtoHours {
        var j :| 0 <= j < |s.db.users| && s.db.users[j] == w;
        if j != i { assert d.users[j] in d.users; }
      }
    }
  }

  /** A stored user with enough balance whose own email clashes with no other row: the submit passes. */
  lemma SubmitPasses(d: Db, userId: Option<int>, u: User, requestDate: string, hours: int, reason: string)
    requires UserWithId(d.users, userId) == Some(u) && hours <= u.maxPtoHours - u.usedPtoHours
    requires !EmailClash(d.users, u.(usedPtoHours := u.usedPtoHours + hours))
    ensures var d1 := Inserted(d, NewRequest(0, userId.value, requestDate, hours, reason, Some("pending")));
            Submit(d, userId, requestDate, hours, reason) == Submission(Pass, Updated(d1, u.(usedPtoHours := u.usedPtoHours + hours)))
  {
    assert Inserted(d, NewRequest(0, userId.value, requestDate, hours, reason, Some("pending"))).users == d.users;
  }

  /** Appending a pending row and then debiting a stored user keeps the schema's guarantees. */
  lemma DebitKeepsConsistent(d: Db, u: User, requestDate: string, hours: int, reason: string)
    requires Consistent(d) && u in d.users
    ensures var d1 := Appended(d, u.id, requestDate, hours, reason, "pending");
            var u1 := u.(usedPtoHours := u.usedPtoHours + hours);
            !EmailClash(d1.users, u1) && Consistent(Updated(d1, u1))
  {
    var d1 := Appended(d, u.id, requestDate, hours, reason, "pending");
    var u1 := u.(usedPtoHours := u.usedPtoHours + hours);
    InsertedValid(d, u.id, requestDate, hours, reason, "pending");
    SameEmailNoClash(d1, u, u1);
    UpdatedValid(d1, u1);
  }

  /** A submit keeps the schema's guarantees (unique ids and emails, counters ahead of ids). */
  lemma SubmitKeepsConsistent(d: Db, userId: Option<int>, requestDate: string, hours: int, reason: string)
    requires Consistent(d)
    ensures Consistent(Submit(d, userId, requestDate, hours, reason).db)
  {
    var found := UserWithId(d.users, userId);
    if found.Some? && hours <= found.value.maxPtoHours - found.value.usedPtoHours {
      var u := found.value;
      var d1 := Appended(d, u.id, requestDate, hours, reason, "pending");
      var u1 := u.(usedPtoHours := u.usedPtoHours + hours);
      assert Inserted(d, NewRequest(0, userId.value, requestDate, hours, reason, Some("pending"))) == d1;
      DebitKeepsConsistent(d, u, requestDate, hours, reason);
      assert Submit(d, userId, requestDate, hours, reason).db == Updated(d1, u1);
    } else {
      assert Submit(d, userId, requestDate, hours, reason).db == d;
    }
  }

  /** The balance of a row whose used hours grew by `hours`. */
  lemma BalanceAfterDebit(db: Db, i: int, u: User, hours: int)
    requires Consistent(db) && 0 <= i < |db.users| && db.users[i] == u.(usedPtoHours := u.usedPtoHours + hours)
    ensures BalanceOf(db, Some(u.id))
            == Success(Balance(u.maxPtoHours, u.usedPtoHours + hours, u.maxPtoHours - (u.usedPtoHours + hours)))
  {
    BalanceOfRow(db, i);
  }

  /**
   * After a successful submit the user's request list has exactly one more
   * entry, at the end, and the used hours of the balance grew by `hours`.
   */
  lemma SubmitThenQuery(d: Db, i: int, requestDate: string, hours: int, reason: string)
    requires Consistent(d) && 0 <= i < |d.users|
    requires hours <= d.users[i].maxPtoHours - d.users[i].usedPtoHours
    ensures var u := d.users[i];
            var s := Submit(d, Some(u.id), requestDate, hours, reason);
            && RequestsOf(s.db.requests, Some(u.id))
               == RequestsOf(d.requests, Some(u.id)) + [PtoRequest(d.nextRequestId, u.id, requestDate, hours, reason, "pending")]
            && BalanceOf(s.db, Some(u.id))
               == Success(Balance(u.maxPtoHours, u.usedPtoHours + hours, u.maxPtoHours - (u.usedPtoHours + hours)))
  {
    var u := d.users[i];
    var s := Submit(d, Some(u.id), requestDate, hours, reason);
    var row := PtoRequest(d.nextRequestId, u.id, requestDate, hours, reason, "pending");
    SubmitSuccessEffect(d, i, requestDate, hours, reason);
    RequestsOfAppend(d.requests, [row], Some(u.id));
    assert RequestsOf([row], Some(u.id)) == [row];
    SubmitKeepsConsistent(d, Some(u.id), requestDate, hours, reason);
    BalanceAfterDebit(s.db, i, u, hours);
  }

  /** Nothing rejects negative hours: a submit of -8 hours succeeds and drives used hours below zero. */
  lemma NegativeHoursCreditTheBalance()
    ensures var d := Db(true, [User(1, "john@example.com", "h", 120, 0)], [], 2, 1);
            var s := Submit(d, Some(1), "01/10/2025", -8, "Vacation");
            s.outcome == Pass && s.db.users[0].usedPtoHours == -8
  {
  }

  /** The two worked cases: 30 of 20 remaining hours is refused, 10 is granted. */
  lemma BalanceScenarios()
    ensures var d := Db(true, [User(1, "john@example.com", "h", 120, 100)], [], 2, 1);
            && Submit(d, Some(1), "01/10/2025", 30, "Vacation") == Submission(Fail(InsufficientBalance), d)
            && Submit(d, Some(1), "01/10/2025", 10, "Vacation").outcome == Pass
            && Submit(d, Some(1), "01/10/2025", 10, "Vacation").db.users[0].usedPtoHours == 110
  {
  }

  // ---------------------------------------------------------------- the service methods

  /** `getBalance`. */
  method GetBalance(store: Store, userId: Option<int>) returns (r: Result<Balance, PtoError>)
    requires store.Valid()
    modifies store
    ensures store.Valid()
    ensures store.Value() == AfterInit(old(store.Value()), store.hashes)
    ensures r == BalanceOf(store.Value(), userId)
  {
    var user := store.FindUserById(userId);
    if user.None? {
      return Failure(UserNotFound);
    }
    var u := user.value;
    var remaining := u.maxPtoHours - u.usedPtoHours;
    r := Success(Balance(u.maxPtoHours, u.usedPtoHours, remaining));
  }

  /** `getRequests`. */
  method GetRequests(store: Store, userId: Option<int>) returns (rows: seq<PtoRequest>)
    requires store.Valid()
    modifies store
    ensures store.Valid()
    ensures store.Value() == AfterInit(old(store.Value()), store.hashes)
    ensures rows == RequestsOf(store.requests, userId)
  {
    rows := store.GetRequestsByUserId(userId);
  }

  /** `submitRequest`. */
  method SubmitRequest(store: Store, userId: Option<int>, requestDate: string, hours: int, reason: string)
    returns (outcome: Outcome<PtoError>)
    requires store.Valid()
    modifies store
    ensures store.Valid()
    ensures Submission(outcome, store.Value())
            == Submit(AfterInit(old(store.Value()), store.hashes), userId, requestDate, hours, reason)
  {
    var user := store.FindUserById(userId);
    ghost var d := store.Value();
    if user.None? {
      return Fail(UserNotFound);
    }
    var u := user.value;
    var remaining := u.maxPtoHours - u.usedPtoHours;
    if hours > remaining {
      return Fail(InsufficientBalance);
    }
    var newUsed := u.usedPtoHours + hours;
    ghost var d1 := Inserted(d, NewRequest(0, userId.value, requestDate, hours, reason, Some("pending")));
    var updated := u.(usedPtoHours := newUsed);
    assert AfterInit(d, store.hashes) == d;
    SameEmailNoClash(d, u, updated);
    SubmitPasses(d, userId, u, requestDate, hours, reason);
    store.CreatePtoRequest(NewRequest(0, userId.value, requestDate, hours, reason, Some("pending")));
    assert store.Value() == d1;
    assert AfterInit(d1, store.hashes) == d1 && d1.users == d.users;
    var ok := store.UpdateUser(updated);
    assert ok && store.Value() == Updated(d1, updated);
    if !ok {
      return Fail(StoreFailure(UniqueEmailViolation));
    }
    outcome := Pass;
  }
}
