/**
 * The dashboard's view model: the three balance cards, the request list
 * sorted most recent first, the status badge, and the pass-throughs to
 * the PTO store. `new Date(s).getTime()` is a foreign parse, so the
 * sort takes the date-to-time map as a parameter.
 */
module Dashboard {
  import opened Wrappers
  import opened Text
  import opened Api
  import opened Stores

  datatype BalanceCard = BalanceCard(title: string, description: string, value: int)

  /** `balanceCards`. */
  function BalanceCards(b: Option<ClientBalance>): seq<BalanceCard> {
    if b.None? then []
    else [BalanceCard("Max Hours", "Allotted PTO Hours", b.value.maxHours),
          BalanceCard("Used Hours", "How many used so far", b.value.usedHours),
          BalanceCard("Remaining", "Remaining PTO Hours", b.value.remainingHours)]
  }

  /**
   * No balance, no cards; otherwise exactly three, Max / Used / Remaining in
   * that order, carrying the balance's figures, so a balance from the
   * server shows remaining = max - used.
   */
  lemma BalanceCardsShape(b: Option<ClientBalance>)
    ensures var cards := BalanceCards(b);
            && (b.None? <==> cards == [])
            && (b.Some? ==>
                  && |cards| == 3
                  && cards[0].title == "Max Hours" && cards[1].title == "Used Hours" && cards[2].title == "Remaining"
                  && ClientBalance(cards[0].value, cards[1].value, cards[2].value) == b.value)
            && (b.Some? && b.value.remainingHours == b.value.maxHours - b.value.usedHours ==>
                  cards[2].value == cards[0].value - cards[1].value)
  {
  }

  // ---------------------------------------------------------------- sortedRequests

  /** Most recent first. */
  ghost predicate NewestFirst(rs: seq<ClientRequest>, time: string -> int) {
    forall i, j :: 0 <= i < j < |rs| ==> time(rs[i].requestDate) >= time(rs[j].requestDate)
  }

  /** The requests dated at time `t`, in their order. */
  function At(rs: seq<ClientRequest>, time: string -> int, t: int): seq<ClientRequest> {
    if rs == [] then []
    else (if time(rs[0].requestDate) == t then [rs[0]] else []) + At(rs[1..], time, t)
  }

  /** Put `x` before the first request that is not more recent than it. */
  function Insert(x: ClientRequest, rs: seq<ClientRequest>, time: string -> int): (r: seq<ClientRequest>)
    ensures multiset(r) == multiset(rs) + multiset{x}
    ensures |r| == |rs| + 1
  {
    if rs == [] || time(x.requestDate) >= time(rs[0].requestDate) then [x] + rs
    else
      assert rs == [rs[0]] + rs[1..];
      [rs[0]] + Insert(x, rs[1..], time)
  }

  /**
   * `[...requests].sort((a, b) => time(b) - time(a))`: a stable sort by
   * descending time, as `Array.prototype.sort` is. The store's array is
   * not touched: this is a function of its contents.
   */
  function SortedRequests(rs: seq<ClientRequest>, time: string -> int): (r: seq<ClientRequest>)
    ensures multiset(r) == multiset(rs)
  {
    if rs == [] then []
    else
      assert rs == [rs[0]] + rs[1..];
      Insert(rs[0], SortedRequests(rs[1..], time), time)
  }

  /** No request in `rs` is more recent than `b`. */
  ghost predicate NotAfter(rs: seq<ClientRequest>, time: string -> int, b: int) {
    forall i :: 0 <= i < |rs| ==> time(rs[i].requestDate) <= b
  }

  /** Inserting a request no more recent than `b` into such a list keeps it so. */
  lemma {:induction false} InsertNotAfter(x: ClientRequest, rs: seq<ClientRequest>, time: string -> int, b: int)
    requires NotAfter(rs, time, b) && time(x.requestDate) <= b
    ensures NotAfter(Insert(x, rs, time), time, b)
    decreases |rs|
  {
    if rs == [] || time(x.requestDate) >= time(rs[0].requestDate) {
      var r := [x] + rs;
      forall i | 0 <= i < |r| ensures time(r[i].requestDate) <= b {
        if i > 0 { assert r[i] == rs[i - 1]; }
      }
    } else {
      var head, tail := rs[0], rs[1..];
      assert NotAfter(tail, time, b) by {
        forall i | 0 <= i < |tail| ensures time(tail[i].requestDate) <= b {
          assert tail[i] == rs[i + 1];
        }
      }
      InsertNotAfter(x, tail, time, b);
      var ins := Insert(x, tail, time);
      var r := [head] + ins;
      forall i | 0 <= i < |r| ensures time(r[i].requestDate) <= b {
        if i > 0 { assert r[i] == ins[i - 1]; }
      }
    }
  }

  lemma {:induction false} InsertNewestFirst(x: ClientRequest, rs: seq<ClientRequest>, time: string -> int)
    requires NewestFirst(rs, time)
    ensures NewestFirst(Insert(x, rs, time), time)
    decreases |rs|
  {
    if rs == [] || time(x.requestDate) >= time(rs[0].requestDate) {
      var r := [x] + rs;
      forall i, j | 0 <= i < j < |r| ensures time(r[i].requestDate) >= time(r[j].requestDate) {
        assert r[j] == rs[j - 1];
        if i > 0 {
          assert r[i] == rs[i - 1];
        } else if j > 1 {
          assert time(rs[0].requestDate) >= time(rs[j - 1].requestDate);
        }
      }
    } else {
      var head, tail := rs[0], rs[1..];
      assert NewestFirst(tail, time) && NotAfter(tail, time, time(head.requestDate)) by {
        forall i, j | 0 <= i < j < |tail| ensures time(tail[i].requestDate) >= time(tail[j].requestDate) {
          assert tail[i] == rs[i + 1] && tail[j] == rs[j + 1];
        }
        forall i | 0 <= i < |tail| ensures time(tail[i].requestDate) <= time(head.requestDate) {
          assert tail[i] == rs[i + 1];
        }
      }
      InsertNewestFirst(x, tail, time);
      InsertNotAfter(x, tail, time, time(head.requestDate));
      var ins := Insert(x, tail, time);
      var r := [head] + ins;
      forall i, j | 0 <= i < j < |r| ensures time(r[i].requestDate) >= time(r[j].requestDate) {
        assert r[j] == ins[j - 1];
        if i > 0 { assert r[i] == ins[i - 1]; }
      }
    }
  }

  lemma {:induction false} SortedNewestFirst(rs: seq<ClientRequest>, time: string -> int)
    ensures NewestFirst(SortedRequests(rs, time), time)
  {
    if rs != [] {
      SortedNewestFirst(rs[1..], time);
      InsertNewestFirst(rs[0], SortedRequests(rs[1..], time), time);
    }
  }

  lemma {:induction false} AtConcat(a: seq<ClientRequest>, b: seq<ClientRequest>, time: string -> int, t: int)
    ensures At(a + b, time, t) == At(a, time, t) + At(b, time, t)
  {
    if a == [] {
      assert a + b == b;
    } else {
      assert (a + b)[1..] == a[1..] + b;
      AtConcat(a[1..], b, time, t);
    }
  }

  /** The requests of one date in a one-element list. */
  lemma AtSingle(y: ClientRequest, time: string -> int, t: int)
    ensures At([y], time, t) == if time(y.requestDate) == t then [y] else []
  {
    assert [y][1..] == [];
  }

  /**
   * Insertion puts `x` ahead of every request of its own date: the
   * requests it passes are strictly more recent.
   */
  lemma {:induction false} InsertStable(x: ClientRequest, rs: seq<ClientRequest>, time: string -> int, t: int)
    ensures At(Insert(x, rs, time), time, t) == At([x] + rs, time, t)
    decreases |rs|
  {
    if rs != [] && time(x.requestDate) < time(rs[0].requestDate) {
      var head, tail := rs[0], rs[1..];
      var ins := Insert(x, tail, time);
      assert Insert(x, rs, time) == [head] + ins;
      assert [head] + tail == rs;
      var ah, ax := At([head], time, t), At([x], time, t);
      assert ah == [] || ax == [] by {
        AtSingle(x, time, t);
        AtSingle(head, time, t);
      }
      calc {
        At([head] + ins, time, t);
        == { AtConcat([head], ins, time, t); }
        ah + At(ins, time, t);
        == { InsertStable(x, tail, time, t); AtConcat([x], tail, time, t); }
        ah + (ax + At(tail, time, t));
        == 
        ax + (ah + At(tail, time, t));
        == { AtConcat([head], tail, time, t); }
        ax + At(rs, time, t);
        == { AtConcat([x], rs, time, t); }
        At([x] + rs, time, t);
      }
    }
  }

  /**
   * The sort is stable: the requests sharing a date keep their original
   * relative order.
   */
  lemma {:induction false} SortedStable(rs: seq<ClientRequest>, time: string -> int, t: int)
    ensures At(SortedRequests(rs, time), time, t) == At(rs, time, t)
  {
    if rs != [] {
      var head, tail := rs[0], rs[1..];
      var sortedTail := SortedRequests(tail, time);
      assert [head] + tail == rs;
      calc {
        At(SortedRequests(rs, time), time, t);
        At(Insert(head, sortedTail, time), time, t);
        == { InsertStable(head, sortedTail, time, t); }
        At([head] + sortedTail, time, t);
        == { AtConcat([head], sortedTail, time, t); }
        At([head], time, t) + At(sortedTail, time, t);
        == { SortedStable(tail, time, t); }
        At([head], time, t) + At(tail, time, t);
        == { AtConcat([head], tail, time, t); }
        At(rs, time, t);
      }
    }
  }

  // ---------------------------------------------------------------- getBadgeVariant

  /** `getBadgeVariant(status)`. */
  function BadgeVariant(status: Option<string>): string {
    if status == Some("pending") then "secondary"
    else if status == Some("approved") then "default"
    else if status == Some("denied") then "destructive"
    else "outline"
  }

  /** The three known statuses get their own variants, and everything else, absent included, gets 'outline'. */
  lemma BadgeVariants(status: Option<string>)
    ensures BadgeVariant(status) in {"secondary", "default", "destructive", "outline"}
    ensures BadgeVariant(status) == "outline" <==> status !in {Some("pending"), Some("approved"), Some("denied")}
    ensures BadgeVariant(Some("pending")) == "secondary" && BadgeVariant(Some("approved")) == "default"
            && BadgeVariant(Some("denied")) == "destructive" && BadgeVariant(None) == "outline"
  {
  }

  // ---------------------------------------------------------------- the view model

  /** `loadData()`: both fetches pass their token check before either reply settles; failures are caught. */
  function LoadStep(c: Client, balanceReply: Reply<ClientBalance>, requestsReply: Reply<seq<ClientRequest>>): Client {
    if !Truthy(c.auth.token) then c
    else
      var b := BalanceSettled(c.(pto := c.pto.(loading := true)), balanceReply);
      RequestsSettled(b.client.(pto := b.client.pto.(loading := true)), requestsReply).client
  }

  /**
   * With a token, loading the dashboard ends not loading; each successful
   * reply is stored, and with both successful the session is untouched.
   */
  lemma LoadOutcome(c: Client, b: Reply<ClientBalance>, rs: Reply<seq<ClientRequest>>)
    requires Truthy(c.auth.token)
    ensures var r := LoadStep(c, b, rs);
            && !r.pto.loading
            && (rs.Ok? ==> r.pto.requests == rs.data)
            && (b.Ok? && (rs.Ok? || !Unauthorized(rs.failure)) ==> r.pto.balance == Some(b.data))
            && (b.Ok? && rs.Ok? ==> r == c.(pto := c.pto.(balance := Some(b.data), requests := rs.data, loading := false)))
  {
  }

  class DashboardViewModel {
    const pto: PTOStore

    constructor(pto: PTOStore)
      ensures this.pto == pto
    {
      this.pto := pto;
    }

    /** `isLoading`: the store's flag, read through. */
    function IsLoading(): (r: bool)
      reads this, pto
      ensures r == pto.State().loading
    {
      pto.loading
    }

    /** `error`: the store's error, read through. */
    function Error(): (r: Option<string>)
      reads this, pto
      ensures r == pto.State().error
    {
      pto.error
    }

    /** `clearError()`. */
    method ClearError()
      modifies pto
      ensures pto.State() == old(pto.State()).(error := None) && Error() == None
    {
      pto.ClearError();
    }

    /** `loadData()`; `auth` is the root store's `authStore`. */
    method LoadData(auth: AuthStore, balanceReply: Reply<ClientBalance>, requestsReply: Reply<seq<ClientRequest>>)
      requires auth.pto == pto
      modifies pto, auth
      ensures Snapshot(auth) == LoadStep(old(Snapshot(auth)), balanceReply, requestsReply)
      ensures Truthy(old(auth.token)) ==> !IsLoading()
    {
      ghost var c := Snapshot(auth);
      if !Truthy(auth.token) {
        return;
      }
      pto.loading := true;
      var thrownBalance := pto.SettleBalance(auth, balanceReply);
      pto.loading := true;
      var thrownRequests := pto.SettleRequests(auth, requestsReply);
      LoadOutcome(c, balanceReply, requestsReply);
    }
  }
}
