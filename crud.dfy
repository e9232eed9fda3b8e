/** `backend/crud.py` over the `conversations` table of `backend/models.py`, held as the list of
    its rows in insertion order. The primary key is assigned by the database, one more than
    any key handed out before, so keys grow with insertion order. */
module Crud {
  import opened PyStr

  /** A row of `conversations`: (id, user_id, role, content). */
  datatype Row = Row(id: nat, userId: string, role: string, content: string)

  const DefaultLimit: nat := 10

  /** Keys strictly increase along the list, i.e. with insertion order. */
  predicate IdsAscending(rows: seq<Row>) {
    forall i, j :: 0 <= i < j < |rows| ==> rows[i].id < rows[j].id
  }

  predicate IdsDescending(rows: seq<Row>) {
    forall i, j :: 0 <= i < j < |rows| ==> rows[i].id > rows[j].id
  }

  class Database {
    var rows: seq<Row>
    var nextId: nat

    ghost predicate Valid()
      reads this
    {
      IdsAscending(rows) && (forall i :: 0 <= i < |rows| ==> rows[i].id < nextId)
    }

    constructor ()
      ensures Valid() && rows == [] && nextId == 1
    {
      rows := [];
      nextId := 1;
    }

    /** `save_message`: one row is added, after all others, with a fresh key and the given
        user, role and content; the row stored is returned. */
    method SaveMessage(userId: string, role: string, content: string) returns (message: Row)
      requires Valid()
      modifies this
      ensures Valid()
      ensures message == Row(old(nextId), userId, role, content)
      ensures rows == old(rows) + [message] && nextId == old(nextId) + 1
    {
      message := Row(nextId, userId, role, content);
      rows := rows + [message];
      nextId := nextId + 1;
    }

    /** `query(Conversation).filter(user_id == userId).delete()`: every row of that user goes,
        every other row stays, in order. */
    method DeleteUser(userId: string)
      requires Valid()
      modifies this
      ensures Valid()
      ensures rows == Where(old(rows), (r: Row) => r.userId != userId) && nextId == old(nextId)
    {
      var kept := Where(rows, (r: Row) => r.userId != userId);
      WhereKeepsAscending(rows, (r: Row) => r.userId != userId);
      WhereSubset(rows, (r: Row) => r.userId != userId);
      forall i | 0 <= i < |kept| ensures kept[i].id < nextId {
        assert kept[i] in kept;
        var k :| 0 <= k < |rows| && rows[k] == kept[i];
      }
      rows := kept;
    }
  }

  /** The rows that satisfy `keep`, in table order. */
  function Where(rows: seq<Row>, keep: Row -> bool): (r: seq<Row>)
    ensures |r| <= |rows|
    decreases |rows|
  {
    if rows == [] then []
    else
      var rest := Where(rows[1..], keep);
      if keep(rows[0]) then [rows[0]] + rest else rest
  }

  /** `Where` keeps exactly the rows satisfying `keep`. */
  lemma {:induction false} WhereMembers(rows: seq<Row>, keep: Row -> bool, x: Row)
    ensures x in Where(rows, keep) <==> x in rows && keep(x)
    decreases |rows|
  {
    if rows != [] {
      WhereMembers(rows[1..], keep, x);
      assert rows == [rows[0]] + rows[1..];
    }
  }

  lemma {:induction false} WhereSubset(rows: seq<Row>, keep: Row -> bool)
    ensures forall x :: x in Where(rows, keep) ==> x in rows
  {
    forall x | x in Where(rows, keep) ensures x in rows {
      WhereMembers(rows, keep, x);
    }
  }

  /** A selection from a table in key order is still in key order. */
  lemma {:induction false} WhereKeepsAscending(rows: seq<Row>, keep: Row -> bool)
    requires IdsAscending(rows)
    ensures IdsAscending(Where(rows, keep))
    decreases |rows|
  {
    if rows != [] {
      WhereKeepsAscending(rows[1..], keep);
      WhereSubset(rows[1..], keep);
      var rest := Where(rows[1..], keep);
      forall x | x in rest ensures rows[0].id < x.id {
        var k :| 0 <= k < |rows[1..]| && rows[1..][k] == x;
        assert rows[k + 1] == x;
      }
      if keep(rows[0]) {
        var r := [rows[0]] + rest;
        forall i, j | 0 <= i < j < |r| ensures r[i].id < r[j].id {
          if i == 0 { assert r[j] == rest[j - 1] && r[j] in rest; }
          else { assert r[i] == rest[i - 1] && r[j] == rest[j - 1]; }
        }
      }
    }
  }

  function Reverse(s: seq<Row>): (r: seq<Row>)
    ensures |r| == |s|
    ensures forall i :: 0 <= i < |s| ==> r[i] == s[|s| - 1 - i]
    decreases |s|
  {
    if s == [] then [] else Reverse(s[1..]) + [s[0]]
  }

  /** The rows of one user, in table order. */
  function OfUser(rows: seq<Row>, userId: string): seq<Row> {
    Where(rows, (r: Row) => r.userId == userId)
  }

  /** `get_conversations`: the user's rows, ordered by key descending, then limited. */
  function GetConversations(rows: seq<Row>, userId: string, limit: nat := DefaultLimit): (r: seq<Row>)
    ensures |r| <= limit
  {
    Truncate(Reverse(OfUser(rows, userId)), limit)
  }

  /** The history endpoint's query: the user's rows, ordered by key ascending, then limited. */
  function OldestConversations(rows: seq<Row>, userId: string, limit: nat := DefaultLimit): (r: seq<Row>)
    ensures |r| <= limit
  {
    Truncate(OfUser(rows, userId), limit)
  }

  /** What `ORDER BY id DESC LIMIT n` over a user's rows means, stated without computing it:
      newest first, only that user's rows, as many as there are up to `n`, and no row of the
      user left out is newer than one returned. */
  ghost predicate NewestFirst(rows: seq<Row>, userId: string, n: nat, r: seq<Row>) {
    IdsDescending(r)
    && (forall k :: 0 <= k < |r| ==> r[k] in rows && r[k].userId == userId)
    && |r| == (if |OfUser(rows, userId)| < n then |OfUser(rows, userId)| else n)
    && (forall x, k :: x in rows && x.userId == userId && x !in r && 0 <= k < |r| ==> x.id < r[k].id)
  }

  /** The same for `ORDER BY id ASC LIMIT n`: oldest first, and no row left out is older. */
  ghost predicate OldestFirst(rows: seq<Row>, userId: string, n: nat, r: seq<Row>) {
    IdsAscending(r)
    && (forall k :: 0 <= k < |r| ==> r[k] in rows && r[k].userId == userId)
    && |r| == (if |OfUser(rows, userId)| < n then |OfUser(rows, userId)| else n)
    && (forall x, k :: x in rows && x.userId == userId && x !in r && 0 <= k < |r| ==> x.id > r[k].id)
  }

  /** `get_conversations` returns the user's most recent rows, newest first: ordering happens
      before the limit. */
  lemma GetConversationsNewestFirst(rows: seq<Row>, userId: string, limit: nat)
    requires IdsAscending(rows)
    ensures NewestFirst(rows, userId, limit, GetConversations(rows, userId, limit))
  {
    var f := OfUser(rows, userId);
    var n := |f|;
    var r := GetConversations(rows, userId, limit);
    WhereKeepsAscending(rows, (x: Row) => x.userId == userId);
    assert forall k :: 0 <= k < |r| ==> r[k] == f[n - 1 - k];
    forall k | 0 <= k < |r| ensures r[k] in rows && r[k].userId == userId {
      assert r[k] in f;
      WhereMembers(rows, (x: Row) => x.userId == userId, r[k]);
    }
    forall x, k | x in rows && x.userId == userId && x !in r && 0 <= k < |r| ensures x.id < r[k].id {
      WhereMembers(rows, (y: Row) => y.userId == userId, x);
      var j :| 0 <= j < n && f[j] == x;
      LimitedReverseHolds(f, limit, j);
      assert j < n - 1 - k;
    }
  }

  /** The history endpoint returns the user's oldest rows, oldest first. */
  lemma OldestConversationsOldestFirst(rows: seq<Row>, userId: string, limit: nat)
    requires IdsAscending(rows)
    ensures OldestFirst(rows, userId, limit, OldestConversations(rows, userId, limit))
  {
    var f := OfUser(rows, userId);
    var r := OldestConversations(rows, userId, limit);
    WhereKeepsAscending(rows, (x: Row) => x.userId == userId);
    forall k | 0 <= k < |r| ensures r[k] in rows && r[k].userId == userId {
      assert r[k] == f[k];
      WhereMembers(rows, (x: Row) => x.userId == userId, r[k]);
    }
    forall x, k | x in rows && x.userId == userId && x !in r && 0 <= k < |r| ensures x.id > r[k].id {
      WhereMembers(rows, (y: Row) => y.userId == userId, x);
      var j :| 0 <= j < |f| && f[j] == x;
      LimitHolds(f, limit, j);
      assert k < j;
    }
  }

  /** The last `|Truncate(Reverse(f), n)|` elements of `f` are the ones the limited reversal holds. */
  lemma LimitedReverseHolds(f: seq<Row>, n: nat, j: nat)
    requires j < |f|
    ensures j >= |f| - |Truncate(Reverse(f), n)| ==> f[j] in Truncate(Reverse(f), n)
  {
    var r := Truncate(Reverse(f), n);
    if j >= |f| - |r| {
      assert r[|f| - 1 - j] == f[j];
    }
  }

  /** The first `|Truncate(f, n)|` elements of `f` are the ones the limit holds. */
  lemma LimitHolds(f: seq<Row>, n: nat, j: nat)
    requires j < |f|
    ensures j < |Truncate(f, n)| ==> f[j] in Truncate(f, n)
  {
    var r := Truncate(f, n);
    if j < |r| {
      assert r[j] == f[j];
    }
  }
}
