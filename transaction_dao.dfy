/**
 * The `transactions` table behind the Room DAO: insert with REPLACE on a key conflict, delete by
 * the entity's key, the full list ordered by date descending, the list of one type, and the
 * nullable `SUM(amount)` of one type. The queries are pure functions of the rows; the table class
 * holds the rows and the auto-increment counter and its two mutators update them in place.
 */
module TransactionDAO {
  import opened Wrappers
  import opened TransactionModel

  function Max(a: int, b: int): int { if a < b then b else a }

  /** Some row carries key `id`. */
  predicate HasId(rows: seq<Transaction>, id: int) {
    exists x :: x in rows && x.id == id
  }

  /** The primary-key constraint: no two rows share a key. */
  predicate UniqueIds(rows: seq<Transaction>) {
    forall i, j :: 0 <= i < j < |rows| ==> rows[i].id != rows[j].id
  }

  /** Every stored key is at most the auto-increment counter. */
  predicate KeysUpTo(rows: seq<Transaction>, lastId: int) {
    forall x :: x in rows ==> x.id <= lastId
  }

  // ---------------------------------------------------------------------------------------------
  // Insert with OnConflictStrategy.REPLACE
  // ---------------------------------------------------------------------------------------------

  /**
   * The key a row is stored under: a key left at 0 is treated as "not set" and the store takes the
   * next value of its auto-increment counter, which is larger than every key it ever handed out;
   * any other key is kept.
   */
  function AssignedId(lastId: int, t: Transaction): (id: int)
    ensures t.id != UnsetId ==> id == t.id
    ensures t.id == UnsetId ==> id > lastId
  {
    if t.id == UnsetId then lastId + 1 else t.id
  }

  /** The row actually written for `t`: `t` itself under its assigned key. */
  function StoredRow(lastId: int, t: Transaction): (row: Transaction)
    ensures row.id == AssignedId(lastId, t)
    ensures row.kind == t.kind && row.category == t.category && row.amount == t.amount
    ensures row.date == t.date && row.note == t.note
  {
    t.(id := AssignedId(lastId, t))
  }

  /** Every row whose key is `row.id` overwritten by `row`, in place. */
  function ReplaceKey(rows: seq<Transaction>, row: Transaction): (r: seq<Transaction>)
    ensures |r| == |rows|
    ensures forall i :: 0 <= i < |rows| ==> r[i] == if rows[i].id == row.id then row else rows[i]
  {
    if rows == [] then []
    else [if rows[0].id == row.id then row else rows[0]] + ReplaceKey(rows[1..], row)
  }

  /**
   * INSERT OR REPLACE: a row already stored under the same key is replaced (no second row appears),
   * otherwise the row is added.
   */
  function Upsert(rows: seq<Transaction>, row: Transaction): (r: seq<Transaction>)
    ensures HasId(rows, row.id) ==> |r| == |rows|
    ensures !HasId(rows, row.id) ==> r == rows + [row]
    ensures forall x :: x in r <==> x == row || (x in rows && x.id != row.id)
    ensures forall i :: 0 <= i < |r| && r[i].id == row.id ==> r[i] == row
    ensures UniqueIds(rows) ==> UniqueIds(r)
  {
    if HasId(rows, row.id) then
      var r := ReplaceKey(rows, row);
      assert row in r by {
        var i :| 0 <= i < |rows| && rows[i].id == row.id;
        assert r[i] == row;
      }
      r
    else
      rows + [row]
  }

  // ---------------------------------------------------------------------------------------------
  // Delete by entity (matched on the primary key only)
  // ---------------------------------------------------------------------------------------------

  /** The rows whose key differs from `id`, in their stored order. */
  function RemoveKey(rows: seq<Transaction>, id: int): (r: seq<Transaction>)
    ensures forall x :: x in r <==> x in rows && x.id != id
    ensures |r| <= |rows|
  {
    if rows == [] then []
    else if rows[0].id == id then RemoveKey(rows[1..], id)
    else [rows[0]] + RemoveKey(rows[1..], id)
  }

  /** Deleting a key that is not stored changes nothing. */
  lemma {:induction false} RemoveAbsentKey(rows: seq<Transaction>, id: int)
    requires !HasId(rows, id)
    ensures RemoveKey(rows, id) == rows
  {
    if rows != [] {
      assert rows[0] in rows;
      RemoveAbsentKey(rows[1..], id);
      assert rows == [rows[0]] + rows[1..];
    }
  }

  /** The key constraint splits into "the head's key is not in the tail" and the constraint on the tail. */
  lemma UniqueIdsCons(rows: seq<Transaction>)
    requires rows != []
    ensures UniqueIds(rows) <==> UniqueIds(rows[1..]) && !HasId(rows[1..], rows[0].id)
  {
    var tail := rows[1..];
    if UniqueIds(rows) {
      forall i, j | 0 <= i < j < |tail| ensures tail[i].id != tail[j].id {
        assert tail[i] == rows[i + 1] && tail[j] == rows[j + 1];
      }
      forall x | x in tail ensures x.id != rows[0].id {
        var k :| 0 <= k < |tail| && tail[k] == x;
        assert rows[k + 1] == x;
      }
    }
    if UniqueIds(tail) && !HasId(tail, rows[0].id) {
      forall i, j | 0 <= i < j < |rows| ensures rows[i].id != rows[j].id {
        if i == 0 {
          assert rows[j] in tail;
        } else {
          assert rows[i] == tail[i - 1] && rows[j] == tail[j - 1];
        }
      }
    }
  }

  /** Deleting keeps the key constraint, and removes exactly one row when the key is stored. */
  lemma {:induction false} RemoveKeyUnique(rows: seq<Transaction>, id: int)
    requires UniqueIds(rows)
    ensures UniqueIds(RemoveKey(rows, id))
    ensures |RemoveKey(rows, id)| == if HasId(rows, id) then |rows| - 1 else |rows|
  {
    if rows != [] {
      var tail := rows[1..];
      UniqueIdsCons(rows);
      RemoveKeyUnique(tail, id);
      assert HasId(rows, id) <==> rows[0].id == id || HasId(tail, id) by {
        assert rows == [rows[0]] + tail;
      }
      if rows[0].id != id {
        UniqueIdsCons([rows[0]] + RemoveKey(tail, id));
        assert ([rows[0]] + RemoveKey(tail, id))[1..] == RemoveKey(tail, id);
      }
    }
  }

  // ---------------------------------------------------------------------------------------------
  // SELECT ... ORDER BY date DESC
  // ---------------------------------------------------------------------------------------------

  /** Dates never increase along the list. */
  predicate DateDescending(s: seq<Transaction>) {
    forall i, j :: 0 <= i < j < |s| ==> s[i].date >= s[j].date
  }

  /** A row no earlier than any row of a date-descending list can go in front of it. */
  lemma ConsDescending(h: Transaction, t: seq<Transaction>)
    requires DateDescending(t)
    requires forall y :: y in t ==> h.date >= y.date
    ensures DateDescending([h] + t)
  {
    var r := [h] + t;
    forall i, j | 0 <= i < j < |r| ensures r[i].date >= r[j].date {
      assert r[j] == t[j - 1] && r[j] in t;
      if i > 0 {
        assert r[i] == t[i - 1];
      }
    }
  }

  /** Places `x` in front of the first row that is not later than it. */
  function InsertByDate(x: Transaction, s: seq<Transaction>): (r: seq<Transaction>)
    requires DateDescending(s)
    ensures DateDescending(r)
    ensures |r| == |s| + 1
    ensures forall y :: y in r ==> y in s || y == x
  {
    if s == [] then [x]
    else if s[0].date <= x.date then
      assert forall y :: y in s ==> x.date >= y.date by {
        forall y | y in s ensures x.date >= y.date {
          var k :| 0 <= k < |s| && s[k] == y;
          assert s[0].date >= s[k].date;
        }
      }
      ConsDescending(x, s);
      [x] + s
    else
      var tail := InsertByDate(x, s[1..]);
      assert s == [s[0]] + s[1..];
      assert forall y :: y in tail ==> s[0].date >= y.date by {
        forall y | y in tail ensures s[0].date >= y.date {
          if y != x {
            var k :| 0 <= k < |s[1..]| && s[1..][k] == y;
            assert s[k + 1] == y;
          }
        }
      }
      ConsDescending(s[0], tail);
      [s[0]] + tail
  }

  /** Insertion adds exactly the one row. */
  lemma {:induction false} InsertByDatePermutes(x: Transaction, s: seq<Transaction>)
    requires DateDescending(s)
    ensures multiset(InsertByDate(x, s)) == multiset(s) + multiset{x}
  {
    if s != [] && s[0].date > x.date {
      InsertByDatePermutes(x, s[1..]);
      assert s == [s[0]] + s[1..];
    }
  }

  /**
   * One ordering that ORDER BY date DESC may produce. SQL leaves the order of rows with equal dates
   * open, so callers may rely only on the contract: sorted by date descending and a permutation of
   * the input.
   */
  function SortByDateDesc(s: seq<Transaction>): (r: seq<Transaction>)
    ensures DateDescending(r)
    ensures multiset(r) == multiset(s)
    ensures |r| == |s|
  {
    if s == [] then []
    else
      assert s == [s[0]] + s[1..];
      InsertByDatePermutes(s[0], SortByDateDesc(s[1..]));
      InsertByDate(s[0], SortByDateDesc(s[1..]))
  }

  // ---------------------------------------------------------------------------------------------
  // WHERE type = :type, SUM(amount)
  // ---------------------------------------------------------------------------------------------

  /** The rows of type `k`, in their stored order. */
  function OfType(s: seq<Transaction>, k: TransactionType): (r: seq<Transaction>)
    ensures forall x :: x in r <==> x in s && x.kind == k
    ensures |r| <= |s|
  {
    if s == [] then []
    else if s[0].kind == k then [s[0]] + OfType(s[1..], k)
    else OfType(s[1..], k)
  }

  /** The sum of `amount` over a list of rows (0 for no rows). */
  function Sum(s: seq<Transaction>): (r: int)
    ensures s == [] ==> r == 0
    ensures |s| == 1 ==> r == s[0].amount
  {
    if s == [] then 0 else s[0].amount + Sum(s[1..])
  }

  /** `SUM` over a concatenation is the sum of the parts' sums. */
  lemma {:induction false} SumAppend(a: seq<Transaction>, b: seq<Transaction>)
    ensures Sum(a + b) == Sum(a) + Sum(b)
  {
    if a == [] {
      assert a + b == b;
    } else {
      assert (a + b)[1..] == a[1..] + b;
      SumAppend(a[1..], b);
    }
  }

  /** `SELECT SUM(amount) ... WHERE type = :type`: SQL's SUM over no rows is NULL, not 0. */
  function TotalOf(rows: seq<Transaction>, k: TransactionType): (r: Option<int>)
    ensures r.None? <==> forall x :: x in rows ==> x.kind != k
    ensures r.Some? ==> r.value == Sum(OfType(rows, k))
    ensures r.GetOr(0) == Sum(OfType(rows, k))
  {
    var m := OfType(rows, k);
    if m == [] then None
    else
      assert m[0] in m;
      Some(Sum(m))
  }

  // ---------------------------------------------------------------------------------------------
  // Lemmas about the table operations
  // ---------------------------------------------------------------------------------------------

  lemma {:induction false} OfTypeAppend(a: seq<Transaction>, b: seq<Transaction>, k: TransactionType)
    ensures OfType(a + b, k) == OfType(a, k) + OfType(b, k)
  {
    if a == [] {
      assert a + b == b;
    } else {
      assert (a + b)[1..] == a[1..] + b;
      OfTypeAppend(a[1..], b, k);
    }
  }

  lemma {:induction false} OfTypeReplaceOther(rows: seq<Transaction>, row: Transaction, k: TransactionType)
    requires row.kind != k
    requires forall x :: x in rows && x.id == row.id ==> x.kind == row.kind
    ensures OfType(ReplaceKey(rows, row), k) == OfType(rows, k)
  {
    if rows != [] {
      assert rows[0] in rows;
      assert forall x :: x in rows[1..] ==> x in rows;
      OfTypeReplaceOther(rows[1..], row, k);
      assert ReplaceKey(rows, row)[1..] == ReplaceKey(rows[1..], row);
    }
  }

  /** Inserting a row of one type, where it replaces no row of another type, leaves the list of any other type unchanged. */
  lemma InsertLeavesOtherTypeUnchanged(rows: seq<Transaction>, row: Transaction, k: TransactionType)
    requires row.kind != k
    requires forall x :: x in rows && x.id == row.id ==> x.kind == row.kind
    ensures OfType(Upsert(rows, row), k) == OfType(rows, k)
    ensures TotalOf(Upsert(rows, row), k) == TotalOf(rows, k)
    ensures SortByDateDesc(OfType(Upsert(rows, row), k)) == SortByDateDesc(OfType(rows, k))
  {
    if HasId(rows, row.id) {
      OfTypeReplaceOther(rows, row, k);
    } else {
      OfTypeAppend(rows, [row], k);
      assert OfType([row], k) == [];
    }
  }

  lemma {:induction false} OfTypeRemoveOther(rows: seq<Transaction>, id: int, k: TransactionType)
    requires forall x :: x in rows && x.id == id ==> x.kind != k
    ensures OfType(RemoveKey(rows, id), k) == OfType(rows, k)
  {
    if rows != [] {
      assert rows[0] in rows;
      assert forall x :: x in rows[1..] ==> x in rows;
      OfTypeRemoveOther(rows[1..], id, k);
    }
  }

  /** Deleting a record whose stored row is of another type leaves the list and the total of type `k` unchanged. */
  lemma DeleteLeavesOtherTypeUnchanged(rows: seq<Transaction>, t: Transaction, k: TransactionType)
    requires forall x :: x in rows && x.id == t.id ==> x.kind != k
    ensures OfType(RemoveKey(rows, t.id), k) == OfType(rows, k)
    ensures TotalOf(RemoveKey(rows, t.id), k) == TotalOf(rows, k)
    ensures SortByDateDesc(OfType(RemoveKey(rows, t.id), k)) == SortByDateDesc(OfType(rows, k))
  {
    OfTypeRemoveOther(rows, t.id, k);
  }

  lemma {:induction false} RemoveKeyAppend(a: seq<Transaction>, b: seq<Transaction>, id: int)
    ensures RemoveKey(a + b, id) == RemoveKey(a, id) + RemoveKey(b, id)
  {
    if a == [] {
      assert a + b == b;
    } else {
      assert (a + b)[1..] == a[1..] + b;
      RemoveKeyAppend(a[1..], b, id);
    }
  }

  /**
   * Inserting a record under a key not in the table and then deleting the stored record gives back
   * exactly the rows there were, so every query answers as before.
   */
  lemma InsertThenDeleteRestores(rows: seq<Transaction>, lastId: int, t: Transaction)
    requires KeysUpTo(rows, lastId)
    requires t.id == UnsetId || !HasId(rows, t.id)
    ensures var row := StoredRow(lastId, t);
      RemoveKey(Upsert(rows, row), row.id) == rows
    ensures var row := StoredRow(lastId, t);
      var rows' := RemoveKey(Upsert(rows, row), row.id);
      SortByDateDesc(rows') == SortByDateDesc(rows) &&
      (forall k :: TotalOf(rows', k) == TotalOf(rows, k))
  {
    var row := StoredRow(lastId, t);
    RemoveKeyAppend(rows, [row], row.id);
    RemoveAbsentKey(rows, row.id);
    assert RemoveKey([row], row.id) == [];
  }

  /** The fresh key given to a record left at key 0 is not in the table. */
  lemma AssignedIdIsFresh(rows: seq<Transaction>, lastId: int, t: Transaction)
    requires KeysUpTo(rows, lastId)
    requires t.id == UnsetId
    ensures !HasId(rows, AssignedId(lastId, t))
  {
  }

  // ---------------------------------------------------------------------------------------------
  // The table
  // ---------------------------------------------------------------------------------------------

  /** The `transactions` table as the DAO sees it. */
  class TransactionDao {
    /** The stored rows. */
    var rows: seq<Transaction>
    /** The auto-increment counter: the largest key ever stored. */
    var lastId: int

    ghost predicate Valid()
      reads this
    {
      0 <= lastId && UniqueIds(rows) && KeysUpTo(rows, lastId)
    }

    /** A freshly created, empty table. */
    constructor ()
      ensures Valid()
      ensures rows == [] && lastId == 0
    {
      rows := [];
      lastId := 0;
    }

    /** `@Insert(onConflict = REPLACE)`. */
    method InsertTransaction(transaction: Transaction)
      requires Valid()
      modifies this
      ensures Valid()
      ensures rows == Upsert(old(rows), StoredRow(old(lastId), transaction))
      ensures lastId == Max(old(lastId), AssignedId(old(lastId), transaction))
    {
      var row := StoredRow(lastId, transaction);
      rows := Upsert(rows, row);
      lastId := Max(lastId, row.id);
    }

    /** `@Delete`: removes the row stored under the entity's key, if any. */
    method DeleteTransaction(transaction: Transaction)
      requires Valid()
      modifies this
      ensures Valid()
      ensures rows == RemoveKey(old(rows), transaction.id)
      ensures lastId == old(lastId)
    {
      RemoveKeyUnique(rows, transaction.id);
      rows := RemoveKey(rows, transaction.id);
    }

    /** `SELECT * FROM transactions ORDER BY date DESC`. */
    function GetAllTransactions(): (r: seq<Transaction>)
      reads this
      ensures DateDescending(r)
      ensures multiset(r) == multiset(rows)
    {
      SortByDateDesc(rows)
    }

    /** `SELECT * FROM transactions WHERE type = :type ORDER BY date DESC`. */
    function GetTransactionsByType(k: TransactionType): (r: seq<Transaction>)
      reads this
      ensures DateDescending(r)
      ensures multiset(r) == multiset(OfType(rows, k))
      ensures forall x :: x in r <==> x in rows && x.kind == k
    {
      var r := SortByDateDesc(OfType(rows, k));
      assert forall x :: x in r <==> x in OfType(rows, k) by {
        forall x ensures x in r <==> x in OfType(rows, k) {
          assert x in r <==> x in multiset(r);
        }
      }
      r
    }

    /** `SELECT SUM(amount) FROM transactions WHERE type = :type`. */
    function GetTotalByType(k: TransactionType): (r: Option<int>)
      reads this
      ensures r.None? <==> forall x :: x in rows ==> x.kind != k
      ensures r.Some? ==> r.value == Sum(OfType(rows, k))
    {
      TotalOf(rows, k)
    }
  }
}
