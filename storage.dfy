/**
 * The subscription store: the SQLite table `groups`, whose `id` is an
 * INTEGER PRIMARY KEY AUTOINCREMENT and whose `chat_id` is UNIQUE NOT NULL.
 * The table is modelled by its rows in table-scan order, which for an
 * INTEGER PRIMARY KEY table is ascending id order, and by its entry in
 * sqlite_sequence (the largest id ever handed out).
 */
module Storage {
  import opened GoTypes

  /** One row of `groups`; `createdAt` is the DATETIME text CURRENT_TIMESTAMP gave it. */
  datatype Group = Group(id: int64, chatId: int64, title: GoString, addedBy: int64, createdAt: GoString)

  /**
   * Why a statement failed: the engine reported an error (I/O, a locked
   * database, ...), or the table was full because the largest possible id had
   * already been issued (SQLITE_FULL under AUTOINCREMENT).
   */
  datatype StoreError = EngineError | TableFull

  /**
   * How a SELECT goes, as an oracle: it succeeds, the query itself fails, or
   * the cursor fails at step `row`. A step below the number of rows is the
   * Next or Scan of that row; the step equal to the number of rows is the
   * final Next, whose error `rows.Err()` reports after the loop.
   */
  datatype ReadFault = NoFault | QueryFails | RowFails(row: nat)

  /** The rows whose chat_id is `c`, in table order. */
  function RowsFor(rows: seq<Group>, c: int64): (r: seq<Group>)
    ensures |r| <= |rows|
    ensures forall i :: 0 <= i < |r| ==> r[i].chatId == c
  {
    if rows == [] then []
    else (if rows[0].chatId == c then [rows[0]] else []) + RowsFor(rows[1..], c)
  }

  /** The rows whose chat_id is not `c`, in table order: what `DELETE ... WHERE chat_id = c` keeps. */
  function Without(rows: seq<Group>, c: int64): (r: seq<Group>)
    ensures |r| <= |rows|
    ensures forall i :: 0 <= i < |r| ==> r[i].chatId != c && r[i] in rows
  {
    if rows == [] then []
    else (if rows[0].chatId != c then [rows[0]] else []) + Without(rows[1..], c)
  }

  /** Some row has chat_id `c`. */
  predicate Registered(rows: seq<Group>, c: int64) {
    exists i :: 0 <= i < |rows| && rows[i].chatId == c
  }

  /** The UNIQUE constraint on chat_id. */
  predicate UniqueChatIds(rows: seq<Group>) {
    forall i, j :: 0 <= i < j < |rows| ==> rows[i].chatId != rows[j].chatId
  }

  /** Table-scan order of an INTEGER PRIMARY KEY table: strictly ascending id. */
  predicate IdsAscending(rows: seq<Group>) {
    forall i, j :: 0 <= i < j < |rows| ==> rows[i].id < rows[j].id
  }

  /**
   * `INSERT OR REPLACE` of row `g`: the REPLACE conflict resolution deletes the
   * row that holds g's chat_id, then `g` is inserted; its fresh id puts it last.
   */
  function Upserted(rows: seq<Group>, g: Group): seq<Group> {
    Without(rows, g.chatId) + [g]
  }

  /** What a full `SELECT` returns under a given fault: every row, or an error and no partial list. */
  function Listing(rows: seq<Group>, fault: ReadFault): Result<seq<Group>, StoreError> {
    match fault
    case NoFault => Ok(rows)
    case QueryFails => Err(EngineError)
    case RowFails(k) => if k <= |rows| then Err(EngineError) else Ok(rows)
  }

  // ---------------------------------------------------------------------------
  // Facts about the table operations

  lemma {:induction false} RowsForAppend(a: seq<Group>, b: seq<Group>, c: int64)
    ensures RowsFor(a + b, c) == RowsFor(a, c) + RowsFor(b, c)
  {
    if a == [] {
      assert a + b == b;
    } else {
      assert (a + b)[1..] == a[1..] + b;
      RowsForAppend(a[1..], b, c);
    }
  }

  lemma {:induction false} WithoutAppend(a: seq<Group>, b: seq<Group>, c: int64)
    ensures Without(a + b, c) == Without(a, c) + Without(b, c)
  {
    if a == [] {
      assert a + b == b;
    } else {
      assert (a + b)[1..] == a[1..] + b;
      WithoutAppend(a[1..], b, c);
    }
  }

  /** Some row has chat_id `c` exactly when the rows for `c` are not empty. */
  lemma {:induction false} RegisteredIffRows(rows: seq<Group>, c: int64)
    ensures Registered(rows, c) <==> |RowsFor(rows, c)| > 0
  {
    if rows != [] {
      RegisteredIffRows(rows[1..], c);
      if Registered(rows, c) && rows[0].chatId != c {
        var i :| 0 <= i < |rows| && rows[i].chatId == c;
        assert rows[1..][i - 1].chatId == c;
      }
      if Registered(rows[1..], c) {
        var i :| 0 <= i < |rows[1..]| && rows[1..][i].chatId == c;
        assert rows[i + 1].chatId == c;
      }
    }
  }

  /** Every row goes either to the rows for `c` or to the rest. */
  lemma {:induction false} SplitCount(rows: seq<Group>, c: int64)
    ensures |RowsFor(rows, c)| + |Without(rows, c)| == |rows|
  {
    if rows != [] {
      SplitCount(rows[1..], c);
    }
  }

  /** Under the UNIQUE constraint a chat has at most one row. */
  lemma {:induction false} UniqueAtMostOne(rows: seq<Group>, c: int64)
    requires UniqueChatIds(rows)
    ensures |RowsFor(rows, c)| == if Registered(rows, c) then 1 else 0
  {
    RegisteredIffRows(rows, c);
    if rows != [] {
      assert UniqueChatIds(rows[1..]) by {
        forall i, j | 0 <= i < j < |rows[1..]|
          ensures rows[1..][i].chatId != rows[1..][j].chatId
        {
          assert rows[1..][i] == rows[i + 1] && rows[1..][j] == rows[j + 1];
        }
      }
      UniqueAtMostOne(rows[1..], c);
      RegisteredIffRows(rows[1..], c);
    }
  }

  /** Nothing is left for `c` after deleting `c`. */
  lemma {:induction false} WithoutRemovesAll(rows: seq<Group>, c: int64)
    ensures RowsFor(Without(rows, c), c) == []
    ensures !Registered(Without(rows, c), c)
  {
    if rows != [] {
      WithoutRemovesAll(rows[1..], c);
      var head := if rows[0].chatId != c then [rows[0]] else [];
      RowsForAppend(head, Without(rows[1..], c), c);
    }
  }

  /** Deleting `c` leaves the rows of every other chat as they were, in order. */
  lemma {:induction false} WithoutKeepsOthers(rows: seq<Group>, c: int64, d: int64)
    requires d != c
    ensures RowsFor(Without(rows, c), d) == RowsFor(rows, d)
  {
    if rows != [] {
      WithoutKeepsOthers(rows[1..], c, d);
      var head := if rows[0].chatId != c then [rows[0]] else [];
      RowsForAppend(head, Without(rows[1..], c), d);
    }
  }

  /** Deleting an absent chat changes nothing. */
  lemma {:induction false} WithoutAbsent(rows: seq<Group>, c: int64)
    requires !Registered(rows, c)
    ensures Without(rows, c) == rows
  {
    if rows != [] {
      assert rows[0].chatId != c;
      WithoutAbsent(rows[1..], c);
    }
  }

  /** Deleting a chat preserves the UNIQUE constraint. */
  lemma {:induction false} WithoutKeepsUnique(rows: seq<Group>, c: int64)
    requires UniqueChatIds(rows)
    ensures UniqueChatIds(Without(rows, c))
  {
    if rows != [] {
      var tail := rows[1..];
      assert UniqueChatIds(tail) by {
        forall i, j | 0 <= i < j < |tail| ensures tail[i].chatId != tail[j].chatId {
          assert tail[i] == rows[i + 1] && tail[j] == rows[j + 1];
        }
      }
      WithoutKeepsUnique(tail, c);
      var w := Without(tail, c);
      if rows[0].chatId != c {
        var r := [rows[0]] + w;
        forall i, j | 0 <= i < j < |r| ensures r[i].chatId != r[j].chatId {
          if i == 0 {
            var m :| 0 <= m < |tail| && tail[m] == w[j - 1];
            assert rows[m + 1] == r[j];
          } else {
            assert r[i] == w[i - 1] && r[j] == w[j - 1];
          }
        }
      }
    }
  }

  /** A row placed before rows with larger ids keeps a list in id order. */
  lemma AscendingCons(g: Group, w: seq<Group>)
    requires IdsAscending(w)
    requires forall k :: 0 <= k < |w| ==> g.id < w[k].id
    ensures IdsAscending([g] + w)
  {
    var r := [g] + w;
    forall i, j | 0 <= i < j < |r| ensures r[i].id < r[j].id {
      assert r[j] == w[j - 1];
      if i > 0 {
        assert r[i] == w[i - 1];
      }
    }
  }

  /** The rows after the first of an ascending table are ascending, and all have larger ids. */
  lemma AscendingTail(rows: seq<Group>)
    requires rows != [] && IdsAscending(rows)
    ensures IdsAscending(rows[1..])
    ensures forall g :: g in rows[1..] ==> rows[0].id < g.id
  {
    var tail := rows[1..];
    forall i, j | 0 <= i < j < |tail| ensures tail[i].id < tail[j].id {
      assert tail[i] == rows[i + 1] && tail[j] == rows[j + 1];
    }
    forall g | g in tail ensures rows[0].id < g.id {
      var m :| 0 <= m < |tail| && tail[m] == g;
      assert rows[m + 1] == g;
    }
  }

  /** Deleting a chat preserves the id order. */
  lemma {:induction false} WithoutKeepsAscending(rows: seq<Group>, c: int64)
    requires IdsAscending(rows)
    ensures IdsAscending(Without(rows, c))
  {
    if rows != [] {
      AscendingTail(rows);
      WithoutKeepsAscending(rows[1..], c);
      var w := Without(rows[1..], c);
      if rows[0].chatId != c {
        AscendingCons(rows[0], w);
      } else {
        assert Without(rows, c) == w;
      }
    }
  }

  /** After `INSERT OR REPLACE` of `g` the table holds exactly one row for g's chat, and it is `g`. */
  lemma UpsertSingleRow(rows: seq<Group>, g: Group)
    ensures RowsFor(Upserted(rows, g), g.chatId) == [g]
  {
    WithoutRemovesAll(rows, g.chatId);
    RowsForAppend(Without(rows, g.chatId), [g], g.chatId);
  }

  /** `INSERT OR REPLACE` of `g` leaves the rows of every other chat unchanged. */
  lemma UpsertKeepsOthers(rows: seq<Group>, g: Group, d: int64)
    requires d != g.chatId
    ensures RowsFor(Upserted(rows, g), d) == RowsFor(rows, d)
  {
    WithoutKeepsOthers(rows, g.chatId, d);
    RowsForAppend(Without(rows, g.chatId), [g], d);
  }

  /** `INSERT OR REPLACE` grows the table by one row for a new chat and keeps its size for a known one. */
  lemma UpsertCount(rows: seq<Group>, g: Group)
    requires UniqueChatIds(rows)
    ensures |Upserted(rows, g)| == |rows| + (if Registered(rows, g.chatId) then 0 else 1)
  {
    SplitCount(rows, g.chatId);
    UniqueAtMostOne(rows, g.chatId);
  }

  /** `INSERT OR REPLACE` preserves the UNIQUE constraint, and the id order when `g` has the largest id. */
  lemma UpsertKeepsOrder(rows: seq<Group>, g: Group)
    requires UniqueChatIds(rows) && IdsAscending(rows)
    requires forall i :: 0 <= i < |rows| ==> rows[i].id < g.id
    ensures UniqueChatIds(Upserted(rows, g)) && IdsAscending(Upserted(rows, g))
  {
    WithoutKeepsUnique(rows, g.chatId);
    WithoutKeepsAscending(rows, g.chatId);
    var w := Without(rows, g.chatId);
    forall i | 0 <= i < |w| ensures w[i].id < g.id {
      var m :| 0 <= m < |rows| && rows[m] == w[i];
    }
  }

  /** Two adds for the same chat leave exactly the second one. */
  lemma {:induction false} UpsertTwice(rows: seq<Group>, g1: Group, g2: Group)
    requires g1.chatId == g2.chatId
    ensures RowsFor(Upserted(Upserted(rows, g1), g2), g2.chatId) == [g2]
  {
    UpsertSingleRow(Upserted(rows, g1), g2);
  }

  /** `DELETE` of chat `c` removes its row if there is one, and only that row. */
  lemma RemoveCount(rows: seq<Group>, c: int64)
    requires UniqueChatIds(rows)
    ensures |Without(rows, c)| == |rows| - (if Registered(rows, c) then 1 else 0)
  {
    SplitCount(rows, c);
    UniqueAtMostOne(rows, c);
  }

  /** Deleting the same chat twice is the same as deleting it once. */
  lemma RemoveIdempotent(rows: seq<Group>, c: int64)
    ensures Without(Without(rows, c), c) == Without(rows, c)
  {
    WithoutRemovesAll(rows, c);
    WithoutAbsent(Without(rows, c), c);
  }

  /**
   * A listing either fails as a whole or holds each row once, unchanged and in
   * table order; it fails when the query, any row, or the final step fails.
   */
  lemma ListingAllOrNothing(rows: seq<Group>, fault: ReadFault)
    ensures Listing(rows, fault).Ok? ==> Listing(rows, fault).value == rows
    ensures Listing(rows, fault).Err? <==> (fault.QueryFails? || (fault.RowFails? && fault.row <= |rows|))
  {
  }

  /**
   * The `groups` table behind the `*sql.DB` handle of a Storage value.
   */
  class Store {
    /** The rows in table-scan order. */
    var rows: seq<Group>
    /** The table's entry in sqlite_sequence: the largest id ever issued, 0 before the first insert. */
    var lastId: int64
    /** Every id ever issued, including those of rows since deleted or replaced. */
    ghost var issued: set<int>

    /** The schema's constraints and AUTOINCREMENT's bookkeeping. */
    ghost predicate Valid()
      reads this
    {
      && 0 <= lastId
      && UniqueChatIds(rows)
      && IdsAscending(rows)
      && (forall i :: 0 <= i < |rows| ==> rows[i].id in issued)
      && (forall id :: id in issued ==> 0 < id <= lastId)
    }

    /** A freshly migrated, empty table. */
    constructor ()
      ensures Valid() && rows == [] && lastId == 0 && issued == {}
    {
      rows := [];
      lastId := 0;
      issued := {};
    }

    /**
     * AddGroup (`INSERT OR REPLACE INTO groups (chat_id, title, added_by)`):
     * `now` is the CURRENT_TIMESTAMP text and `fault` says whether the engine
     * fails the statement. A failed statement changes nothing.
     */
    method AddGroup(chatId: int64, title: GoString, addedBy: int64, now: GoString, fault: bool)
      returns (r: Outcome<StoreError>)
      requires Valid()
      modifies this
      ensures Valid()
      ensures r == if fault then Fail(EngineError) else if old(lastId) == MaxInt64 then Fail(TableFull) else Pass
      ensures r.Pass? ==>
        && lastId == old(lastId) + 1
        && lastId !in old(issued)
        && issued == old(issued) + {lastId as int}
        && rows == Upserted(old(rows), Group(lastId, chatId, title, addedBy, now))
      ensures r.Fail? ==> rows == old(rows) && lastId == old(lastId) && issued == old(issued)
    {
      if fault {
        return Fail(EngineError);
      }
      if lastId == MaxInt64 {
        return Fail(TableFull);
      }
      var g := Group(lastId + 1, chatId, title, addedBy, now);
      UpsertKeepsOrder(rows, g);
      // The conflicting row, if any, is deleted first; then the new row is inserted.
      rows := Without(rows, chatId);
      lastId := lastId + 1;
      issued := issued + {lastId as int};
      rows := rows + [g];
      r := Pass;
    }

    /** RemoveGroup (`DELETE FROM groups WHERE chat_id = ?`); removing an absent chat is not an error. */
    method RemoveGroup(chatId: int64, fault: bool) returns (r: Outcome<StoreError>)
      requires Valid()
      modifies this
      ensures Valid() && lastId == old(lastId) && issued == old(issued)
      ensures r == if fault then Fail(EngineError) else Pass
      ensures rows == if fault then old(rows) else Without(old(rows), chatId)
    {
      if fault {
        return Fail(EngineError);
      }
      WithoutKeepsUnique(rows, chatId);
      WithoutKeepsAscending(rows, chatId);
      rows := Without(rows, chatId);
      r := Pass;
    }

    /**
     * GetAllGroups: scans the rows one by one into a fresh list, gives up
     * with the error at the first row that cannot be fetched, and after the
     * loop returns the cursor's error, if any, instead of the list.
     */
    method GetAllGroups(fault: ReadFault) returns (r: Result<seq<Group>, StoreError>)
      ensures r == Listing(rows, fault)
    {
      if fault == QueryFails {
        return Err(EngineError);
      }
      var groups: seq<Group> := [];
      var i := 0;
      while i < |rows|
        invariant 0 <= i <= |rows|
        invariant groups == rows[..i]
        invariant fault.RowFails? ==> fault.row >= i
      {
        if fault == RowFails(i) {
          return Err(EngineError);
        }
        groups := groups + [rows[i]];
        i := i + 1;
      }
      // rows.Err(): the final Next may have stopped the loop with an error.
      if fault == RowFails(|rows|) {
        return Err(EngineError);
      }
      assert groups == rows;
      return Ok(groups);
    }

    /** IsGroupRegistered (`SELECT COUNT(*) ... WHERE chat_id = ?` compared with 0). */
    method IsGroupRegistered(chatId: int64, fault: bool) returns (r: Result<bool, StoreError>)
      ensures fault ==> r == Err(EngineError)
      ensures !fault ==> r == Ok(Registered(rows, chatId))
    {
      if fault {
        return Err(EngineError);
      }
      var count := 0;
      var i := 0;
      while i < |rows|
        invariant 0 <= i <= |rows|
        invariant count == |RowsFor(rows[..i], chatId)|
      {
        RowsForAppend(rows[..i], [rows[i]], chatId);
        assert rows[..i + 1] == rows[..i] + [rows[i]];
        if rows[i].chatId == chatId {
          count := count + 1;
        }
        i := i + 1;
      }
      assert rows[..i] == rows;
      RegisteredIffRows(rows, chatId);
      return Ok(count > 0);
    }
  }
}
