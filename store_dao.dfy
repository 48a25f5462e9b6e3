/** The Room DAOs of the Android app (MLBPlayByPlayApp/.../data/Dao.kt) as
    two tables changed in place: `GameDao` (upsert with REPLACE, delete all,
    query ordered by start time) and `PlayDao` (insert with IGNORE, delete by
    game, query of one game ordered by at-bat index then id). The `Flow`
    a query returns is modelled by the rows it emits for the current table. */
module StoreDao {
  import opened Wrappers
  import opened StoreModels

  // ---------------------------------------------------------------------
  // Selection and ordering, as SQLite's WHERE and ORDER BY ... DESC do them
  // ---------------------------------------------------------------------

  /** The rows satisfying `keep`, in table order. */
  function Select<T(!new)>(rows: seq<T>, keep: T -> bool): (r: seq<T>)
    ensures |r| <= |rows|
    ensures forall x :: x in r <==> x in rows && keep(x)
  {
    if rows == [] then []
    else
      var n := |rows| - 1;
      Select(rows[..n], keep) + (if keep(rows[n]) then [rows[n]] else [])
  }

  /** Selecting rows keeps a key unique. */
  lemma {:induction false} SelectUnique<T(!new), K>(rows: seq<T>, keep: T -> bool, key: T -> K)
    requires UniqueBy(rows, key)
    ensures UniqueBy(Select(rows, keep), key)
  {
    if rows != [] {
      var n := |rows| - 1;
      var prefix := rows[..n];
      assert UniqueBy(prefix, key) by {
        forall i, j | 0 <= i < j < |prefix| ensures key(prefix[i]) != key(prefix[j]) {
          assert prefix[i] == rows[i] && prefix[j] == rows[j];
        }
      }
      SelectUnique(prefix, keep, key);
      var s := Select(prefix, keep);
      if keep(rows[n]) {
        var r := s + [rows[n]];
        forall i, j | 0 <= i < j < |r| ensures key(r[i]) != key(r[j]) {
          if j == |s| {
            assert r[i] in prefix;
            var k :| 0 <= k < n && prefix[k] == r[i];
            assert key(rows[k]) != key(rows[n]);
          } else {
            assert r[i] == s[i] && r[j] == s[j];
          }
        }
      }
    }
  }

  /** Selecting with a condition every row meets keeps every row. */
  lemma {:induction false} SelectAll<T(!new)>(rows: seq<T>, keep: T -> bool)
    requires forall i :: 0 <= i < |rows| ==> keep(rows[i])
    ensures Select(rows, keep) == rows
  {
    if rows != [] {
      var n := |rows| - 1;
      var prefix := rows[..n];
      assert Select(rows, keep) == Select(prefix, keep) + [rows[n]] by {
        SelectLast(rows, keep);
      }
      assert Select(prefix, keep) == prefix by {
        forall i | 0 <= i < n ensures keep(prefix[i]) {
          assert prefix[i] == rows[i];
        }
        SelectAll(prefix, keep);
      }
      assert rows == prefix + [rows[n]];
    }
  }

  lemma SelectLast<T(!new)>(rows: seq<T>, keep: T -> bool)
    requires rows != []
    ensures Select(rows, keep) ==
      Select(rows[..|rows| - 1], keep) + (if keep(rows[|rows| - 1]) then [rows[|rows| - 1]] else [])
  {
  }

  /** `leq` orders every pair and is transitive. */
  ghost predicate TotalPreorder<T(!new)>(leq: (T, T) -> bool)
  {
    (forall a, b :: leq(a, b) || leq(b, a))
    && (forall a, b, c :: leq(a, b) && leq(b, c) ==> leq(a, c))
  }

  /** Descending order: no later row is above an earlier one. */
  predicate SortedDesc<T(!new)>(rows: seq<T>, leq: (T, T) -> bool)
  {
    forall i, j :: 0 <= i < j < |rows| ==> leq(rows[j], rows[i])
  }

  /** `x` put before the first row that is not above it. */
  function InsertDesc<T(!new)>(rows: seq<T>, x: T, leq: (T, T) -> bool): (r: seq<T>)
    ensures multiset(r) == multiset(rows) + multiset{x}
  {
    if rows == [] then [x]
    else if leq(rows[0], x) then [x] + rows
    else
      assert rows == [rows[0]] + rows[1..];
      [rows[0]] + InsertDesc(rows[1..], x, leq)
  }

  lemma {:induction false} InsertDescSorted<T(!new)>(rows: seq<T>, x: T, leq: (T, T) -> bool)
    requires TotalPreorder(leq) && SortedDesc(rows, leq)
    ensures SortedDesc(InsertDesc(rows, x, leq), leq)
  {
    var r := InsertDesc(rows, x, leq);
    if rows == [] {
    } else if leq(rows[0], x) {
      forall i, j | 0 <= i < j < |r| ensures leq(r[j], r[i]) {
        if i == 0 {
          assert r[j] == rows[j - 1];
          if j > 1 { assert leq(rows[j - 1], rows[0]); }
        } else {
          assert r[i] == rows[i - 1] && r[j] == rows[j - 1];
        }
      }
    } else {
      var tail := rows[1..];
      assert SortedDesc(tail, leq) by {
        forall i, j | 0 <= i < j < |tail| ensures leq(tail[j], tail[i]) {
          assert tail[i] == rows[i + 1] && tail[j] == rows[j + 1];
        }
      }
      InsertDescSorted(tail, x, leq);
      var t := InsertDesc(tail, x, leq);
      assert leq(x, rows[0]);
      forall i, j | 0 <= i < j < |r| ensures leq(r[j], r[i]) {
        if i == 0 {
          assert r[j] == t[j - 1];
          assert r[j] in multiset(t);
          if r[j] != x {
            assert r[j] in multiset(tail);
            var k :| 0 <= k < |tail| && tail[k] == r[j];
            assert leq(rows[k + 1], rows[0]);
          }
        } else {
          assert r[i] == t[i - 1] && r[j] == t[j - 1];
        }
      }
    }
  }

  /** The rows in descending order (an insertion sort). */
  function SortDesc<T(!new)>(rows: seq<T>, leq: (T, T) -> bool): (r: seq<T>)
    requires TotalPreorder(leq)
    ensures multiset(r) == multiset(rows)
    ensures SortedDesc(r, leq)
  {
    if rows == [] then []
    else
      var n := |rows| - 1;
      var sorted := SortDesc(rows[..n], leq);
      InsertDescSorted(sorted, rows[n], leq);
      assert rows == rows[..n] + [rows[n]];
      InsertDesc(sorted, rows[n], leq)
  }

  /** Two orderings of the same rows hold the same rows. */
  lemma SameRows<T>(a: seq<T>, b: seq<T>)
    requires multiset(a) == multiset(b)
    ensures forall x :: x in a <==> x in b
  {
    forall x ensures x in a <==> x in b {
      assert x in a <==> x in multiset(a);
      assert x in b <==> x in multiset(b);
    }
  }

  // ---------------------------------------------------------------------
  // Text order (SQLite's BINARY collation, by code point)
  // ---------------------------------------------------------------------

  predicate TextLeq(a: string, b: string)
  {
    a == [] || (b != [] && (a[0] < b[0] || (a[0] == b[0] && TextLeq(a[1..], b[1..]))))
  }

  lemma {:induction false} TextLeqTotal(a: string, b: string)
    ensures TextLeq(a, b) || TextLeq(b, a)
  {
    if a != [] && b != [] && a[0] == b[0] {
      TextLeqTotal(a[1..], b[1..]);
    }
  }

  lemma {:induction false} TextLeqTrans(a: string, b: string, c: string)
    requires TextLeq(a, b) && TextLeq(b, c)
    ensures TextLeq(a, c)
  {
    if a != [] && a[0] == b[0] && b[0] == c[0] {
      TextLeqTrans(a[1..], b[1..], c[1..]);
    }
  }

  // ---------------------------------------------------------------------
  // GameDao
  // ---------------------------------------------------------------------

  /** `ORDER BY startTime`. */
  predicate StartLeq(a: GameSummary, b: GameSummary)
  {
    TextLeq(a.startTime, b.startTime)
  }

  lemma StartLeqPreorder()
    ensures TotalPreorder(StartLeq)
  {
    forall a: GameSummary, b: GameSummary ensures StartLeq(a, b) || StartLeq(b, a) {
      TextLeqTotal(a.startTime, b.startTime);
    }
    forall a: GameSummary, b: GameSummary, c: GameSummary | StartLeq(a, b) && StartLeq(b, c)
      ensures StartLeq(a, c)
    {
      TextLeqTrans(a.startTime, b.startTime, c.startTime);
    }
  }

  /** The condition of `DELETE ... WHERE gamePk != k`'s complement. */
  function OtherGame(k: int): GameSummary -> bool
  {
    (g: GameSummary) => g.gamePk != k
  }

  /** One game inserted with REPLACE: the row with the same gamePk, if any,
      is deleted, and the new row is stored. */
  function Upsert(rows: seq<GameSummary>, g: GameSummary): (r: seq<GameSummary>)
    ensures forall x :: x in r <==> x == g || (x in rows && x.gamePk != g.gamePk)
    ensures ValidGames(rows) ==> ValidGames(r)
  {
    var kept := Select(rows, OtherGame(g.gamePk));
    assert ValidGames(rows) ==> ValidGames(kept + [g]) by {
      if ValidGames(rows) {
        SelectUnique(rows, OtherGame(g.gamePk), GameKey);
        assert forall i :: 0 <= i < |kept| ==> kept[i] in kept;
      }
    }
    kept + [g]
  }

  /** A batch inserted with REPLACE, one row after the other. */
  function UpsertAll(rows: seq<GameSummary>, batch: seq<GameSummary>): (r: seq<GameSummary>)
    ensures ValidGames(rows) ==> ValidGames(r)
  {
    if batch == [] then rows
    else Upsert(UpsertAll(rows, batch[..|batch| - 1]), batch[|batch| - 1])
  }

  /** The last game of the batch with gamePk `k`, if there is one. */
  function LastWithKey(batch: seq<GameSummary>, k: int): (r: Option<GameSummary>)
    ensures r.Some? ==> r.value in batch && r.value.gamePk == k
    ensures r.None? <==> forall i :: 0 <= i < |batch| ==> batch[i].gamePk != k
  {
    if batch == [] then None
    else if batch[|batch| - 1].gamePk == k then Some(batch[|batch| - 1])
    else
      var p := LastWithKey(batch[..|batch| - 1], k);
      assert forall i :: 0 <= i < |batch| - 1 ==> batch[..|batch| - 1][i] == batch[i];
      p
  }

  /** After an upsert a game is stored exactly when it is the last one of
      its gamePk in the batch, or it was stored before and no game of the
      batch has its gamePk. */
  lemma {:induction false} UpsertAllRows(rows: seq<GameSummary>, batch: seq<GameSummary>, x: GameSummary)
    ensures x in UpsertAll(rows, batch) <==>
      LastWithKey(batch, x.gamePk) == Some(x) || (LastWithKey(batch, x.gamePk).None? && x in rows)
  {
    if batch != [] {
      UpsertAllRows(rows, batch[..|batch| - 1], x);
    }
  }

  /** A game with a new gamePk is appended. */
  lemma UpsertNewKey(rows: seq<GameSummary>, g: GameSummary)
    requires forall i :: 0 <= i < |rows| ==> rows[i].gamePk != g.gamePk
    ensures Upsert(rows, g) == rows + [g]
  {
    SelectAll(rows, OtherGame(g.gamePk));
  }

  /** Dropping the last game keeps the gamePks distinct, and the last one
      is not among the others. */
  lemma ValidGamesSplit(batch: seq<GameSummary>)
    requires ValidGames(batch) && batch != []
    ensures ValidGames(batch[..|batch| - 1])
    ensures forall i :: 0 <= i < |batch| - 1 ==> batch[i].gamePk != batch[|batch| - 1].gamePk
  {
    var n := |batch| - 1;
    var prefix := batch[..n];
    forall i, j | 0 <= i < j < n ensures GameKey(prefix[i]) != GameKey(prefix[j]) {
      assert GameKey(batch[i]) != GameKey(batch[j]);
    }
    forall i | 0 <= i < n ensures batch[i].gamePk != batch[n].gamePk {
      assert GameKey(batch[i]) != GameKey(batch[n]);
    }
  }

  /** A batch with distinct gamePks written into an empty table is the
      table, in batch order. */
  lemma {:induction false} UpsertAllDistinct(batch: seq<GameSummary>)
    requires ValidGames(batch)
    ensures UpsertAll([], batch) == batch
  {
    if batch != [] {
      var n := |batch| - 1;
      var prefix := batch[..n];
      assert batch == prefix + [batch[n]];
      ValidGamesSplit(batch);
      UpsertAllDistinct(prefix);
      UpsertNewKey(prefix, batch[n]);
    }
  }

  /** The `games` table. */
  class GameTable {
    var rows: seq<GameSummary>

    ghost predicate Valid()
      reads this
    {
      ValidGames(rows)
    }

    constructor ()
      ensures Valid() && rows == []
    {
      rows := [];
    }

    /** `observeGames()`: every game, latest start time first. */
    function ObserveGames(): (r: seq<GameSummary>)
      reads this
      ensures multiset(r) == multiset(rows)
      ensures forall i, j :: 0 <= i < j < |r| ==> TextLeq(r[j].startTime, r[i].startTime)
    {
      StartLeqPreorder();
      var r := SortDesc(rows, StartLeq);
      assert forall i, j :: 0 <= i < j < |r| ==> StartLeq(r[j], r[i]);
      r
    }

    /** `upsertGames(games)`: REPLACE on the gamePk primary key. */
    method UpsertGames(batch: seq<GameSummary>)
      requires Valid()
      modifies this
      ensures Valid()
      ensures rows == UpsertAll(old(rows), batch)
    {
      var i := 0;
      while i < |batch|
        invariant 0 <= i <= |batch|
        invariant rows == UpsertAll(old(rows), batch[..i])
        invariant Valid()
      {
        assert batch[..i + 1][..i] == batch[..i];
        rows := Upsert(rows, batch[i]);
        i := i + 1;
      }
      assert batch[..i] == batch;
    }

    /** `clearAll()`: `DELETE FROM games`. */
    method ClearAll()
      modifies this
      ensures Valid() && rows == []
    {
      rows := [];
    }
  }

  // ---------------------------------------------------------------------
  // PlayDao
  // ---------------------------------------------------------------------

  /** The `plays` table's rows and the largest id handed out so far. */
  datatype PlayStore = PlayStore(rows: seq<Play>, lastId: int)

  predicate ValidStore(st: PlayStore)
  {
    ValidPlays(st.rows, st.lastId)
  }

  /** The id a play is stored under: its own, or the next one after the
      largest handed out when it has the unset id 0. */
  function IdFor(st: PlayStore, p: Play): int
  {
    if p.id == UnsetId then st.lastId + 1 else p.id
  }

  /** A play conflicts with the table when its playId or its id is taken. */
  predicate Conflicts(st: PlayStore, p: Play)
  {
    HasKey(st.rows, PlayIdOf, p.playId) || HasKey(st.rows, RowId, IdFor(st, p))
  }

  function Max(a: int, b: int): int { if a >= b then a else b }

  /** One play inserted with IGNORE: a conflicting play is skipped and the
      table is unchanged; otherwise the play is appended under its id. */
  function InsertOne(st: PlayStore, p: Play): (r: PlayStore)
    ensures Conflicts(st, p) ==> r == st
    ensures !Conflicts(st, p) ==> r.rows == st.rows + [p.(id := IdFor(st, p))]
    ensures ValidStore(st) && p.id == UnsetId ==> !HasKey(st.rows, RowId, IdFor(st, p))
    ensures ValidStore(st) ==> ValidStore(r) && r.lastId >= st.lastId
  {
    if Conflicts(st, p) then st
    else
      var id := IdFor(st, p);
      var r := PlayStore(st.rows + [p.(id := id)], Max(st.lastId, id));
      assert ValidStore(st) ==> ValidStore(r) by {
        if ValidStore(st) {
          assert UniqueBy(r.rows, PlayIdOf) by {
            forall i, j | 0 <= i < j < |r.rows| ensures PlayIdOf(r.rows[i]) != PlayIdOf(r.rows[j]) {
              if j == |st.rows| { assert r.rows[i] == st.rows[i]; }
            }
          }
          assert UniqueBy(r.rows, RowId) by {
            forall i, j | 0 <= i < j < |r.rows| ensures RowId(r.rows[i]) != RowId(r.rows[j]) {
              if j == |st.rows| { assert r.rows[i] == st.rows[i]; }
            }
          }
        }
      }
      r
  }

  /** `insertPlays(plays)`: the batch inserted with IGNORE, in order. */
  function InsertAll(st: PlayStore, batch: seq<Play>): (r: PlayStore)
    ensures ValidStore(st) ==> ValidStore(r) && r.lastId >= st.lastId
  {
    if batch == [] then st
    else InsertOne(InsertAll(st, batch[..|batch| - 1]), batch[|batch| - 1])
  }

  /** Rows already stored stay as they are, first in the table: there is no
      update in place. */
  lemma {:induction false} InsertAllKeepsRows(st: PlayStore, batch: seq<Play>)
    ensures st.rows <= InsertAll(st, batch).rows
  {
    if batch != [] {
      InsertAllKeepsRows(st, batch[..|batch| - 1]);
    }
  }

  /** Every stored row is an old row or a play of the batch under some id. */
  lemma {:induction false} InsertAllRowsFrom(st: PlayStore, batch: seq<Play>)
    ensures forall x :: x in InsertAll(st, batch).rows ==>
      x in st.rows || exists i :: 0 <= i < |batch| && x == batch[i].(id := x.id)
  {
    if batch != [] {
      var n := |batch| - 1;
      InsertAllRowsFrom(st, batch[..n]);
      forall x | x in InsertAll(st, batch).rows
        ensures x in st.rows || exists i :: 0 <= i < |batch| && x == batch[i].(id := x.id)
      {
        if x in InsertAll(st, batch[..n]).rows {
          if x !in st.rows {
            var i :| 0 <= i < n && x == batch[..n][i].(id := x.id);
            assert batch[..n][i] == batch[i];
          }
        } else {
          assert x == batch[n].(id := x.id);
        }
      }
    }
  }

  /** A playId neither stored nor in the batch is not stored afterwards. */
  lemma {:induction false} AbsentPlayIdStaysAbsent(st: PlayStore, batch: seq<Play>, k: string)
    requires !HasKey(st.rows, PlayIdOf, k)
    requires forall i :: 0 <= i < |batch| ==> batch[i].playId != k
    ensures !HasKey(InsertAll(st, batch).rows, PlayIdOf, k)
  {
    if batch != [] {
      var n := |batch| - 1;
      assert forall i :: 0 <= i < n ==> batch[..n][i] == batch[i];
      AbsentPlayIdStaysAbsent(st, batch[..n], k);
      var before := InsertAll(st, batch[..n]).rows;
      var after := InsertAll(st, batch).rows;
      assert after == before || after == before + [batch[n].(id := after[|after| - 1].id)];
      forall i | 0 <= i < |after| ensures PlayIdOf(after[i]) != k {
        if i < |before| { assert after[i] == before[i]; }
      }
    }
  }

  /** A play whose playId is already stored leaves the stored row as it
      was: the only row with that playId is the old one. */
  lemma KnownPlayIdIgnored(st: PlayStore, batch: seq<Play>, x: Play)
    requires ValidStore(st) && x in st.rows
    ensures x in InsertAll(st, batch).rows
    ensures forall y :: y in InsertAll(st, batch).rows && y.playId == x.playId ==> y == x
  {
    var r := InsertAll(st, batch).rows;
    InsertAllKeepsRows(st, batch);
    var k :| 0 <= k < |st.rows| && st.rows[k] == x;
    assert r[k] == x;
    assert UniqueBy(r, PlayIdOf);
    forall m | 0 <= m < |r| && m != k ensures r[m].playId != x.playId {
      if m < k {
        assert PlayIdOf(r[m]) != PlayIdOf(r[k]);
      } else {
        assert PlayIdOf(r[k]) != PlayIdOf(r[m]);
      }
    }
  }

  /** Within one batch only the first play with a given playId is stored:
      when its playId is new and its id unset, the row with that playId is
      that play under an id above every id handed out before. */
  lemma {:induction false} FirstOfBatchStored(st: PlayStore, batch: seq<Play>, i: nat)
    requires ValidStore(st) && i < |batch| && batch[i].id == UnsetId
    requires !HasKey(st.rows, PlayIdOf, batch[i].playId)
    requires forall j :: 0 <= j < i ==> batch[j].playId != batch[i].playId
    ensures exists y :: y in InsertAll(st, batch).rows && y.playId == batch[i].playId
    ensures forall y :: y in InsertAll(st, batch).rows && y.playId == batch[i].playId ==>
      y == batch[i].(id := y.id) && y.id > st.lastId
  {
    var n := |batch| - 1;
    if n == i {
      LastOfBatchStored(st, batch);
    } else {
      var k := batch[i].playId;
      var before := InsertAll(st, batch[..n]);
      assert batch[..n][i] == batch[i];
      assert forall j :: 0 <= j < i ==> batch[..n][j] == batch[j];
      FirstOfBatchStored(st, batch[..n], i);
      var y0 :| y0 in before.rows && y0.playId == k;
      InRowsHasKey(before.rows, y0);
      InsertOneKeepsKey(before, batch[n], k);
    }
  }

  /** The case of `FirstOfBatchStored` where the play is the batch's last. */
  lemma LastOfBatchStored(st: PlayStore, batch: seq<Play>)
    requires ValidStore(st) && batch != [] && batch[|batch| - 1].id == UnsetId
    requires !HasKey(st.rows, PlayIdOf, batch[|batch| - 1].playId)
    requires forall j :: 0 <= j < |batch| - 1 ==> batch[j].playId != batch[|batch| - 1].playId
    ensures exists y :: y in InsertAll(st, batch).rows && y.playId == batch[|batch| - 1].playId
    ensures forall y :: y in InsertAll(st, batch).rows && y.playId == batch[|batch| - 1].playId ==>
      y == batch[|batch| - 1].(id := y.id) && y.id > st.lastId
  {
    var n := |batch| - 1;
    var k := batch[n].playId;
    var before := InsertAll(st, batch[..n]);
    var r := InsertAll(st, batch);
    assert forall j :: 0 <= j < n ==> batch[..n][j] == batch[j];
    AbsentPlayIdStaysAbsent(st, batch[..n], k);
    assert !Conflicts(before, batch[n]);
    assert r.rows == before.rows + [batch[n].(id := IdFor(before, batch[n]))];
    forall y | y in r.rows && y.playId == k ensures y == batch[n].(id := y.id) && y.id > st.lastId {
      if y in before.rows {
        InRowsHasKey(before.rows, y);
      }
    }
    assert r.rows[|before.rows|] in r.rows;
  }

  lemma InRowsHasKey(rows: seq<Play>, y: Play)
    requires y in rows
    ensures HasKey(rows, PlayIdOf, y.playId)
  {
    var m :| 0 <= m < |rows| && rows[m] == y;
    assert PlayIdOf(rows[m]) == y.playId;
  }

  /** Once a playId is stored, inserting one more play keeps the rows and
      adds none with that playId. */
  lemma InsertOneKeepsKey(st: PlayStore, p: Play, k: string)
    requires HasKey(st.rows, PlayIdOf, k)
    ensures forall y :: y in st.rows ==> y in InsertOne(st, p).rows
    ensures forall y :: y in InsertOne(st, p).rows && y.playId == k ==> y in st.rows
  {
    if p.playId == k {
      assert Conflicts(st, p);
    }
  }

  /** A batch of new plays with distinct playIds and unset ids is appended
      whole, in batch order, each play under a new id. */
  lemma {:induction false} FreshBatchAppended(st: PlayStore, batch: seq<Play>)
    requires ValidStore(st)
    requires UniqueBy(batch, PlayIdOf)
    requires forall i :: 0 <= i < |batch| ==> batch[i].id == UnsetId && !HasKey(st.rows, PlayIdOf, batch[i].playId)
    ensures |InsertAll(st, batch).rows| == |st.rows| + |batch|
    ensures forall i :: 0 <= i < |batch| ==>
      InsertAll(st, batch).rows[|st.rows| + i] == batch[i].(id := InsertAll(st, batch).rows[|st.rows| + i].id)
  {
    if batch != [] {
      var n := |batch| - 1;
      var prefix := batch[..n];
      UniqueByPrefix(batch, n);
      assert forall i :: 0 <= i < n ==> prefix[i] == batch[i];
      FreshBatchAppended(st, prefix);
      FreshPlayAppended(st, batch);
    }
  }

  /** A prefix of rows with distinct keys has distinct keys. */
  lemma UniqueByPrefix(batch: seq<Play>, n: nat)
    requires UniqueBy(batch, PlayIdOf) && n <= |batch|
    ensures UniqueBy(batch[..n], PlayIdOf)
  {
    var prefix := batch[..n];
    forall i, j | 0 <= i < j < n ensures PlayIdOf(prefix[i]) != PlayIdOf(prefix[j]) {
      assert PlayIdOf(batch[i]) != PlayIdOf(batch[j]);
    }
  }

  /** The step of `FreshBatchAppended`: the batch's last play is appended
      after the rows its prefix left. */
  lemma FreshPlayAppended(st: PlayStore, batch: seq<Play>)
    requires ValidStore(st) && batch != []
    requires UniqueBy(batch, PlayIdOf)
    requires forall i :: 0 <= i < |batch| ==> !HasKey(st.rows, PlayIdOf, batch[i].playId)
    requires batch[|batch| - 1].id == UnsetId
    ensures InsertAll(st, batch).rows ==
      InsertAll(st, batch[..|batch| - 1]).rows + [batch[|batch| - 1].(id := InsertAll(st, batch).rows[|InsertAll(st, batch).rows| - 1].id)]
  {
    var n := |batch| - 1;
    var prefix := batch[..n];
    var before := InsertAll(st, prefix);
    assert forall j :: 0 <= j < n ==> prefix[j] == batch[j] && PlayIdOf(batch[j]) != PlayIdOf(batch[n]);
    AbsentPlayIdStaysAbsent(st, prefix, batch[n].playId);
    assert !Conflicts(before, batch[n]);
  }

  /** The condition of `WHERE gamePk = :gamePk`. */
  function InGame(g: int): Play -> bool
  {
    (p: Play) => p.gamePk == g
  }

  /** The rows `DELETE FROM plays WHERE gamePk = :gamePk` keeps. */
  function NotInGame(g: int): Play -> bool
  {
    (p: Play) => p.gamePk != g
  }

  /** `ORDER BY atBatIndex DESC, id DESC`. */
  predicate AtBatLeq(a: Play, b: Play)
  {
    a.atBatIndex < b.atBatIndex || (a.atBatIndex == b.atBatIndex && a.id <= b.id)
  }

  /** The `plays` table. */
  class PlayTable {
    var rows: seq<Play>
    var lastId: int

    ghost predicate Valid()
      reads this
    {
      ValidStore(PlayStore(rows, lastId))
    }

    constructor ()
      ensures Valid() && rows == [] && lastId == 0
    {
      rows := [];
      lastId := 0;
    }

    /** `observePlays(gamePk)`: the game's plays, latest at-bat first, ties
        broken by the later id first. */
    function ObservePlays(g: int): (r: seq<Play>)
      reads this
      ensures multiset(r) == multiset(Select(rows, InGame(g)))
      ensures forall x :: x in r <==> x in rows && x.gamePk == g
      ensures forall i, j :: 0 <= i < j < |r| ==>
        r[i].atBatIndex > r[j].atBatIndex || (r[i].atBatIndex == r[j].atBatIndex && r[i].id >= r[j].id)
    {
      var selected := Select(rows, InGame(g));
      var r := SortDesc(selected, AtBatLeq);
      SameRows(r, selected);
      assert forall i, j :: 0 <= i < j < |r| ==> AtBatLeq(r[j], r[i]);
      r
    }

    /** `insertPlays(plays)`: INSERT OR IGNORE, one play after the other. */
    method InsertPlays(batch: seq<Play>)
      requires Valid()
      modifies this
      ensures Valid()
      ensures PlayStore(rows, lastId) == InsertAll(PlayStore(old(rows), old(lastId)), batch)
    {
      ghost var start := PlayStore(rows, lastId);
      var i := 0;
      while i < |batch|
        invariant 0 <= i <= |batch|
        invariant PlayStore(rows, lastId) == InsertAll(start, batch[..i])
        invariant Valid()
      {
        assert batch[..i + 1][..i] == batch[..i];
        var p := batch[i];
        var id := if p.id == UnsetId then lastId + 1 else p.id;
        var taken := exists k :: 0 <= k < |rows| && (rows[k].playId == p.playId || rows[k].id == id);
        assert taken == Conflicts(PlayStore(rows, lastId), p);
        if !taken {
          rows := rows + [p.(id := id)];
          lastId := Max(lastId, id);
        }
        i := i + 1;
      }
      assert batch[..i] == batch;
    }

    /** `clearPlays(gamePk)`: `DELETE FROM plays WHERE gamePk = :gamePk`;
        the id sequence is not reset. */
    method ClearPlays(g: int)
      requires Valid()
      modifies this
      ensures Valid() && lastId == old(lastId)
      ensures rows == Select(old(rows), NotInGame(g))
      ensures forall x :: x in rows <==> x in old(rows) && x.gamePk != g
    {
      SelectUnique(rows, NotInGame(g), PlayIdOf);
      SelectUnique(rows, NotInGame(g), RowId);
      var kept := Select(rows, NotInGame(g));
      assert forall i :: 0 <= i < |kept| ==> kept[i] in rows;
      rows := kept;
    }
  }
}
