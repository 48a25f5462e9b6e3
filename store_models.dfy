/** The two Room entities of the Android app
    (MLBPlayByPlayApp/.../data/Models.kt): the `games` table keyed by
    `gamePk`, and the `plays` table keyed by an auto-generated `id` with a
    unique index on `playId`. Kotlin's `Long` and `Int` are unbounded here. */
module StoreModels {

  /** A row of the `games` table; `gamePk` is its primary key. */
  datatype GameSummary = GameSummary(gamePk: int, homeTeam: string, awayTeam: string, status: string, startTime: string)

  /** A row of the `plays` table. `id` is the auto-generated primary key and
      `playId` carries a unique index. */
  datatype Play = Play(id: int, gamePk: int, playId: string, description: string, inning: int,
                       inningHalf: string, atBatIndex: int, eventType: string, timestamp: int)

  /** The default `id` of a `Play`; Room treats it as "not set" and
      generates one on insert. */
  const UnsetId := 0

  function GameKey(g: GameSummary): int { g.gamePk }

  function PlayIdOf(p: Play): string { p.playId }

  function RowId(p: Play): int { p.id }

  /** No two rows share a key. */
  predicate UniqueBy<T, K(==)>(rows: seq<T>, key: T -> K)
  {
    forall i, j :: 0 <= i < j < |rows| ==> key(rows[i]) != key(rows[j])
  }

  /** Some row has key `k`. */
  predicate HasKey<T, K(==)>(rows: seq<T>, key: T -> K, k: K)
  {
    exists i :: 0 <= i < |rows| && key(rows[i]) == k
  }

  /** The `games` table's primary key: at most one row per gamePk. */
  predicate ValidGames(rows: seq<GameSummary>)
  {
    UniqueBy(rows, GameKey)
  }

  /** The `plays` table's constraints: at most one row per playId across the
      whole table (not per game), at most one row per id, no stored id is
      the unset id, and every id is at most the largest id ever handed out
      (`lastId`, SQLite's AUTOINCREMENT sequence). */
  predicate ValidPlays(rows: seq<Play>, lastId: int)
  {
    UniqueBy(rows, PlayIdOf) && UniqueBy(rows, RowId) && lastId >= 0
    && forall i :: 0 <= i < |rows| ==> rows[i].id != UnsetId && rows[i].id <= lastId
  }
}
