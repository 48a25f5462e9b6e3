/** The Android app's repository (MLBPlayByPlayApp/.../repo/MlbRepository.kt):
    it turns the Stats API's schedule into rows of the `games` table and a
    game's live feed into rows of the `plays` table. The API responses are
    parameters (the network is not modelled); so is the clock. */
module Repository {
  import opened Wrappers
  import opened Strings
  import opened StoreModels
  import opened StoreDao

  // ---------------------------------------------------------------------
  // Response shapes of the Stats API, as the app decodes them
  // ---------------------------------------------------------------------

  datatype Status = Status(abstractGameState: string, detailedState: string)
  datatype Team = Team(id: int, name: string, teamName: string)
  datatype TeamSide = TeamSide(team: Team)
  datatype Teams = Teams(away: TeamSide, home: TeamSide)
  datatype ScheduleGame = ScheduleGame(gamePk: int, status: Status, teams: Teams, gameDate: string)
  datatype ScheduleDate = ScheduleDate(date: string, games: seq<ScheduleGame>)
  datatype ScheduleResponse = ScheduleResponse(dates: seq<ScheduleDate>)

  datatype PlayResult = PlayResult(eventType: Option<string>, description: Option<string>)
  datatype About = About(inning: int, halfInning: string)
  datatype PlayDto = PlayDto(atBatIndex: int, result: Option<PlayResult>, about: Option<About>)
  datatype AllPlays = AllPlays(allPlays: seq<PlayDto>)
  datatype LiveData = LiveData(plays: Option<AllPlays>)
  datatype GameFeedResponse = GameFeedResponse(liveData: Option<LiveData>)

  // ---------------------------------------------------------------------
  // refreshGames: which games are live, and their rows
  // ---------------------------------------------------------------------

  /** The filter of `refreshGames`: the abstract state is "Live", or the
      detailed state mentions "Live" or "In Progress", all ignoring case. */
  predicate IsLiveGame(g: ScheduleGame)
  {
    EqualsIgnoreCase(g.status.abstractGameState, "Live")
    || ContainsIgnoreCase(g.status.detailedState, "Live")
    || ContainsIgnoreCase(g.status.detailedState, "In Progress")
  }

  /** The filter, letter by letter: the abstract state equals "Live", or
      "Live" or "In Progress" matches somewhere in the detailed state, all up
      to case. */
  lemma IsLiveGameMatches(g: ScheduleGame)
    ensures IsLiveGame(g) <==>
      EqualsIgnoreCase(g.status.abstractGameState, "Live")
      || (exists i :: MatchesAt(g.status.detailedState, "Live", i))
      || (exists i :: MatchesAt(g.status.detailedState, "In Progress", i))
  {
    ContainsIgnoreCaseAt(g.status.detailedState, "Live");
    ContainsIgnoreCaseAt(g.status.detailedState, "In Progress");
  }

  /** `schedule.dates.flatMap { it.games }`. */
  function GamesOf(dates: seq<ScheduleDate>): (r: seq<ScheduleGame>)
    ensures forall g :: g in r <==> exists d :: d in dates && g in d.games
  {
    if dates == [] then []
    else
      var n := |dates| - 1;
      GamesOf(dates[..n]) + dates[n].games
  }

  /** The games of later dates follow those of earlier dates. */
  lemma {:induction false} GamesOfAppend(a: seq<ScheduleDate>, b: seq<ScheduleDate>)
    ensures GamesOf(a + b) == GamesOf(a) + GamesOf(b)
    decreases |b|
  {
    if b == [] {
      assert a + b == a;
    } else {
      var n := |b| - 1;
      assert (a + b)[..|a| + n] == a + b[..n];
      GamesOfAppend(a, b[..n]);
    }
  }

  /** The row `refreshGames` builds for a game. */
  function Summary(g: ScheduleGame): GameSummary
  {
    GameSummary(g.gamePk, g.teams.home.team.teamName, g.teams.away.team.teamName,
                g.status.detailedState, g.gameDate)
  }

  /** `.filter { live }.map { summary }`. */
  function LiveSummaries(games: seq<ScheduleGame>): (r: seq<GameSummary>)
    ensures |r| <= |games|
    ensures forall x :: x in r <==> exists g :: g in games && IsLiveGame(g) && x == Summary(g)
  {
    if games == [] then []
    else
      var n := |games| - 1;
      LiveSummaries(games[..n]) + (if IsLiveGame(games[n]) then [Summary(games[n])] else [])
  }

  /** Filtering and mapping keep the schedule's order. */
  lemma {:induction false} LiveSummariesAppend(a: seq<ScheduleGame>, b: seq<ScheduleGame>)
    ensures LiveSummaries(a + b) == LiveSummaries(a) + LiveSummaries(b)
    decreases |b|
  {
    if b == [] {
      assert a + b == a;
    } else {
      var n := |b| - 1;
      assert (a + b)[..|a| + n] == a + b[..n];
      LiveSummariesAppend(a, b[..n]);
    }
  }

  /** The rows `refreshGames` writes for a schedule. */
  function ScheduledRows(schedule: ScheduleResponse): seq<GameSummary>
  {
    LiveSummaries(GamesOf(schedule.dates))
  }

  /** After `clearAll` and `upsertGames`, a row is stored exactly when it is
      the last live game of its gamePk in the schedule; with distinct gamePks
      the table is the live games in schedule order. */
  lemma RefreshedGames(schedule: ScheduleResponse)
    ensures forall x :: x in UpsertAll([], ScheduledRows(schedule)) <==>
      LastWithKey(ScheduledRows(schedule), x.gamePk) == Some(x)
    ensures ValidGames(ScheduledRows(schedule)) ==> UpsertAll([], ScheduledRows(schedule)) == ScheduledRows(schedule)
  {
    var rows := ScheduledRows(schedule);
    forall x ensures x in UpsertAll([], rows) <==> LastWithKey(rows, x.gamePk) == Some(x) {
      UpsertAllRows([], rows, x);
    }
    if ValidGames(rows) {
      UpsertAllDistinct(rows);
    }
  }

  /** Three states the filter decides. */
  lemma LiveStates(teams: Teams)
    ensures IsLiveGame(ScheduleGame(1, Status("LIVE", ""), teams, ""))
    ensures IsLiveGame(ScheduleGame(1, Status("Preview", "In Progress - Delayed"), teams, ""))
    ensures !IsLiveGame(ScheduleGame(1, Status("Final", "Final"), teams, ""))
  {
    assert Lower("LIVE") == Lower("Live") == "live";
    assert Lower("In Progress - Delayed")[0..|Lower("In Progress")|] == Lower("In Progress");
    assert OccursAt(Lower("In Progress - Delayed"), Lower("In Progress"), 0);
    assert Lower("Final") == "final";
    assert Lower("Live") == "live";
    forall i | 0 <= i <= 1 ensures !OccursAt("final", "live", i) {
      assert "final"[i..i + 4][0] == "final"[i];
    }
    assert Lower("In Progress") == "in progress";
    assert !Contains("final", "in progress");
  }

  // ---------------------------------------------------------------------
  // refreshPlays: the rows of a live feed
  // ---------------------------------------------------------------------

  /** `feed.liveData?.plays?.allPlays.orEmpty()`. */
  function FeedPlays(feed: GameFeedResponse): (r: seq<PlayDto>)
    ensures feed.liveData.None? || feed.liveData.value.plays.None? ==> r == []
  {
    match feed.liveData
    case None => []
    case Some(live) =>
      match live.plays
      case None => []
      case Some(all) => all.allPlays
  }

  /** The `playId` as the source writes it: `${'$'}` is a literal `$`, so
      the template yields this text, whatever the play. */
  const PlayIdAsWritten := "${p.atBatIndex}-${p.about?.inning}-${p.about?.halfInning}"

  function AsWrittenPlayId(p: PlayDto): string
  {
    PlayIdAsWritten
  }

  /** The row built for one play of the feed; `now` is the clock reading. */
  function PlayRow(gamePk: int, p: PlayDto, now: int, playIdOf: PlayDto -> string): (r: Play)
    ensures r.id == UnsetId && r.gamePk == gamePk && r.playId == playIdOf(p)
    ensures r.atBatIndex == p.atBatIndex && r.timestamp == now
    ensures p.about.None? ==> r.inning == 0 && r.inningHalf == ""
    ensures p.about.Some? ==> r.inning == p.about.value.inning && r.inningHalf == p.about.value.halfInning
    ensures p.result.None? ==> r.description == "" && r.eventType == ""
    ensures p.result.Some? ==>
      r.description == p.result.value.description.GetOr("") && r.eventType == p.result.value.eventType.GetOr("")
  {
    var description := if p.result.Some? then p.result.value.description.GetOr("") else "";
    var eventType := if p.result.Some? then p.result.value.eventType.GetOr("") else "";
    var inning := if p.about.Some? then p.about.value.inning else 0;
    var half := if p.about.Some? then p.about.value.halfInning else "";
    Play(UnsetId, gamePk, playIdOf(p), description, inning, half, p.atBatIndex, eventType, now)
  }

  /** One row per play of the feed, in feed order; `clock(i)` is the time
      read for the i-th play. */
  function PlayRows(gamePk: int, plays: seq<PlayDto>, clock: nat -> int, playIdOf: PlayDto -> string): (r: seq<Play>)
    ensures |r| == |plays|
    ensures forall i :: 0 <= i < |plays| ==> r[i] == PlayRow(gamePk, plays[i], clock(i), playIdOf)
  {
    if plays == [] then []
    else
      var n := |plays| - 1;
      PlayRows(gamePk, plays[..n], clock, playIdOf) + [PlayRow(gamePk, plays[n], clock(n), playIdOf)]
  }

  /** A batch whose plays all share one playId adds at most one row, and
      none once that playId is stored. */
  lemma {:induction false} SamePlayIdBatch(st: PlayStore, batch: seq<Play>, k: string)
    requires forall i :: 0 <= i < |batch| ==> batch[i].playId == k
    ensures HasKey(st.rows, PlayIdOf, k) ==> InsertAll(st, batch) == st
    ensures |st.rows| <= |InsertAll(st, batch).rows| <= |st.rows| + 1
    ensures |InsertAll(st, batch).rows| > |st.rows| ==> HasKey(InsertAll(st, batch).rows, PlayIdOf, k)
  {
    if batch != [] {
      var n := |batch| - 1;
      assert forall i :: 0 <= i < n ==> batch[..n][i] == batch[i];
      SamePlayIdBatch(st, batch[..n], k);
      var before := InsertAll(st, batch[..n]);
      var after := InsertAll(st, batch);
      if HasKey(before.rows, PlayIdOf, k) {
        assert Conflicts(before, batch[n]);
      } else if !Conflicts(before, batch[n]) {
        assert after.rows == before.rows + [batch[n].(id := IdFor(before, batch[n]))];
        assert PlayIdOf(after.rows[|before.rows|]) == k;
      }
    }
  }

  /** As written, a refresh adds at most one play row, and none once any
      refresh has stored one: every row carries the same playId. */
  lemma AsWrittenRefreshAddsAtMostOne(st: PlayStore, gamePk: int, plays: seq<PlayDto>, clock: nat -> int)
    ensures |InsertAll(st, PlayRows(gamePk, plays, clock, AsWrittenPlayId)).rows| <= |st.rows| + 1
    ensures HasKey(st.rows, PlayIdOf, PlayIdAsWritten) ==>
      InsertAll(st, PlayRows(gamePk, plays, clock, AsWrittenPlayId)) == st
  {
    SamePlayIdBatch(st, PlayRows(gamePk, plays, clock, AsWrittenPlayId), PlayIdAsWritten);
  }

  /** A feed of two plays refreshed into an empty table stores one row. */
  lemma AsWrittenSecondPlayLost(clock: nat -> int)
    ensures var plays := [PlayDto(0, None, None), PlayDto(1, None, None)];
      |InsertAll(PlayStore([], 0), PlayRows(1, plays, clock, AsWrittenPlayId)).rows| == 1
  {
    var plays := [PlayDto(0, None, None), PlayDto(1, None, None)];
    var rows := PlayRows(1, plays, clock, AsWrittenPlayId);
    assert rows[..1][..0] == [];
    var first := InsertAll(PlayStore([], 0), rows[..1]);
    assert InsertAll(PlayStore([], 0), rows[..0]) == PlayStore([], 0);
    assert first.rows == [rows[0].(id := 1)];
    assert HasKey(first.rows, PlayIdOf, rows[1].playId) by {
      assert PlayIdOf(first.rows[0]) == rows[1].playId;
    }
  }

  /** The playId the template evidently intends: the at-bat index, the
      inning and the half, with Kotlin's "null" for a missing `about`. */
  function CorrectedPlayId(p: PlayDto): string
  {
    IntToString(p.atBatIndex) + "-"
    + (if p.about.Some? then IntToString(p.about.value.inning) else "null") + "-"
    + (if p.about.Some? then p.about.value.halfInning else "null")
  }

  /** The corrected playId gives back its at-bat index, so plays with
      different at-bat indexes get different playIds. */
  lemma CorrectedPlayIdDecodes(p: PlayDto)
    ensures ReadInt(CorrectedPlayId(p)).0 == p.atBatIndex
  {
    var rest := "-" + (if p.about.Some? then IntToString(p.about.value.inning) else "null") + "-"
      + (if p.about.Some? then p.about.value.halfInning else "null");
    assert CorrectedPlayId(p) == IntToString(p.atBatIndex) + rest;
    ReadIntOfIntToString(p.atBatIndex, rest);
  }

  lemma CorrectedPlayIdsDistinct(p: PlayDto, q: PlayDto)
    requires p.atBatIndex != q.atBatIndex
    ensures CorrectedPlayId(p) != CorrectedPlayId(q)
  {
    CorrectedPlayIdDecodes(p);
    CorrectedPlayIdDecodes(q);
  }

  /** With the corrected playId, a feed whose at-bat indexes are distinct
      and new to the table is stored whole, in feed order. */
  lemma CorrectedRefreshStoresAll(st: PlayStore, gamePk: int, plays: seq<PlayDto>, clock: nat -> int)
    requires ValidStore(st)
    requires forall i, j :: 0 <= i < j < |plays| ==> plays[i].atBatIndex != plays[j].atBatIndex
    requires forall i :: 0 <= i < |plays| ==> !HasKey(st.rows, PlayIdOf, CorrectedPlayId(plays[i]))
    ensures var after := InsertAll(st, PlayRows(gamePk, plays, clock, CorrectedPlayId)).rows;
      |after| == |st.rows| + |plays|
      && forall i :: 0 <= i < |plays| ==>
           after[|st.rows| + i] == PlayRow(gamePk, plays[i], clock(i), CorrectedPlayId).(id := after[|st.rows| + i].id)
  {
    var rows := PlayRows(gamePk, plays, clock, CorrectedPlayId);
    forall i, j | 0 <= i < j < |rows| ensures PlayIdOf(rows[i]) != PlayIdOf(rows[j]) {
      CorrectedPlayIdsDistinct(plays[i], plays[j]);
    }
    FreshBatchAppended(st, rows);
  }

  // ---------------------------------------------------------------------
  // The repository
  // ---------------------------------------------------------------------

  class MlbRepository {
    const gameDao: GameTable
    const playDao: PlayTable

    constructor (gameDao: GameTable, playDao: PlayTable)
      ensures this.gameDao == gameDao && this.playDao == playDao
    {
      this.gameDao := gameDao;
      this.playDao := playDao;
    }

    /** `refreshGames(date)`, given the schedule the API returned. */
    method RefreshGames(schedule: ScheduleResponse)
      modifies gameDao
      ensures gameDao.Valid()
      ensures gameDao.rows == UpsertAll([], ScheduledRows(schedule))
      ensures forall x :: x in gameDao.rows <==> LastWithKey(ScheduledRows(schedule), x.gamePk) == Some(x)
    {
      var games := LiveSummaries(GamesOf(schedule.dates));
      gameDao.ClearAll();
      gameDao.UpsertGames(games);
      RefreshedGames(schedule);
    }

    /** `refreshPlays(gamePk)` as written, given the feed the API returned
        and the clock readings. */
    method RefreshPlays(gamePk: int, feed: GameFeedResponse, clock: nat -> int)
      requires playDao.Valid()
      modifies playDao
      ensures playDao.Valid()
      ensures PlayStore(playDao.rows, playDao.lastId) ==
        InsertAll(PlayStore(old(playDao.rows), old(playDao.lastId)), PlayRows(gamePk, FeedPlays(feed), clock, AsWrittenPlayId))
      ensures |playDao.rows| <= |old(playDao.rows)| + 1
    {
      var plays := PlayRows(gamePk, FeedPlays(feed), clock, AsWrittenPlayId);
      AsWrittenRefreshAddsAtMostOne(PlayStore(playDao.rows, playDao.lastId), gamePk, FeedPlays(feed), clock);
      playDao.InsertPlays(plays);
    }

    /** `refreshPlays(gamePk)` with the corrected playId. */
    method RefreshPlaysIntended(gamePk: int, feed: GameFeedResponse, clock: nat -> int)
      requires playDao.Valid()
      modifies playDao
      ensures playDao.Valid()
      ensures PlayStore(playDao.rows, playDao.lastId) ==
        InsertAll(PlayStore(old(playDao.rows), old(playDao.lastId)), PlayRows(gamePk, FeedPlays(feed), clock, CorrectedPlayId))
    {
      var plays := PlayRows(gamePk, FeedPlays(feed), clock, CorrectedPlayId);
      playDao.InsertPlays(plays);
    }

    /** `clearGamePlays(gamePk)`. */
    method ClearGamePlays(gamePk: int)
      requires playDao.Valid()
      modifies playDao
      ensures playDao.Valid() && playDao.lastId == old(playDao.lastId)
      ensures forall x :: x in playDao.rows <==> x in old(playDao.rows) && x.gamePk != gamePk
    {
      playDao.ClearPlays(gamePk);
    }
  }
}
