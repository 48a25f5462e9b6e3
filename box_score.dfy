/** The box-score panel of the browser client
    (MLBAPP/static/js/boxscore.js): the validity check of the fetched box
    score, the inning-by-inning table with its team abbreviations, the choice
    of batting rows (batting order or filter) and of pitching rows (pitchers,
    else anyone with pitching stats), and the panel's state. The box score
    `fetchAPI` returns is an input, `null` when the fetch failed. */
module BoxScoreView {
  import opened Wrappers
  import opened Strings
  import opened Js
  import opened Display

  const DataFailed := "Failed to load box score data. Please try again later."
  const LoadFailed := "Failed to load box score. Please try again later."

  // ---------------------------------------------------------------------
  // Validity (loadBoxScore)
  // ---------------------------------------------------------------------

  function Teams(data: JsVal): JsVal { Get(data, "teams") }
  function Away(data: JsVal): JsVal { Get(Teams(data), "away") }
  function Home(data: JsVal): JsVal { Get(Teams(data), "home") }

  /** `data && data.teams && data.teams.away && data.teams.home`. */
  predicate ValidData(data: JsVal)
  {
    Truthy(data) && Truthy(Teams(data)) && Truthy(Away(data)) && Truthy(Home(data))
  }

  // ---------------------------------------------------------------------
  // The inning-by-inning table (renderInningScores)
  // ---------------------------------------------------------------------

  /** How often `for (let i = 0; i < len; i++)` runs: `i < len` converts
      the length to a number, and NaN ends the loop at once. */
  function LoopCount(len: JsVal): (r: nat)
    ensures ToNumber(len).Some? && ToNumber(len).value > 0 ==> r == ToNumber(len).value
    ensures ToNumber(len).None? || ToNumber(len).value <= 0 ==> r == 0
  {
    match ToNumber(len)
    case Some(n) => if n > 0 then n else 0
    case None => 0
  }

  /** `v[i]` for every `i` the loop `i < v.length` visits: the elements of
      an array, the characters of a string, and the properties "0", "1", ...
      of an array-like object. */
  function Indexed(v: JsVal): (r: seq<JsVal>)
    ensures |r| == LoopCount(Length(v))
    ensures v.Arr? ==> r == v.items
    ensures v.Str? ==> forall i :: 0 <= i < |r| ==> r[i] == Str([v.s[i]])
    ensures v.Obj? ==> forall i :: 0 <= i < |r| ==> r[i] == Get(v, IntToString(i))
    ensures !v.Arr? && !v.Str? && !v.Obj? ==> r == []
  {
    match v
    case Arr(items) => items
    case Str(s) => seq(|s|, i requires 0 <= i < |s| => Str([s[i]]))
    case Obj(_) =>
      var n := LoopCount(Get(v, "length"));
      seq(n, i requires 0 <= i < n => Get(v, IntToString(i)))
    case _ => []
  }

  /** `(data.linescore || {}).innings || []`. */
  function InningsOf(data: JsVal): JsVal
  {
    Or(Get(Or(Get(data, "linescore"), Obj([])), "innings"), Arr([]))
  }

  /** One cell of a side's row: the side's runs when the side object exists
      and its runs are not `undefined`, else '-'; None when the inning entry
      itself is `null` or `undefined` and reading `.away`/`.home` throws. */
  function InningCell(inning: JsVal, side: string): (r: Option<string>)
    ensures r.None? <==> Nullish(inning)
    ensures r.Some? && Truthy(Get(inning, side)) && Get(Get(inning, side), "runs") != Undefined ==>
      r.value == ToText(Get(Get(inning, side), "runs"))
    ensures r.Some? && !(Truthy(Get(inning, side)) && Get(Get(inning, side), "runs") != Undefined) ==>
      r.value == "-"
  {
    if Nullish(inning) then None
    else
      var s := Get(inning, side);
      Some(if Truthy(s) then (if Get(s, "runs") != Undefined then ToText(Get(s, "runs")) else "-") else "-")
  }

  /** The cells of a side's row, one per inning entry, or None when one of
      them throws. */
  function InningCells(innings: seq<JsVal>, side: string): (r: Option<seq<string>>)
    ensures r.Some? <==> forall i :: 0 <= i < |innings| ==> !Nullish(innings[i])
    ensures r.Some? ==> |r.value| == |innings|
    ensures r.Some? ==> forall i :: 0 <= i < |innings| ==> r.value[i] == InningCell(innings[i], side).value
  {
    ReadAll(innings, CellOf(side))
  }

  /** `inning => InningCell(inning, side)`. */
  function CellOf(side: string): JsVal -> Option<string>
  {
    (inning: JsVal) => InningCell(inning, side)
  }

  /** The `for` loop that writes a side's inning cells. */
  method RenderInningCells(innings: seq<JsVal>, side: string) returns (r: Option<seq<string>>)
    ensures r == InningCells(innings, side)
  {
    var cells: seq<string> := [];
    var i := 0;
    while i < |innings|
      invariant 0 <= i <= |innings|
      invariant InningCells(innings[..i], side) == Some(cells)
    {
      assert innings[..i + 1][..i] == innings[..i];
      var c := InningCell(innings[i], side);
      if c.None? {
        InningCellsNoneExtends(innings, i + 1, side);
        return None;
      }
      cells := cells + [c.value];
      i := i + 1;
    }
    assert innings[..i] == innings;
    return Some(cells);
  }

  lemma InningCellsNoneExtends(innings: seq<JsVal>, m: nat, side: string)
    requires m <= |innings| && InningCells(innings[..m], side).None?
    ensures InningCells(innings, side).None?
  {
    var i :| 0 <= i < m && Nullish(innings[..m][i]);
    assert innings[..m][i] == innings[i];
  }

  /** The abbreviation of a side: `team.abbreviation`, else the first three
      characters of `team.name` upper-cased, else the default; None when a
      truthy name is not a string and `substring` throws. */
  function Abbreviation(side: JsVal, dflt: string): (r: Option<string>)
    ensures Truthy(Get(Get(side, "team"), "abbreviation")) ==>
      r == Some(ToText(Get(Get(side, "team"), "abbreviation")))
    ensures (!Truthy(Get(Get(side, "team"), "abbreviation")) && Get(Get(side, "team"), "name").Str?
             && Truthy(Get(Get(side, "team"), "name"))) ==>
      var name := Get(Get(side, "team"), "name").s;
      r.Some? && |r.value| == Min3(|name|) && r.value == Upper(name[..Min3(|name|)])
    ensures !Truthy(Get(Get(side, "team"), "abbreviation")) && !Truthy(Get(Get(side, "team"), "name")) ==>
      r == Some(dflt)
    ensures r.None? <==>
      !Truthy(Get(Get(side, "team"), "abbreviation")) && Truthy(Get(Get(side, "team"), "name"))
      && !Get(Get(side, "team"), "name").Str?
  {
    var team := Get(side, "team");
    var abbr := Get(team, "abbreviation");
    var name := Get(team, "name");
    if Truthy(abbr) then Some(ToText(abbr))
    else if !Truthy(name) then Some(dflt)
    else if name.Str? then Some(Upper(name.s[..Min3(|name.s|)]))
    else None
  }

  function Min3(n: nat): nat { if n < 3 then n else 3 }

  /** `team.teamStats.<group>.<stat> || 0`; None when `teamStats` or the
      group is missing and the read throws. */
  function TotalStat(side: JsVal, group: string, stat: string): (r: Option<string>)
    ensures r.None? <==>
      Nullish(side) || Nullish(Get(side, "teamStats")) || Nullish(Get(Get(side, "teamStats"), group))
    ensures r.Some? ==> r.value == ToText(Or(Get(Get(Get(side, "teamStats"), group), stat), Num(0)))
  {
    match Member(side, "teamStats")
    case None => None
    case Some(teamStats) =>
      match Member(teamStats, group)
      case None => None
      case Some(g) =>
        match Member(g, stat)
        case None => None
        case Some(v) => Some(ToText(Or(v, Num(0))))
  }

  /** A side's row of the inning table: abbreviation, inning cells, and R, H
      and E. */
  datatype SideLine = SideLine(abbreviation: string, cells: seq<string>, runs: string, hits: string, errors: string)

  datatype InningTable = NoInnings | Table(columns: nat, away: SideLine, home: SideLine)

  function Line(side: JsVal, dflt: string, innings: seq<JsVal>, sideKey: string): (r: Option<SideLine>)
    ensures r.Some? ==> |r.value.cells| == |innings|
    ensures r.Some? ==> InningCells(innings, sideKey) == Some(r.value.cells)
    ensures r.Some? ==>
      Abbreviation(side, dflt) == Some(r.value.abbreviation)
      && TotalStat(side, "batting", "runs") == Some(r.value.runs)
      && TotalStat(side, "batting", "hits") == Some(r.value.hits)
      && TotalStat(side, "fielding", "errors") == Some(r.value.errors)
    ensures r.None? <==>
      Abbreviation(side, dflt).None? || InningCells(innings, sideKey).None?
      || TotalStat(side, "batting", "runs").None? || TotalStat(side, "batting", "hits").None?
      || TotalStat(side, "fielding", "errors").None?
  {
    match Abbreviation(side, dflt)
    case None => None
    case Some(abbr) =>
      match InningCells(innings, sideKey)
      case None => None
      case Some(cells) =>
        match TotalStat(side, "batting", "runs")
        case None => None
        case Some(runs) =>
          match TotalStat(side, "batting", "hits")
          case None => None
          case Some(hits) =>
            match TotalStat(side, "fielding", "errors")
            case None => None
            case Some(errors) => Some(SideLine(abbr, cells, runs, hits, errors))
  }

  /** What `renderInningScores` shows for a valid box score, or None when it
      throws. An empty innings list shows the no-data message; otherwise
      there is one inning column per entry (none when the list has no
      `length`). */
  function InningScores(data: JsVal): (r: Option<InningTable>)
    ensures Length(InningsOf(data)) == Num(0) ==> r == Some(NoInnings)
    ensures r.Some? && r.value.Table? ==>
      r.value.columns == |Indexed(InningsOf(data))|
      && |r.value.away.cells| == r.value.columns && |r.value.home.cells| == r.value.columns
    ensures Length(InningsOf(data)) != Num(0) ==>
      (r.Some? <==> Line(Away(data), "AWAY", Indexed(InningsOf(data)), "away").Some?
                    && Line(Home(data), "HOME", Indexed(InningsOf(data)), "home").Some?)
    ensures Length(InningsOf(data)) != Num(0) && r.Some? ==>
      r.value.Table?
      && Some(r.value.away) == Line(Away(data), "AWAY", Indexed(InningsOf(data)), "away")
      && Some(r.value.home) == Line(Home(data), "HOME", Indexed(InningsOf(data)), "home")
  {
    var innings := InningsOf(data);
    if Length(innings) == Num(0) then Some(NoInnings)
    else
      var items := Indexed(innings);
      match Line(Away(data), "AWAY", items, "away")
      case None => None
      case Some(away) =>
        match Line(Home(data), "HOME", items, "home")
        case None => None
        case Some(home) => Some(Table(|items|, away, home))
  }

  /** One side's row of `renderInningScores`, its cells written by the
      loop. */
  method RenderLine(side: JsVal, dflt: string, innings: seq<JsVal>, key: string) returns (r: Option<SideLine>)
    ensures r == Line(side, dflt, innings, key)
  {
    var abbr := Abbreviation(side, dflt);
    var cells := RenderInningCells(innings, key);
    var runs := TotalStat(side, "batting", "runs");
    var hits := TotalStat(side, "batting", "hits");
    var errors := TotalStat(side, "fielding", "errors");
    if abbr.None? || cells.None? || runs.None? || hits.None? || errors.None? {
      return None;
    }
    return Some(SideLine(abbr.value, cells.value, runs.value, hits.value, errors.value));
  }

  /** `renderInningScores`: the no-innings check, then the away row and the
      home row. */
  method RenderInningScores(data: JsVal) returns (r: Option<InningTable>)
    ensures r == InningScores(data)
  {
    var innings := InningsOf(data);
    if Length(innings) == Num(0) {
      return Some(NoInnings);
    }
    var items := Indexed(innings);
    var away := RenderLine(Away(data), "AWAY", items, "away");
    if away.None? {
      return None;
    }
    var home := RenderLine(Home(data), "HOME", items, "home");
    if home.None? {
      return None;
    }
    return Some(Table(|items|, away.value, home.value));
  }

  /** Every inning entry that is an object with a side's runs shows those
      runs in that side's column. */
  lemma InningColumnsShowRuns(data: JsVal, i: nat)
    ensures (InningScores(data).Some? && InningScores(data).value.Table? && i < |Indexed(InningsOf(data))|
             && Truthy(Get(Indexed(InningsOf(data))[i], "away"))
             && Get(Get(Indexed(InningsOf(data))[i], "away"), "runs").Num?) ==>
      InningScores(data).value.away.cells[i] == IntToString(Get(Get(Indexed(InningsOf(data))[i], "away"), "runs").n)
  {
    var items := Indexed(InningsOf(data));
    if InningScores(data).Some? && InningScores(data).value.Table? && i < |items|
       && Truthy(Get(items[i], "away")) && Get(Get(items[i], "away"), "runs").Num? {
      var away := Line(Away(data), "AWAY", items, "away");
      assert InningScores(data).value.away == away.value;
      var inning := items[i];
      assert InningCell(inning, "away").value == ToText(Get(Get(inning, "away"), "runs"));
    }
  }

  /** A side whose team has neither a truthy abbreviation nor a truthy name
      is shown as 'AWAY' or 'HOME'. */
  lemma DefaultAbbreviationsShown(data: JsVal)
    ensures (InningScores(data).Some? && InningScores(data).value.Table?
             && !Truthy(Get(Get(Away(data), "team"), "abbreviation")) && !Truthy(Get(Get(Away(data), "team"), "name"))) ==>
      InningScores(data).value.away.abbreviation == "AWAY"
    ensures (InningScores(data).Some? && InningScores(data).value.Table?
             && !Truthy(Get(Get(Home(data), "team"), "abbreviation")) && !Truthy(Get(Get(Home(data), "team"), "name"))) ==>
      InningScores(data).value.home.abbreviation == "HOME"
  {
    if InningScores(data).Some? && InningScores(data).value.Table? {
      assert Length(InningsOf(data)) != Num(0);
    }
  }

  /** Every cell of both rows is its inning entry's cell: the side's runs
      when they are defined, '-' otherwise; and the R, H and E columns are
      the side's `teamStats` totals with `|| 0`. */
  lemma InningTableCells(data: JsVal, i: nat)
    ensures InningScores(data).Some? && InningScores(data).value.Table? && i < InningScores(data).value.columns ==>
      InningScores(data).value.away.cells[i] == InningCell(Indexed(InningsOf(data))[i], "away").value
      && InningScores(data).value.home.cells[i] == InningCell(Indexed(InningsOf(data))[i], "home").value
    ensures InningScores(data).Some? && InningScores(data).value.Table? ==>
      InningScores(data).value.away.runs == ToText(Or(Get(Get(Get(Away(data), "teamStats"), "batting"), "runs"), Num(0)))
      && InningScores(data).value.home.errors == ToText(Or(Get(Get(Get(Home(data), "teamStats"), "fielding"), "errors"), Num(0)))
  {
    if InningScores(data).Some? && InningScores(data).value.Table? {
      assert Length(InningsOf(data)) != Num(0);
    }
  }

  /** One row throws exactly when its abbreviation, one of its cells or
      one of its totals throws. */
  lemma LineThrows(side: JsVal, dflt: string, innings: seq<JsVal>, key: string)
    ensures Line(side, dflt, innings, key).None? <==>
      Abbreviation(side, dflt).None? || (exists i :: 0 <= i < |innings| && Nullish(innings[i]))
      || Nullish(side) || Nullish(Get(side, "teamStats"))
      || Nullish(Get(Get(side, "teamStats"), "batting")) || Nullish(Get(Get(side, "teamStats"), "fielding"))
  {
    assert TotalStat(side, "batting", "hits").None? <==> TotalStat(side, "batting", "runs").None?;
  }

  /** The table throws exactly when a row's abbreviation, one of the inning
      entries or one of the rows' totals throws. */
  lemma InningScoresThrow(data: JsVal)
    requires Length(InningsOf(data)) != Num(0)
    ensures InningScores(data).None? <==>
      Abbreviation(Away(data), "AWAY").None? || Abbreviation(Home(data), "HOME").None?
      || (exists i :: 0 <= i < |Indexed(InningsOf(data))| && Nullish(Indexed(InningsOf(data))[i]))
      || Nullish(Away(data)) || Nullish(Get(Away(data), "teamStats"))
      || Nullish(Get(Get(Away(data), "teamStats"), "batting")) || Nullish(Get(Get(Away(data), "teamStats"), "fielding"))
      || Nullish(Home(data)) || Nullish(Get(Home(data), "teamStats"))
      || Nullish(Get(Get(Home(data), "teamStats"), "batting")) || Nullish(Get(Get(Home(data), "teamStats"), "fielding"))
  {
    var items := Indexed(InningsOf(data));
    LineThrows(Away(data), "AWAY", items, "away");
    LineThrows(Home(data), "HOME", items, "home");
  }

  // ---------------------------------------------------------------------
  // Batting rows (renderBattingStats)
  // ---------------------------------------------------------------------

  /** `team.players || {}`. */
  function Players(team: JsVal): JsVal { Or(Get(team, "players"), Obj([])) }

  /** `team.battingOrder || []`. */
  function BattingOrder(team: JsVal): JsVal { Or(Get(team, "battingOrder"), Arr([])) }

  /** `Object.keys(players).length === 0`. Decoded objects are taken with
      distinct keys, so an object has one key per field. */
  predicate NoPlayers(players: JsVal)
  {
    match players
    case Obj(fields) => fields == []
    case Arr(items) => items == []
    case Str(s) => s == ""
    case _ => true
  }

  /** `player && player.stats && player.stats.batting`. */
  predicate HasBatting(player: JsVal)
  {
    Truthy(player) && Truthy(Get(player, "stats")) && Truthy(Get(Get(player, "stats"), "batting"))
  }

  /** The key of a batting-order entry in `players`: "ID" and the id. */
  function PlayerKey(id: JsVal): string
  {
    "ID" + ToText(id)
  }

  /** The players the batting order names, in its order, skipping ids with
      no (truthy) player. */
  function OrderedBatters(players: JsVal, order: seq<JsVal>): (r: seq<JsVal>)
    ensures |r| <= |order|
    ensures forall i :: 0 <= i < |r| ==> Truthy(r[i])
  {
    if order == [] then []
    else
      var n := |order| - 1;
      var p := Get(players, PlayerKey(order[n]));
      OrderedBatters(players, order[..n]) + (if Truthy(p) then [p] else [])
  }

  /** Every row is the player of some id of the batting order. */
  lemma {:induction false} OrderedBattersFromOrder(players: JsVal, order: seq<JsVal>)
    ensures forall p :: p in OrderedBatters(players, order) ==>
      exists i :: 0 <= i < |order| && p == Get(players, PlayerKey(order[i]))
  {
    if order != [] {
      var n := |order| - 1;
      OrderedBattersFromOrder(players, order[..n]);
      forall p | p in OrderedBatters(players, order)
        ensures exists i :: 0 <= i < |order| && p == Get(players, PlayerKey(order[i]))
      {
        if p in OrderedBatters(players, order[..n]) {
          var i :| 0 <= i < n && p == Get(players, PlayerKey(order[..n][i]));
          assert order[..n][i] == order[i];
        } else {
          assert p == Get(players, PlayerKey(order[n]));
        }
      }
    }
  }

  /** When every id of the batting order has a player, there is one row per
      id, in batting-order order. */
  lemma {:induction false} OrderedBattersAllPresent(players: JsVal, order: seq<JsVal>)
    requires forall i :: 0 <= i < |order| ==> Truthy(Get(players, PlayerKey(order[i])))
    ensures var r := OrderedBatters(players, order);
      |r| == |order| && forall i :: 0 <= i < |order| ==> r[i] == Get(players, PlayerKey(order[i]))
  {
    if order != [] {
      var n := |order| - 1;
      var p := Get(players, PlayerKey(order[n]));
      assert forall i :: 0 <= i < n ==> Truthy(Get(players, PlayerKey(order[..n][i]))) by {
        forall i | 0 <= i < n ensures Truthy(Get(players, PlayerKey(order[..n][i]))) {
          assert order[..n][i] == order[i];
        }
      }
      OrderedBattersAllPresent(players, order[..n]);
      var rest := OrderedBatters(players, order[..n]);
      assert OrderedBatters(players, order) == rest + [p];
      forall i | 0 <= i < |order| ensures OrderedBatters(players, order)[i] == Get(players, PlayerKey(order[i])) {
        if i < n { assert order[..n][i] == order[i]; }
      }
    }
  }

  /** An id with no player contributes no row. */
  lemma OrderedBattersSkip(players: JsVal, order: seq<JsVal>, id: JsVal)
    requires !Truthy(Get(players, PlayerKey(id)))
    ensures OrderedBatters(players, order + [id]) == OrderedBatters(players, order)
  {
    assert (order + [id])[..|order|] == order;
  }

  /** The `forEach` over the batting order. */
  method RenderOrderedBatters(players: JsVal, order: seq<JsVal>) returns (rows: seq<JsVal>)
    ensures rows == OrderedBatters(players, order)
  {
    rows := [];
    var i := 0;
    while i < |order|
      invariant 0 <= i <= |order|
      invariant rows == OrderedBatters(players, order[..i])
    {
      assert order[..i + 1][..i] == order[..i];
      var player := Get(players, PlayerKey(order[i]));
      if Truthy(player) {
        rows := rows + [player];
      }
      i := i + 1;
    }
    assert order[..i] == order;
  }

  datatype BattingPane = NoBattingData | Batters(rows: seq<JsVal>, totals: JsVal)

  /** What `renderBattingStats` shows for a side, or None when it throws (a
      batting order whose length is not 0 and that is not an array has no
      `forEach`). */
  function BattingStats(team: JsVal): (r: Option<BattingPane>)
    ensures NoPlayers(Players(team)) ==> r == Some(NoBattingData)
    ensures !NoPlayers(Players(team)) && Length(BattingOrder(team)) == Num(0) ==>
      r.Some? && r.value.Batters? && r.value.rows == Filter(Values(Players(team)), HasBatting)
    ensures !NoPlayers(Players(team)) && BattingOrder(team).Arr? && BattingOrder(team).items != [] ==>
      r.Some? && r.value.Batters? && r.value.rows == OrderedBatters(Players(team), BattingOrder(team).items)
    ensures !NoPlayers(Players(team)) && Length(BattingOrder(team)) != Num(0) && !BattingOrder(team).Arr? ==>
      r.None?
  {
    var players := Players(team);
    var order := BattingOrder(team);
    var totals := Or(Get(Get(team, "teamStats"), "batting"), Obj([]));
    if NoPlayers(players) then Some(NoBattingData)
    else if Length(order) == Num(0) then Some(Batters(Filter(Values(players), HasBatting), totals))
    else if order.Arr? then Some(Batters(OrderedBatters(players, order.items), totals))
    else None
  }

  /** `renderBattingStats` for one side, with its batting-order loop. */
  method RenderBattingStats(team: JsVal) returns (r: Option<BattingPane>)
    ensures r == BattingStats(team)
  {
    var players := Players(team);
    var order := BattingOrder(team);
    var totals := Or(Get(Get(team, "teamStats"), "batting"), Obj([]));
    if NoPlayers(players) {
      return Some(NoBattingData);
    }
    if Length(order) == Num(0) {
      return Some(Batters(Filter(Values(players), HasBatting), totals));
    }
    if !order.Arr? {
      return None;
    }
    var rows := RenderOrderedBatters(players, order.items);
    return Some(Batters(rows, totals));
  }

  /** Without a batting order the rows are exactly the players that have
      batting stats, in object order. */
  lemma BattersWithoutOrder(team: JsVal)
    requires Players(team).Obj? && Players(team).fields != [] && Length(BattingOrder(team)) == Num(0)
    ensures var r := BattingStats(team);
      r.Some? && r.value.Batters?
      && (forall p :: p in r.value.rows <==> p in Values(Players(team)) && HasBatting(p))
  {
  }

  // ---------------------------------------------------------------------
  // Pitching rows (renderPitchingStats)
  // ---------------------------------------------------------------------

  /** `player && player.stats && player.stats.pitching`. */
  predicate HasPitching(player: JsVal)
  {
    Truthy(player) && Truthy(Get(player, "stats")) && Truthy(Get(Get(player, "stats"), "pitching"))
  }

  /** A player listed at position code '1' (pitcher) with pitching stats. */
  predicate IsPitcher(player: JsVal)
  {
    Truthy(player) && Truthy(Get(player, "position")) && StrictEq(Get(Get(player, "position"), "code"), Str("1"))
    && HasPitching(player)
  }

  datatype PitchingPane = NoPitchingData | Pitchers(rows: seq<JsVal>)

  /** The players `renderPitchingStats` lists. */
  function PitcherRows(players: seq<JsVal>): (r: seq<JsVal>)
    ensures forall p :: p in r ==> HasPitching(p) && p in players
    ensures (exists p :: p in players && IsPitcher(p)) ==>
      forall p :: p in r <==> p in players && IsPitcher(p)
    ensures (forall p :: p in players ==> !IsPitcher(p)) ==>
      forall p :: p in r <==> p in players && HasPitching(p)
    ensures r == Filter(players, IsPitcher) || r == Filter(players, HasPitching)
  {
    var pitchers := Filter(players, IsPitcher);
    assert pitchers != [] ==> pitchers[0] in pitchers;
    if pitchers == [] then Filter(players, HasPitching) else pitchers
  }

  /** What `renderPitchingStats` shows for a side: the pitchers, else every
      player with pitching stats, else the no-data message. */
  function PitchingStats(team: JsVal): (r: PitchingPane)
    ensures NoPlayers(Players(team)) ==> r == NoPitchingData
    ensures r.Pitchers? ==> r.rows != [] && forall p :: p in r.rows ==> HasPitching(p) && p in Values(Players(team))
    ensures r == NoPitchingData <==>
      NoPlayers(Players(team)) || forall p :: p in Values(Players(team)) ==> !HasPitching(p)
    ensures r.Pitchers? ==>
      r.rows == Filter(Values(Players(team)), IsPitcher) || r.rows == Filter(Values(Players(team)), HasPitching)
  {
    var players := Players(team);
    if NoPlayers(players) then NoPitchingData
    else
      var rows := PitcherRows(Values(players));
      assert rows != [] ==> rows[0] in rows;
      if rows == [] then NoPitchingData else Pitchers(rows)
  }

  // ---------------------------------------------------------------------
  // The panel (loadBoxScore, renderBoxScore, setupTeamTabs)
  // ---------------------------------------------------------------------

  /** The score summary: each side's name and runs. */
  datatype Summary = Summary(awayName: string, awayRuns: string, homeName: string, homeRuns: string)

  /** `renderScoreSummary`: each side's `team?.name || 'Away Team'` (or
      'Home Team') and `teamStats?.batting?.runs || 0`. */
  function SummaryOf(data: JsVal): (r: Summary)
    ensures Truthy(Get(Get(Away(data), "team"), "name")) ==> r.awayName == ToText(Get(Get(Away(data), "team"), "name"))
    ensures !Truthy(Get(Get(Away(data), "team"), "name")) ==> r.awayName == "Away Team"
    ensures Truthy(Get(Get(Home(data), "team"), "name")) ==> r.homeName == ToText(Get(Get(Home(data), "team"), "name"))
    ensures !Truthy(Get(Get(Home(data), "team"), "name")) ==> r.homeName == "Home Team"
    ensures Truthy(Get(Get(Get(Away(data), "teamStats"), "batting"), "runs")) ==>
      r.awayRuns == ToText(Get(Get(Get(Away(data), "teamStats"), "batting"), "runs"))
    ensures !Truthy(Get(Get(Get(Away(data), "teamStats"), "batting"), "runs")) ==> r.awayRuns == "0"
    ensures Truthy(Get(Get(Get(Home(data), "teamStats"), "batting"), "runs")) ==>
      r.homeRuns == ToText(Get(Get(Get(Home(data), "teamStats"), "batting"), "runs"))
    ensures !Truthy(Get(Get(Get(Home(data), "teamStats"), "batting"), "runs")) ==> r.homeRuns == "0"
  {
    Summary(ToText(Or(Get(Get(Away(data), "team"), "name"), Str("Away Team"))),
            ToText(Or(Get(Get(Get(Away(data), "teamStats"), "batting"), "runs"), Num(0))),
            ToText(Or(Get(Get(Home(data), "team"), "name"), Str("Home Team"))),
            ToText(Or(Get(Get(Get(Home(data), "teamStats"), "batting"), "runs"), Num(0))))
  }

  /** One side's two stats tables; None for a table whose container holds
      nothing. */
  datatype TeamPanes = TeamPanes(batting: Option<BattingPane>, pitching: Option<PitchingPane>)

  const EmptyPanes := TeamPanes(None, None)

  datatype BoxView = Blank | Loading | Failed(message: string)
                   | Shown(summary: Summary, innings: InningTable, away: TeamPanes, home: TeamPanes)

  /** The panes of one side once its containers exist, or None when
      rendering them throws. */
  function Panes(team: JsVal): (r: Option<TeamPanes>)
    ensures r.Some? ==> r.value.batting.Some? && r.value.pitching.Some?
    ensures r.Some? <==> BattingStats(team).Some?
  {
    match BattingStats(team)
    case None => None
    case Some(b) => Some(TeamPanes(Some(b), Some(PitchingStats(team))))
  }

  /** The view `loadBoxScore` leaves, as the code is written: `showLoading`
      has replaced the container's content, so `renderBoxScore` rebuilds it
      without the stats containers, `renderTeamStats` finds none to fill,
      and `setupTeamTabs` creates them empty afterwards. */
  function LoadedView(data: JsVal): (v: BoxView)
    ensures !ValidData(data) ==> v == Failed(DataFailed)
    ensures ValidData(data) && InningScores(data).None? ==> v == Failed(LoadFailed)
    ensures v.Shown? ==> v.away == EmptyPanes && v.home == EmptyPanes
  {
    if !ValidData(data) then Failed(DataFailed)
    else
      match InningScores(data)
      case None => Failed(LoadFailed)
      case Some(t) => Shown(SummaryOf(data), t, EmptyPanes, EmptyPanes)
  }

  /** The view evidently intended: the stats containers exist when the two
      sides' tables are rendered, so each table shows its rows. */
  function IntendedView(data: JsVal): (v: BoxView)
    ensures !ValidData(data) ==> v == Failed(DataFailed)
    ensures v.Shown? ==> Panes(Away(data)) == Some(v.away) && Panes(Home(data)) == Some(v.home)
    ensures v.Shown? ==> v.away.batting.Some? && v.away.pitching.Some? && v.home.batting.Some? && v.home.pitching.Some?
    ensures ValidData(data) ==>
      (v.Shown? <==> InningScores(data).Some? && Panes(Away(data)).Some? && Panes(Home(data)).Some?)
  {
    if !ValidData(data) then Failed(DataFailed)
    else
      match InningScores(data)
      case None => Failed(LoadFailed)
      case Some(t) =>
        match Panes(Away(data))
        case None => Failed(LoadFailed)
        case Some(away) =>
          match Panes(Home(data))
          case None => Failed(LoadFailed)
          case Some(home) => Shown(SummaryOf(data), t, away, home)
  }

  /** A box score whose two sides each list one batter, with id 7, in
      their batting order. */
  const ExampleBatter := Obj([("stats", Obj([("batting", Obj([("hits", Num(1))]))]))])
  const ExampleSide := Obj([("players", Obj([("ID7", ExampleBatter)])), ("battingOrder", Arr([Num(7)])),
                            ("teamStats", Obj([("batting", Obj([])), ("fielding", Obj([]))]))])
  const ExampleData := Obj([("teams", Obj([("away", ExampleSide), ("home", ExampleSide)]))])

  lemma ExampleSideRows()
    ensures Players(ExampleSide) == Obj([("ID7", ExampleBatter)])
    ensures BattingOrder(ExampleSide) == Arr([Num(7)])
    ensures BattingStats(ExampleSide) == Some(Batters([ExampleBatter], Obj([])))
  {
    ExamplePlayers();
    ExampleOrder();
    ExampleTotals();
    ExampleOrdered();
  }

  lemma ExamplePlayers()
    ensures Players(ExampleSide) == Obj([("ID7", ExampleBatter)])
  {
    var fs := ExampleSide.fields;
    assert LastBinding(fs[..1], "players") == Some(Obj([("ID7", ExampleBatter)]));
    assert LastBinding(fs[..2], "players") == Some(Obj([("ID7", ExampleBatter)]));
    assert fs[..3] == fs;
  }

  lemma ExampleOrder()
    ensures BattingOrder(ExampleSide) == Arr([Num(7)])
  {
    var fs := ExampleSide.fields;
    assert fs[..3] == fs;
    assert LastBinding(fs[..2], "battingOrder") == Some(Arr([Num(7)]));
  }

  lemma ExampleTotals()
    ensures Or(Get(Get(ExampleSide, "teamStats"), "batting"), Obj([])) == Obj([])
  {
    var fs := ExampleSide.fields;
    assert LastBinding(fs, "teamStats") == Some(Obj([("batting", Obj([])), ("fielding", Obj([]))]));
    assert LastBinding([("batting", Obj([])), ("fielding", Obj([]))][..1], "batting") == Some(Obj([]));
  }

  lemma ExampleOrdered()
    ensures OrderedBatters(Obj([("ID7", ExampleBatter)]), [Num(7)]) == [ExampleBatter]
  {
    assert PlayerKey(Num(7)) == "ID7";
    assert LastBinding([("ID7", ExampleBatter)], "ID7") == Some(ExampleBatter);
    assert [Num(7)][..0] == [];
  }

  lemma ExampleSides()
    ensures ValidData(ExampleData) && Away(ExampleData) == ExampleSide && Home(ExampleData) == ExampleSide
    ensures InningsOf(ExampleData) == Arr([])
  {
    var teams := [("away", ExampleSide), ("home", ExampleSide)];
    assert LastBinding([("teams", Obj(teams))], "teams") == Some(Obj(teams));
    assert LastBinding(teams[..1], "away") == Some(ExampleSide);
  }

  /** On the example, the intended view lists the batter while the view as
      written lists nobody. */
  lemma BattersNeverShownAsWritten()
    ensures LoadedView(ExampleData).Shown? && LoadedView(ExampleData).away.batting.None?
    ensures IntendedView(ExampleData).Shown?
    ensures IntendedView(ExampleData).away.batting == Some(Batters([ExampleBatter], Obj([])))
  {
    ExampleSides();
    ExampleSideRows();
    assert InningScores(ExampleData) == Some(NoInnings);
    assert Panes(ExampleSide).Some?;
  }

  /** The box-score panel: the game it shows, the box score it fetched and
      what it shows. */
  class BoxScore {
    var currentGamePk: Option<int>
    var boxScoreData: JsVal
    var view: BoxView

    constructor ()
      ensures currentGamePk.None? && boxScoreData == Null && view == Blank
    {
      currentGamePk := None;
      boxScoreData := Null;
      view := Blank;
    }

    /** `loadBoxScore(gamePk)` with the box score fetched for it. */
    method Load(gamePk: int, data: JsVal)
      modifies this
      ensures currentGamePk == Some(gamePk) && boxScoreData == data
      ensures view == LoadedView(data)
    {
      currentGamePk := Some(gamePk);
      view := Loading;
      boxScoreData := data;
      if !ValidData(boxScoreData) {
        view := Failed(DataFailed);
        return;
      }
      var table := RenderInningScores(boxScoreData);
      if table.None? {
        view := Failed(LoadFailed);
        return;
      }
      // The stats containers were removed by the loading state, so both
      // sides' tables stay empty until setupTeamTabs recreates them.
      view := Shown(SummaryOf(boxScoreData), table.value, EmptyPanes, EmptyPanes);
    }

    /** `loadBoxScore` with the team tabs set up before the sides' tables
        are rendered. */
    method LoadIntended(gamePk: int, data: JsVal)
      modifies this
      ensures currentGamePk == Some(gamePk) && boxScoreData == data
      ensures view == IntendedView(data)
    {
      currentGamePk := Some(gamePk);
      view := Loading;
      boxScoreData := data;
      if !ValidData(boxScoreData) {
        view := Failed(DataFailed);
        return;
      }
      var table := RenderInningScores(data);
      var awayBatting := RenderBattingStats(Away(data));
      var homeBatting := RenderBattingStats(Home(data));
      if table.None? || awayBatting.None? || homeBatting.None? {
        view := Failed(LoadFailed);
        return;
      }
      var away := TeamPanes(awayBatting, Some(PitchingStats(Away(data))));
      var home := TeamPanes(homeBatting, Some(PitchingStats(Home(data))));
      assert Panes(Away(data)) == Some(away) && Panes(Home(data)) == Some(home);
      view := Shown(SummaryOf(data), table.value, away, home);
    }
  }
}
