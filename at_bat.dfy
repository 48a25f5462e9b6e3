/** The at-bat panel of the browser client (MLBAPP/static/js/atbat.js): the
    live feed it keeps, its 10-second poll, the status line, the occupied
    bases and the plotted pitches of the current at-bat. */
module AtBatView {
  import opened Wrappers
  import opened Strings
  import opened Js
  import opened Display

  /** The period of the poll `setupLiveUpdates` installs. */
  const AtBatPollMs := 10000

  const GameLoadFailed := "Failed to load game data. Please try again later."

  datatype Bases = Bases(first: bool, second: bool, third: bool)

  /** One plotted pitch: its CSS class, its raw coordinates (the percentage
      the source derives from them is floating point), its title and its
      number text. */
  datatype PitchMark = PitchMark(pitchClass: string, x: int, y: int, title: string, number: string)

  /** What the panel shows. `pitchZone` is None when the current play has no
      complete matchup: the at-bat section then holds only its no-data
      message and no pitch is drawn. */
  datatype Screen =
    | Blank
    | Loading
    | Failed(message: string)
    | NoGameData
    | Incomplete
    | Panel(status: string, score: string, bases: Bases, pitchZone: Option<seq<PitchMark>>)

  /** One child of the panel's container. A message (`showLoading`,
      `showError`, or a no-data text; never a `Panel`) replaces the whole
      content; the three sections are created on demand after whatever the
      container holds and updated in place afterwards. The at-bat section
      holds the no-at-bat message when `noAtBat` is set, and below it the
      pitch zone with its marks when `zone` is present. */
  datatype Block =
    | Message(screen: Screen)
    | GameInfo(status: string, score: string)
    | Field(bases: Bases)
    | AtBatSection(noAtBat: bool, zone: Option<seq<PitchMark>>)

  // ---------------------------------------------------------------------
  // The current play and the status line (renderGameInfo)
  // ---------------------------------------------------------------------

  /** `(liveData?.plays || {}).currentPlay || {}`: always truthy. */
  function CurrentPlay(liveData: JsVal): (cp: JsVal)
    ensures Truthy(cp)
  {
    Or(Get(Or(Get(liveData, "plays"), Obj([])), "currentPlay"), Obj([]))
  }

  /** `currentPlay.count?.<key> || 0`. */
  function CountValue(currentPlay: JsVal, key: string): (v: JsVal)
    ensures Truthy(v) || v == Num(0)
  {
    Or(Get(Get(currentPlay, "count"), key), Num(0))
  }

  function GameState(gameData: JsVal): JsVal
  {
    Get(Get(gameData, "status"), "abstractGameState")
  }

  /** The inning of the live status line; a missing half reads as the top,
      a missing inning as the first. */
  function InningPart(currentPlay: JsVal): string
  {
    var about := Get(currentPlay, "about");
    FormatInning(Or(Get(about, "halfInning"), Str("top")), Or(Get(about, "inning"), Num(1)))
  }

  /** The count of the live status line: balls-strikes, then the outs. */
  function CountPart(currentPlay: JsVal): string
  {
    var outs := CountValue(currentPlay, "outs");
    " | " + ToText(CountValue(currentPlay, "balls")) + "-" + ToText(CountValue(currentPlay, "strikes"))
    + " | " + ToText(outs) + " out" + (if !StrictEq(outs, Num(1)) then "s" else "")
  }

  /** The live part of the status line: the inning, then the count. */
  function LiveStatus(currentPlay: JsVal): string
  {
    InningPart(currentPlay) + CountPart(currentPlay)
  }

  /** The `<h3>` text of `renderGameInfo`. For a game neither live nor final
      the text is `formatTime` of the scheduled time (or of `now`, the
      current time as an ISO string), which is an input; None from it is a
      thrown error, shown as "Scheduled". */
  function StatusLine(gameData: JsVal, liveData: JsVal, formatTime: JsVal -> Option<string>, now: string): (r: string)
    ensures IsLiveState(GameState(gameData)) ==> r == LiveStatus(CurrentPlay(liveData))
    ensures GameState(gameData) == Str("Final") ==> r == "Final"
    ensures !IsLiveState(GameState(gameData)) && GameState(gameData) != Str("Final") ==>
      r == formatTime(Or(Get(Get(gameData, "datetime"), "dateTime"), Str(now))).GetOr("Scheduled")
  {
    var state := GameState(gameData);
    if IsLiveState(state) then LiveStatus(CurrentPlay(liveData))
    else if StrictEq(state, Str("Final")) then "Final"
    else
      match formatTime(Or(Get(Get(gameData, "datetime"), "dateTime"), Str(now)))
      case Some(t) => t
      case None => "Scheduled"
  }

  /** "out" is singular exactly when the outs value is the number 1. */
  lemma LiveStatusOutsPlural(currentPlay: JsVal)
    ensures var r := LiveStatus(currentPlay);
      |r| > 0 && (r[|r| - 1] == 's' <==> CountValue(currentPlay, "outs") != Num(1))
  {
    var counts := CountPart(currentPlay);
    var outs := CountValue(currentPlay, "outs");
    var head := " | " + ToText(CountValue(currentPlay, "balls")) + "-" + ToText(CountValue(currentPlay, "strikes"))
      + " | " + ToText(outs) + " out";
    if outs == Num(1) {
      assert counts == head;
    } else {
      assert counts == head + "s";
    }
    var r := LiveStatus(currentPlay);
    assert r[|r| - 1] == counts[|counts| - 1];
  }

  /** A prefix no longer than `a` is a prefix of `a + b` just when it is one
      of `a`. */
  lemma PrefixOfLonger(p: string, a: string, b: string)
    requires |p| <= |a|
    ensures p <= a + b <==> p <= a
  {
    assert (a + b)[..|p|] == a[..|p|];
  }

  /** The line opens with "Top " exactly when the half is 'top' or is
      falsy (missing), since `|| 'top'` supplies the default. */
  lemma LiveStatusTopIff(currentPlay: JsVal)
    ensures var half := Get(Get(currentPlay, "about"), "halfInning");
      "Top " <= LiveStatus(currentPlay) <==> half == Str("top") || !Truthy(half)
  {
    var about := Get(currentPlay, "about");
    FormatInningTopIff(Or(Get(about, "halfInning"), Str("top")), Or(Get(about, "inning"), Num(1)));
    PrefixOfLonger("Top ", InningPart(currentPlay), CountPart(currentPlay));
  }

  /** A side's team name: `(teams?.<side> || { name: <dflt> }).name || <dflt>`. */
  function TeamName(gameData: JsVal, side: string, dflt: string): (r: string)
    ensures !Truthy(Get(Get(gameData, "teams"), side)) ==> r == dflt
  {
    var team := Or(Get(Get(gameData, "teams"), side), Obj([("name", Str(dflt))]));
    ToText(Or(Get(team, "name"), Str(dflt)))
  }

  /** A side's runs: `linescore?.teams?.<side>?.runs || 0`. */
  function SideScore(liveData: JsVal, side: string): (r: string)
    ensures !Truthy(Get(Get(Get(Get(liveData, "linescore"), "teams"), side), "runs")) ==> r == "0"
  {
    ToText(Or(Get(Get(Get(Get(liveData, "linescore"), "teams"), side), "runs"), Num(0)))
  }

  /** The score line "<away> <runs>, <home> <runs>". */
  function ScoreLine(gameData: JsVal, liveData: JsVal): (r: string)
    ensures TeamName(gameData, "away", "Away") + " " + SideScore(liveData, "away") + ", " <= r
    ensures |r| >= |SideScore(liveData, "home")|
      && r[|r| - |SideScore(liveData, "home")|..] == SideScore(liveData, "home")
  {
    var away := TeamName(gameData, "away", "Away") + " " + SideScore(liveData, "away") + ", ";
    var home := TeamName(gameData, "home", "Home") + " ";
    var runs := SideScore(liveData, "home");
    EndsWith(away + home, runs);
    away + home + runs
  }

  lemma EndsWith(x: string, y: string)
    ensures (x + y)[|x + y| - |y|..] == y
  {
  }

  // ---------------------------------------------------------------------
  // Base occupancy (renderField)
  // ---------------------------------------------------------------------

  /** `currentPlay.runners || []`. */
  function Runners(currentPlay: JsVal): JsVal
  {
    Or(Get(currentPlay, "runners"), Arr([]))
  }

  function StartBase(runner: JsVal): JsVal
  {
    Get(Get(runner, "movement"), "start")
  }

  /** The runner's `movement.start` is exactly the base name. */
  predicate StartsOn(runner: JsVal, base: string)
  {
    StrictEq(StartBase(runner), Str(base))
  }

  predicate SomeRunnerOn(runners: seq<JsVal>, base: string)
  {
    exists i :: 0 <= i < |runners| && StartsOn(runners[i], base)
  }

  /** The bases `renderField` marks: a base is occupied exactly when the
      runner list is an array and some runner in it starts on that base. */
  function OccupiedBases(runners: JsVal): (b: Bases)
  {
    if runners.Arr? then
      Bases(SomeRunnerOn(runners.items, "1B"), SomeRunnerOn(runners.items, "2B"), SomeRunnerOn(runners.items, "3B"))
    else Bases(false, false, false)
  }

  /** A runner start that is none of the three bases marks nothing. */
  lemma OtherStartsMarkNothing(runners: seq<JsVal>)
    requires forall i :: 0 <= i < |runners| ==> StartBase(runners[i]) !in {Str("1B"), Str("2B"), Str("3B")}
    ensures OccupiedBases(Arr(runners)) == Bases(false, false, false)
  {
  }

  /** The `forEach` of `renderField`, which sets one flag per runner whose
      `runner && runner.movement && runner.movement.start` holds. */
  method RenderField(currentPlay: JsVal) returns (bases: Bases)
    ensures bases == OccupiedBases(Runners(currentPlay))
  {
    var first, second, third := false, false, false;
    var runners := Runners(currentPlay);
    if IsArray(runners) {
      var items := runners.items;
      var i := 0;
      while i < |items|
        invariant 0 <= i <= |items|
        invariant first == SomeRunnerOn(items[..i], "1B")
        invariant second == SomeRunnerOn(items[..i], "2B")
        invariant third == SomeRunnerOn(items[..i], "3B")
      {
        var runner := items[i];
        SomeRunnerOnStep(items, i, "1B");
        SomeRunnerOnStep(items, i, "2B");
        SomeRunnerOnStep(items, i, "3B");
        if Truthy(runner) && Truthy(Get(runner, "movement")) && Truthy(Get(Get(runner, "movement"), "start")) {
          var start := Get(Get(runner, "movement"), "start");
          if StrictEq(start, Str("1B")) {
            first := true;
          } else if StrictEq(start, Str("2B")) {
            second := true;
          } else if StrictEq(start, Str("3B")) {
            third := true;
          }
        } else {
          RunnerOnBasePassesGuard(runner, "1B");
          RunnerOnBasePassesGuard(runner, "2B");
          RunnerOnBasePassesGuard(runner, "3B");
        }
        i := i + 1;
      }
      assert items[..i] == items;
    }
    bases := Bases(first, second, third);
  }

  /** A runner that starts on a base passes the `runner &&
      runner.movement && runner.movement.start` guard. */
  lemma RunnerOnBasePassesGuard(runner: JsVal, base: string)
    requires base != ""
    ensures StartsOn(runner, base) ==>
      Truthy(runner) && Truthy(Get(runner, "movement")) && Truthy(StartBase(runner))
  {
    if StartsOn(runner, base) {
      assert StartBase(runner) == Str(base);
      assert Get(runner, "movement").Obj?;
      assert runner.Obj?;
    }
  }

  lemma SomeRunnerOnStep(items: seq<JsVal>, i: nat, base: string)
    requires i < |items|
    ensures SomeRunnerOn(items[..i + 1], base) <==> SomeRunnerOn(items[..i], base) || StartsOn(items[i], base)
  {
    assert items[..i + 1] == items[..i] + [items[i]];
    if SomeRunnerOn(items[..i + 1], base) && !StartsOn(items[i], base) {
      var k :| 0 <= k < i + 1 && StartsOn(items[..i + 1][k], base);
      assert k < i && items[..i][k] == items[..i + 1][k];
    }
    if SomeRunnerOn(items[..i], base) {
      var k :| 0 <= k < i && StartsOn(items[..i][k], base);
      assert items[..i + 1][k] == items[..i][k];
    }
    if StartsOn(items[i], base) {
      assert items[..i + 1][i] == items[i];
    }
  }

  // ---------------------------------------------------------------------
  // Pitches (renderCurrentAtBat and renderPitchZone)
  // ---------------------------------------------------------------------

  /** The class of a pitch from its lowercased description. */
  function PitchClass(desc: string): (c: string)
    ensures c == "ball" <==> Contains(desc, "ball")
    ensures c == "strike" <==> !Contains(desc, "ball") && Contains(desc, "strike")
    ensures c == "in-play" <==> !Contains(desc, "ball") && !Contains(desc, "strike") && Contains(desc, "play")
    ensures c == "" <==> !Contains(desc, "ball") && !Contains(desc, "strike") && !Contains(desc, "play")
  {
    if Contains(desc, "ball") then "ball"
    else if Contains(desc, "strike") then "strike"
    else if Contains(desc, "play") then "in-play"
    else ""
  }

  /** The description is lowercased first, so the class depends on where
      "ball", "strike" and "play" occur in it up to case, in that order of
      priority. */
  lemma PitchClassIgnoresCase(d: string)
    ensures PitchClass(Lower(d)) == "ball" <==> exists i :: MatchesAt(d, "ball", i)
    ensures PitchClass(Lower(d)) == "strike" <==>
      (forall i :: !MatchesAt(d, "ball", i)) && exists i :: MatchesAt(d, "strike", i)
    ensures PitchClass(Lower(d)) == "in-play" <==>
      (forall i :: !MatchesAt(d, "ball", i)) && (forall i :: !MatchesAt(d, "strike", i))
      && exists i :: MatchesAt(d, "play", i)
  {
    assert Lower("ball") == "ball";
    assert Lower("strike") == "strike";
    assert Lower("play") == "play";
    ContainsIgnoreCaseAt(d, "ball");
    ContainsIgnoreCaseAt(d, "strike");
    ContainsIgnoreCaseAt(d, "play");
  }

  /** `event && event.isPitch`. */
  predicate IsPitch(event: JsVal)
  {
    Truthy(event) && Truthy(Get(event, "isPitch"))
  }

  /** The events `renderPitchZone` considers: none when `playEvents` is
      falsy or not an array, otherwise its truthy-isPitch events in order. */
  function ZonePitches(currentPlay: JsVal): (r: seq<JsVal>)
    ensures forall e :: e in r <==> (Get(currentPlay, "playEvents").Arr? && e in Get(currentPlay, "playEvents").items && IsPitch(e))
  {
    var events := Get(currentPlay, "playEvents");
    if !Truthy(events) then []
    else if IsArray(events) then Filter(events.items, IsPitch)
    else []
  }

  function Coordinate(pitch: JsVal, axis: string): JsVal
  {
    Get(Get(Get(pitch, "pitchData"), "coordinates"), axis)
  }

  /** `pitch.details?.description` (with `pitch.details` truthy, as the
      source tests it). */
  function Description(pitch: JsVal): JsVal
  {
    Get(Get(pitch, "details"), "description")
  }

  /** The mark drawn for one pitch, or None when none is: it has no
      coordinates, a coordinate is not a number, or its description is
      truthy but not a string, so that `toLowerCase` throws and the `catch`
      skips the pitch. */
  function PitchMarkOf(pitch: JsVal): (m: Option<PitchMark>)
    ensures m.Some? <==>
      Coordinate(pitch, "x").Num? && Coordinate(pitch, "y").Num? && (Description(pitch).Str? || !Truthy(Description(pitch)))
    ensures m.Some? ==> Num(m.value.x) == Coordinate(pitch, "x") && Num(m.value.y) == Coordinate(pitch, "y")
    ensures m.Some? ==> m.value.pitchClass == (if Description(pitch).Str? then PitchClass(Lower(Description(pitch).s)) else "")
  {
    var pitchData := Get(pitch, "pitchData");
    var coords := Get(pitchData, "coordinates");
    if !(Truthy(pitchData) && Truthy(coords)) then None
    else
      var x := Get(coords, "x");
      var y := Get(coords, "y");
      if !(x.Num? && y.Num?) then None
      else
        var details := Get(pitch, "details");
        var desc := Get(details, "description");
        var cls: Option<string> :=
          if Truthy(details) && Truthy(desc) then
            (if desc.Str? then Some(PitchClass(Lower(desc.s))) else None)
          else Some("");
        match cls
        case None => None
        case Some(c) =>
          Some(PitchMark(c, x.n, y.n, ToText(Or(desc, Str("Pitch"))), ToText(Or(Get(pitch, "pitchNumber"), Str("")))))
  }

  /** The mark of one pitch as a list: empty when the pitch is not drawn. */
  function MarkOf(p: JsVal): (r: seq<PitchMark>)
  {
    if PitchMarkOf(p).Some? then [PitchMarkOf(p).value] else []
  }

  /** The marks of the pitches that are drawn, in order. */
  function PitchMarks(pitches: seq<JsVal>): (r: seq<PitchMark>)
    ensures |r| <= |pitches|
  {
    if pitches == [] then []
    else
      var n := |pitches| - 1;
      PitchMarks(pitches[..n]) + MarkOf(pitches[n])
  }

  /** Every mark comes from a pitch, and every pitch that can be drawn has
      its mark among them. */
  lemma {:induction false} PitchMarksMembers(pitches: seq<JsVal>)
    ensures forall m :: m in PitchMarks(pitches) ==> exists p :: p in pitches && PitchMarkOf(p) == Some(m)
    ensures forall p :: p in pitches && PitchMarkOf(p).Some? ==> PitchMarkOf(p).value in PitchMarks(pitches)
    decreases |pitches|
  {
    if pitches != [] {
      var n := |pitches| - 1;
      assert pitches == pitches[..n] + [pitches[n]];
      PitchMarksMembers(pitches[..n]);
    }
  }

  /** One more pitch adds its own mark at the end. */
  lemma PitchMarksSnoc(s: seq<JsVal>, p: JsVal)
    ensures PitchMarks(s + [p]) == PitchMarks(s) + MarkOf(p)
  {
    assert (s + [p])[..|s|] == s;
  }

  /** The marks of a longer prefix add the next pitch's mark. */
  lemma PitchMarksPrefix(s: seq<JsVal>, i: nat)
    requires i < |s|
    ensures PitchMarks(s[..i + 1]) == PitchMarks(s[..i]) + MarkOf(s[i])
  {
    assert s[..i + 1] == s[..i] + [s[i]];
    PitchMarksSnoc(s[..i], s[i]);
  }

  /** Drawing is pitch by pitch: the marks of two runs of pitches are the
      marks of the first followed by those of the second. */
  lemma {:induction false} PitchMarksAppend(a: seq<JsVal>, b: seq<JsVal>)
    ensures PitchMarks(a + b) == PitchMarks(a) + PitchMarks(b)
    decreases |b|
  {
    if b == [] {
      assert a + b == a;
    } else {
      var c, x := b[..|b| - 1], b[|b| - 1];
      assert b == c + [x];
      assert a + b == (a + c) + [x];
      PitchMarksSnoc(a + c, x);
      PitchMarksAppend(a, c);
      PitchMarksSnoc(c, x);
      MarksAssociate(PitchMarks(a), PitchMarks(c), MarkOf(x));
    }
  }

  lemma MarksAssociate(p: seq<PitchMark>, q: seq<PitchMark>, r: seq<PitchMark>)
    ensures (p + q) + r == p + (q + r)
  {
  }

  /** One pitch yields its mark, or nothing when it is not drawn. */
  lemma PitchMarksOne(p: JsVal)
    ensures PitchMarks([p]) == MarkOf(p)
  {
    assert [p][..0] == [];
  }

  /** The `forEach` of `renderPitchZone`, appending one element per drawn
      pitch. */
  method RenderPitchZone(currentPlay: JsVal) returns (marks: seq<PitchMark>)
    ensures marks == PitchMarks(ZonePitches(currentPlay))
  {
    marks := [];
    var events := Get(currentPlay, "playEvents");
    if !Truthy(events) {
      return;
    }
    var pitches := if IsArray(events) then Filter(events.items, IsPitch) else [];
    var i := 0;
    while i < |pitches|
      invariant 0 <= i <= |pitches|
      invariant marks == PitchMarks(pitches[..i])
    {
      PitchMarksPrefix(pitches, i);
      var m := PitchMarkOf(pitches[i]);
      if m.Some? {
        marks := marks + [m.value];
      }
      i := i + 1;
    }
    assert pitches[..i] == pitches;
  }

  /** `!matchup || !matchup.batter || !matchup.pitcher` fails. */
  predicate HasMatchup(currentPlay: JsVal)
  {
    var matchup := Get(currentPlay, "matchup");
    Truthy(matchup) && Truthy(Get(matchup, "batter")) && Truthy(Get(matchup, "pitcher"))
  }

  /** What `renderAtBatView` shows for a feed. */
  function Render(feed: JsVal, formatTime: JsVal -> Option<string>, now: string): (s: Screen)
    ensures !Truthy(feed) ==> s == NoGameData
    ensures Truthy(feed) && (!Truthy(Get(feed, "gameData")) || !Truthy(Get(feed, "liveData"))) ==> s == Incomplete
    ensures s.Panel? ==> (s.pitchZone.Some? <==> HasMatchup(CurrentPlay(Get(feed, "liveData"))))
    ensures s.Panel? <==> Truthy(feed) && Truthy(Get(feed, "gameData")) && Truthy(Get(feed, "liveData"))
    ensures s.Panel? ==>
      var gameData, liveData := Get(feed, "gameData"), Get(feed, "liveData");
      var cp := CurrentPlay(liveData);
      s.status == StatusLine(gameData, liveData, formatTime, now)
      && s.score == ScoreLine(gameData, liveData)
      && s.bases == OccupiedBases(Runners(cp))
      && (HasMatchup(cp) ==> s.pitchZone == Some(PitchMarks(ZonePitches(cp))))
  {
    if !Truthy(feed) then NoGameData
    else
      var gameData := Get(feed, "gameData");
      var liveData := Get(feed, "liveData");
      if !Truthy(gameData) || !Truthy(liveData) then Incomplete
      else
        var cp := CurrentPlay(liveData);
        Panel(StatusLine(gameData, liveData, formatTime, now), ScoreLine(gameData, liveData),
              OccupiedBases(Runners(cp)),
              if HasMatchup(cp) then Some(PitchMarks(ZonePitches(cp))) else None)
  }

  /** `a` and `b` are the same one of the three sections. */
  predicate SameSection(a: Block, b: Block)
  {
    (a.GameInfo? && b.GameInfo?) || (a.Field? && b.Field?) || (a.AtBatSection? && b.AtBatSection?)
  }

  /** `container.querySelector` for the section of `b`'s kind: its first
      position, or None when the container has none. */
  function FindSection(blocks: seq<Block>, b: Block): (r: Option<nat>)
    ensures r.Some? ==>
      r.value < |blocks| && SameSection(blocks[r.value], b)
      && forall i :: 0 <= i < r.value ==> !SameSection(blocks[i], b)
    ensures r.None? ==> forall i :: 0 <= i < |blocks| ==> !SameSection(blocks[i], b)
  {
    if blocks == [] then None
    else if SameSection(blocks[0], b) then Some(0)
    else
      match FindSection(blocks[1..], b)
      case None => None
      case Some(i) => Some(i + 1)
  }

  /** A renderer setting its section to `b`: the section found is replaced,
      or `b` is appended when there is none. Every other block stays where
      it was. */
  function PutSection(blocks: seq<Block>, b: Block): (r: seq<Block>)
    requires !b.Message?
    ensures |r| == |blocks| || r == blocks + [b]
    ensures b in r
    ensures forall i :: 0 <= i < |blocks| && !SameSection(blocks[i], b) ==> r[i] == blocks[i]
  {
    match FindSection(blocks, b)
    case Some(i) =>
      assert blocks[i := b][i] == b;
      blocks[i := b]
    case None => blocks + [b]
  }

  /** The container after a view is shown on `before`: a message replaces
      everything; a panel sets the game info, then the field, then the at-bat
      section. With no matchup the at-bat section holds only its message;
      with one, the pitch zone is redrawn, and a no-at-bat message already in
      an existing section stays above it. */
  function Displayed(before: seq<Block>, s: Screen): (r: seq<Block>)
    ensures !s.Panel? ==> r == [Message(s)]
    ensures s.Panel? && s.pitchZone.None? ==> AtBatSection(true, None) in r
    ensures s.Panel? && s.pitchZone.Some? ==>
      AtBatSection(false, s.pitchZone) in r || AtBatSection(true, s.pitchZone) in r
  {
    match s
    case Panel(status, score, bases, zone) =>
      var withInfo := PutSection(before, GameInfo(status, score));
      var withField := PutSection(withInfo, Field(bases));
      var kept := match FindSection(withField, AtBatSection(false, None))
                  case Some(i) => withField[i].noAtBat
                  case None => false;
      PutSection(withField, if zone.None? then AtBatSection(true, None) else AtBatSection(kept, zone))
    case _ => [Message(s)]
  }

  /** A panel never removes a block: messages shown before stay where they
      were, at most the three sections are added, and the rendered game info
      and field are in the container. */
  lemma PanelKeepsMessages(before: seq<Block>, s: Screen)
    requires s.Panel?
    ensures |before| <= |Displayed(before, s)| <= |before| + 3
    ensures forall i :: 0 <= i < |before| && before[i].Message? ==> Displayed(before, s)[i] == before[i]
    ensures GameInfo(s.status, s.score) in Displayed(before, s) && Field(s.bases) in Displayed(before, s)
  {
    var withInfo := PutSection(before, GameInfo(s.status, s.score));
    var withField := PutSection(withInfo, Field(s.bases));
    var r := Displayed(before, s);
    assert |withField| <= |r|;
    var k :| 0 <= k < |withInfo| && withInfo[k] == GameInfo(s.status, s.score);
    assert withField[k] == withInfo[k];
    assert r[k] == withField[k];
    var f :| 0 <= f < |withField| && withField[f] == Field(s.bases);
    assert r[f] == withField[f];
  }

  /** As written, `showLoading` leaves its message in the container and the
      first panel is appended below it, so "Loading..." stays on screen
      above the rendered game. */
  lemma LoadingStaysAbovePanel(s: Screen)
    requires s.Panel?
    ensures Displayed([Message(Loading)], s)[0] == Message(Loading)
    ensures |Displayed([Message(Loading)], s)| == 4
  {
    var info, field := GameInfo(s.status, s.score), Field(s.bases);
    assert FindSection([Message(Loading)], info).None?;
    var withInfo := [Message(Loading)] + [info];
    assert FindSection(withInfo, field).None?;
    var withField := withInfo + [field];
    assert FindSection(withField, AtBatSection(false, None)).None?;
  }

  /** Once the at-bat section holds the no-at-bat message, a later matchup
      does not remove it: the pitch zone is appended below the message. */
  lemma NoAtBatMessageStays(before: seq<Block>, s: Screen)
    requires s.Panel? && s.pitchZone.Some?
    requires FindSection(before, AtBatSection(false, None)).Some?
    requires before[FindSection(before, AtBatSection(false, None)).value].noAtBat
    ensures AtBatSection(true, s.pitchZone) in Displayed(before, s)
  {
    var withInfo := PutSection(before, GameInfo(s.status, s.score));
    var withField := PutSection(withInfo, Field(s.bases));
    var i := FindSection(before, AtBatSection(false, None)).value;
    assert withField[i] == before[i];
    var j := FindSection(withField, AtBatSection(false, None)).value;
    assert j == i;
  }

  /** The container the load evidently intends: a panel replaces the messages
      shown before it, so only the three sections remain. */
  function DisplayedIntended(before: seq<Block>, s: Screen): (r: seq<Block>)
    ensures !s.Panel? ==> r == [Message(s)]
    ensures s.Panel? ==> forall b :: b in r ==> !b.Message?
  {
    if s.Panel? then
      var sections := Sections(before);
      PanelAddsNoMessage(sections, s);
      Displayed(sections, s)
    else [Message(s)]
  }

  /** Setting a section never brings a message into a container. */
  lemma PutSectionAddsNoMessage(blocks: seq<Block>, b: Block)
    requires !b.Message? && forall x :: x in blocks ==> !x.Message?
    ensures forall x :: x in PutSection(blocks, b) ==> !x.Message?
  {
    var r := PutSection(blocks, b);
    forall x | x in r
      ensures !x.Message?
    {
      var i :| 0 <= i < |r| && r[i] == x;
      if i < |blocks| && r[i] != b {
        assert r[i] == blocks[i];
      }
    }
  }

  /** A panel shown on a container without messages leaves none. */
  lemma PanelAddsNoMessage(blocks: seq<Block>, s: Screen)
    requires s.Panel? && forall x :: x in blocks ==> !x.Message?
    ensures forall x :: x in Displayed(blocks, s) ==> !x.Message?
  {
    var withInfo := PutSection(blocks, GameInfo(s.status, s.score));
    PutSectionAddsNoMessage(blocks, GameInfo(s.status, s.score));
    var withField := PutSection(withInfo, Field(s.bases));
    PutSectionAddsNoMessage(withInfo, Field(s.bases));
    var kept := match FindSection(withField, AtBatSection(false, None))
                case Some(i) => withField[i].noAtBat
                case None => false;
    var zone := s.pitchZone;
    PutSectionAddsNoMessage(withField, if zone.None? then AtBatSection(true, None) else AtBatSection(kept, zone));
  }

  /** The blocks of `blocks` that are sections, in order. */
  function Sections(blocks: seq<Block>): (r: seq<Block>)
    ensures forall b :: b in r <==> b in blocks && !b.Message?
  {
    if blocks == [] then []
    else (if blocks[0].Message? then [] else [blocks[0]]) + Sections(blocks[1..])
  }

  /** The status of the feed `setupLiveUpdates` tests. */
  predicate FeedIsLive(feed: JsVal)
  {
    Truthy(feed) && Truthy(Get(feed, "gameData")) && IsLiveState(GameState(Get(feed, "gameData")))
  }

  /** The at-bat panel: the game it shows, the last feed it received, its
      poll (the period of the active `updateInterval`, None when there is
      none) and the blocks its container holds. */
  class AtBat {
    var currentGamePk: Option<int>
    var liveData: JsVal
    var pollMs: Option<int>
    var shown: seq<Block>

    constructor ()
      ensures currentGamePk.None? && liveData == Null && pollMs.None? && shown == []
    {
      currentGamePk := None;
      liveData := Null;
      pollMs := None;
      shown := [];
    }

    /** `fetchAndUpdateAtBatData` with the fetch result: a falsy result
        leaves the stored feed and shows the error in place of everything;
        any other result replaces it and is rendered into the container. */
    method FetchAndUpdate(feed: JsVal, formatTime: JsVal -> Option<string>, now: string)
      modifies this
      ensures currentGamePk == old(currentGamePk) && pollMs == old(pollMs)
      ensures !Truthy(feed) ==> liveData == old(liveData) && shown == [Message(Failed(GameLoadFailed))]
      ensures Truthy(feed) ==> liveData == feed && shown == Displayed(old(shown), Render(feed, formatTime, now))
    {
      if !Truthy(feed) {
        shown := [Message(Failed(GameLoadFailed))];
        return;
      }
      liveData := feed;
      shown := Displayed(shown, Render(liveData, formatTime, now));
    }

    /** `setupLiveUpdates`: clears any poll, then installs the 10-second
        poll only when the stored feed says the game is live. */
    method SetupLiveUpdates()
      modifies this
      ensures currentGamePk == old(currentGamePk) && liveData == old(liveData) && shown == old(shown)
      ensures pollMs == if FeedIsLive(liveData) then Some(AtBatPollMs) else None
    {
      if pollMs.Some? {
        pollMs := None;
      }
      if !Truthy(liveData) || !Truthy(Get(liveData, "gameData")) {
        return;
      }
      var state := GameState(Get(liveData, "gameData"));
      if StrictEq(state, Str("Live")) || StrictEq(state, Str("In Progress")) {
        pollMs := Some(AtBatPollMs);
      }
    }

    /** `loadAtBatData(gamePk)`. When the fetch fails the poll decision is
        taken on the feed kept from before, which may be another game's. */
    method Load(gamePk: int, feed: JsVal, formatTime: JsVal -> Option<string>, now: string)
      modifies this
      ensures currentGamePk == Some(gamePk)
      ensures liveData == if Truthy(feed) then feed else old(liveData)
      ensures pollMs == if FeedIsLive(liveData) then Some(AtBatPollMs) else None
      ensures shown == if Truthy(feed) then Displayed([Message(Loading)], Render(feed, formatTime, now))
                       else [Message(Failed(GameLoadFailed))]
    {
      currentGamePk := Some(gamePk);
      pollMs := None;
      shown := [Message(Loading)];
      FetchAndUpdate(feed, formatTime, now);
      SetupLiveUpdates();
    }

    /** One firing of the poll: a refresh, which never cancels the poll even
        when the new feed says the game is over. */
    method Tick(feed: JsVal, formatTime: JsVal -> Option<string>, now: string)
      modifies this
      ensures currentGamePk == old(currentGamePk) && pollMs == old(pollMs)
      ensures !Truthy(feed) ==> liveData == old(liveData) && shown == [Message(Failed(GameLoadFailed))]
      ensures Truthy(feed) ==> liveData == feed && shown == Displayed(old(shown), Render(feed, formatTime, now))
    {
      FetchAndUpdate(feed, formatTime, now);
    }

    /** `cleanup()`. */
    method Cleanup()
      modifies this
      ensures pollMs.None?
      ensures currentGamePk == old(currentGamePk) && liveData == old(liveData) && shown == old(shown)
    {
      pollMs := None;
    }
  }
}
