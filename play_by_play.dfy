/** The play-by-play panel of the browser client
    (MLBAPP/static/js/playbyplay.js): its polling handle, the rendering of the
    play list with inning headers, and the per-play classification and
    summaries. The three `fetchAPI` results a load uses (the play-by-play
    data, the live feed for context, and the live feed `setupLiveUpdates`
    reads) are inputs, `null` when a fetch failed. So is the page-level
    `getTeamAbbreviation` the score line calls: no script of the client
    declares it, and reading an undeclared name throws. */
module PlayByPlayView {
  import opened Wrappers
  import opened Strings
  import opened Js
  import opened Display

  /** The polling period of the play-by-play panel. */
  const PlayPollMs := 30000

  const LoadFailed := "Failed to load play-by-play data. Please try again later."

  /** " • ", the separator of the meta line. */
  const Bullet := " \U{2022} "

  /** The separator of a runner's start and end base as the source spells
      it: a U+001F control character followed by "812". */
  const AdvanceMark := " \U{1F}812 "

  /** One play's card: its event class, its pitch events, its runner lines,
      its two summaries and its score line. */
  datatype PlayCard = PlayCard(eventClass: string, pitches: seq<JsVal>, runners: seq<string>,
                               counts: string, context: string, score: string)

  /** `getTeamAbbreviation` as the page provides it: None when no script
      declares it, Some of the function otherwise. */
  type Abbreviator = Option<JsVal -> string>

  /** An inning header, or the card of the play with that index. */
  datatype Entry = Header(text: string) | PlayRow(index: nat)

  datatype PlaysView = Blank | Loading | Failed(message: string) | NoPlays | Shown(entries: seq<Entry>, cards: seq<PlayCard>)

  // ---------------------------------------------------------------------
  // Inning headers
  // ---------------------------------------------------------------------

  /** `(play.about.inning, play.about.halfInning)`, or None when reading it
      throws (the play or its `about` is null or missing). */
  function InningKey(play: JsVal): (r: Option<(JsVal, JsVal)>)
    ensures r.None? <==> Nullish(play) || Nullish(Get(play, "about"))
    ensures r.Some? ==> r.value == (Get(Get(play, "about"), "inning"), Get(Get(play, "about"), "halfInning"))
  {
    match Member(play, "about")
    case None => None
    case Some(about) =>
      match Member(about, "inning")
      case None => None
      case Some(inning) => Some((inning, Get(about, "halfInning")))
  }

  /** The keys of all plays, or None when one of them throws. */
  function InningKeys(plays: seq<JsVal>): Option<seq<(JsVal, JsVal)>>
  {
    ReadAll(plays, InningKey)
  }

  /** A key differs from the one in effect under `!==` on either part. */
  predicate Differs(key: (JsVal, JsVal), current: (JsVal, JsVal))
  {
    !StrictEq(key.0, current.0) || !StrictEq(key.1, current.1)
  }

  /** Play `i` is preceded by a header: its key differs from the previous
      play's, or, for the first play, from the initial `(null, null)`. */
  predicate NeedsHeader(keys: seq<(JsVal, JsVal)>, i: nat)
    requires i < |keys|
  {
    Differs(keys[i], if i == 0 then (Null, Null) else keys[i - 1])
  }

  function HeaderLabel(key: (JsVal, JsVal)): string
  {
    FormatInning(key.1, key.0)
  }

  /** The entries of the first `|keys|` plays: each play's row, preceded by
      its inning header when it needs one. */
  function Grouped(keys: seq<(JsVal, JsVal)>): seq<Entry>
  {
    if keys == [] then []
    else
      var n := |keys| - 1;
      Grouped(keys[..n]) + (if NeedsHeader(keys, n) then [Header(HeaderLabel(keys[n]))] else []) + [PlayRow(n)]
  }

  /** Appending a play to the list appends its header (when its inning
      differs from the last play's) and its row. */
  lemma {:induction false} GroupedAppend(keys: seq<(JsVal, JsVal)>, key: (JsVal, JsVal), current: (JsVal, JsVal))
    requires current == (if keys == [] then (Null, Null) else keys[|keys| - 1])
    ensures Grouped(keys + [key])
      == Grouped(keys) + (if Differs(key, current) then [Header(HeaderLabel(key))] else []) + [PlayRow(|keys|)]
  {
    var ks := keys + [key];
    assert ks[..|keys|] == keys;
    assert ks[|keys|] == key;
    assert |keys| > 0 ==> ks[|keys| - 1] == keys[|keys| - 1];
    assert NeedsHeader(ks, |keys|) == Differs(key, current);
  }

  /** The play indices of the rows among some entries, in order. */
  function RowIndices(entries: seq<Entry>): seq<nat>
  {
    if entries == [] then []
    else RowIndices(entries[..|entries| - 1])
         + (if entries[|entries| - 1].PlayRow? then [entries[|entries| - 1].index] else [])
  }

  lemma {:induction false} RowIndicesAppend(a: seq<Entry>, b: seq<Entry>)
    ensures RowIndices(a + b) == RowIndices(a) + RowIndices(b)
    decreases |b|
  {
    if b != [] {
      assert (a + b)[..|a + b| - 1] == a + b[..|b| - 1];
      RowIndicesAppend(a, b[..|b| - 1]);
    } else {
      assert a + b == a;
    }
  }

  function HeaderCount(entries: seq<Entry>): nat
  {
    if entries == [] then 0
    else HeaderCount(entries[..|entries| - 1]) + (if entries[|entries| - 1].Header? then 1 else 0)
  }

  lemma {:induction false} HeaderCountAppend(a: seq<Entry>, b: seq<Entry>)
    ensures HeaderCount(a + b) == HeaderCount(a) + HeaderCount(b)
    decreases |b|
  {
    if b != [] {
      assert (a + b)[..|a + b| - 1] == a + b[..|b| - 1];
      HeaderCountAppend(a, b[..|b| - 1]);
    } else {
      assert a + b == a;
    }
  }

  /** How many plays get a header. */
  function HeadersNeeded(keys: seq<(JsVal, JsVal)>): nat
  {
    if keys == [] then 0
    else HeadersNeeded(keys[..|keys| - 1]) + (if NeedsHeader(keys, |keys| - 1) then 1 else 0)
  }

  function Range(n: nat): (r: seq<nat>)
    ensures |r| == n && forall i :: 0 <= i < n ==> r[i] == i
  {
    if n == 0 then [] else Range(n - 1) + [n - 1]
  }

  /** Headers add no row: a row after some headers adds just its index. */
  lemma RowIndicesAfterHeaders(g: seq<Entry>, h: seq<Entry>, n: nat)
    requires RowIndices(h) == []
    ensures RowIndices(g + h + [PlayRow(n)]) == RowIndices(g) + [n]
  {
    RowIndicesAppend(g + h, [PlayRow(n)]);
    RowIndicesAppend(g, h);
    assert RowIndices([PlayRow(n)]) == [n];
  }

  /** Every play appears exactly once, in input order. */
  lemma {:induction false} GroupedRows(keys: seq<(JsVal, JsVal)>)
    ensures RowIndices(Grouped(keys)) == Range(|keys|)
  {
    if keys != [] {
      var n := |keys| - 1;
      var h := if NeedsHeader(keys, n) then [Header(HeaderLabel(keys[n]))] else [];
      var g := Grouped(keys[..n]);
      assert Grouped(keys) == g + h + [PlayRow(n)];
      GroupedRows(keys[..n]);
      assert RowIndices(h) == [];
      RowIndicesAfterHeaders(g, h, n);
      assert Range(|keys|) == Range(n) + [n];
    }
  }

  /** There is one header per play that needs one. */
  lemma {:induction false} GroupedHeaders(keys: seq<(JsVal, JsVal)>)
    ensures HeaderCount(Grouped(keys)) == HeadersNeeded(keys)
  {
    if keys != [] {
      var n := |keys| - 1;
      var h := if NeedsHeader(keys, n) then [Header(HeaderLabel(keys[n]))] else [];
      var g := Grouped(keys[..n]);
      assert Grouped(keys) == g + h + [PlayRow(n)];
      GroupedHeaders(keys[..n]);
      HeadersNeededPrefix(keys);
      HeaderCountAppend(g + h, [PlayRow(n)]);
      HeaderCountAppend(g, h);
      assert HeaderCount([PlayRow(n)]) == 0;
      assert HeaderCount(h) == (if NeedsHeader(keys, n) then 1 else 0);
    }
  }

  lemma {:induction false} HeadersNeededPrefix(keys: seq<(JsVal, JsVal)>)
    requires keys != []
    ensures HeadersNeeded(keys) == HeadersNeeded(keys[..|keys| - 1]) + (if NeedsHeader(keys, |keys| - 1) then 1 else 0)
  {
  }

  /** The first play gets a header unless both its inning and its half are
      `null`, which the initial `(null, null)` matches. */
  lemma {:induction false} GroupedStartsWithHeader(keys: seq<(JsVal, JsVal)>)
    requires keys != []
    ensures Grouped(keys)[0].Header? <==> keys[0] != (Null, Null)
    decreases |keys|
  {
    var n := |keys| - 1;
    if n == 0 {
      assert Grouped(keys[..0]) == [];
    } else {
      GroupedStartsWithHeader(keys[..n]);
      assert keys[..n][0] == keys[0];
      var g := Grouped(keys[..n]);
      assert |g| > 0 by { GroupedNonEmpty(keys[..n]); }
      assert Grouped(keys)[0] == g[0];
    }
  }

  lemma {:induction false} GroupedNonEmpty(keys: seq<(JsVal, JsVal)>)
    requires keys != []
    ensures |Grouped(keys)| >= |keys|
    decreases |keys|
  {
    var n := |keys| - 1;
    if n > 0 {
      GroupedNonEmpty(keys[..n]);
    }
  }

  /** A play whose key equals the previous play's gets no header, and a
      change of inning always gets one (primitive keys). */
  lemma NeedsHeaderOnChange(keys: seq<(JsVal, JsVal)>, i: nat)
    requires 0 < i < |keys|
    requires !keys[i].0.Arr? && !keys[i].0.Obj? && !keys[i].1.Arr? && !keys[i].1.Obj?
    ensures NeedsHeader(keys, i) <==> keys[i] != keys[i - 1]
  {
  }

  // ---------------------------------------------------------------------
  // Per-play classification and summaries (createPlayHTML and helpers)
  // ---------------------------------------------------------------------

  const HitEvents: set<JsVal> := {Str("home_run"), Str("triple"), Str("double"), Str("single")}
  const OutEvents: set<JsVal> := {Str("strikeout"), Str("strikeout_double_play"), Str("field_out"),
                                  Str("force_out"), Str("grounded_into_double_play")}
  const WalkEvents: set<JsVal> := {Str("walk"), Str("intent_walk")}

  /** `result.eventType || 'Unknown'`. */
  function EventType(play: JsVal): JsVal
  {
    Or(Get(Or(Get(play, "result"), Obj([])), "eventType"), Str("Unknown"))
  }

  /** The CSS class of a play's card. */
  function EventClass(eventType: JsVal): (c: string)
    ensures c == "hit" <==> eventType in HitEvents
    ensures c == "out" <==> eventType in OutEvents
    ensures c == "walk" <==> eventType in WalkEvents
    ensures c == "run" <==> eventType == Str("run")
    ensures c == "" <==> eventType !in HitEvents + OutEvents + WalkEvents && eventType != Str("run")
  {
    if eventType in HitEvents then "hit"
    else if eventType in OutEvents then "out"
    else if eventType in WalkEvents then "walk"
    else if eventType == Str("run") then "run"
    else ""
  }

  /** A missing or empty event type is 'Unknown', which has no class. */
  lemma EventClassOfMissingType(play: JsVal)
    requires !Truthy(Get(Or(Get(play, "result"), Obj([])), "eventType"))
    ensures EventClass(EventType(play)) == ""
  {
  }

  /** `e && (e.isPitch || e.isPitch === true)`. */
  predicate IsPitchEvent(e: JsVal)
  {
    Truthy(e) && (Truthy(Get(e, "isPitch")) || StrictEq(Get(e, "isPitch"), Bool(true)))
  }

  function PitchesOf(events: seq<JsVal>): (r: seq<JsVal>)
    ensures forall e :: e in r ==> IsPitchEvent(e) && e in events
    ensures forall e :: e in events && IsPitchEvent(e) ==> e in r
  {
    Filter(events, IsPitchEvent)
  }

  /** The live-feed play `getPitchEvents` borrows from: the one with the same
      numeric atBatIndex, else the first with the same inning and half. */
  function LiveCandidate(play: JsVal, livePlays: seq<JsVal>): JsVal
  {
    var ab := Get(Get(play, "about"), "atBatIndex");
    var byIndex := if ab.Num? then Find(livePlays, p => StrictEq(Get(Get(p, "about"), "atBatIndex"), ab)) else Null;
    if Truthy(byIndex) then byIndex
    else Find(livePlays, p => StrictEq(Get(Get(p, "about"), "inning"), Get(Get(play, "about"), "inning"))
                              && StrictEq(Get(Get(p, "about"), "halfInning"), Get(Get(play, "about"), "halfInning")))
  }

  /** `gameData?.liveData?.plays?.allPlays`. */
  function LivePlays(gameData: JsVal): JsVal
  {
    Get(Get(Get(gameData, "liveData"), "plays"), "allPlays")
  }

  /** `gameData?.liveData?.plays?.currentPlay`. */
  function CurrentPlay(gameData: JsVal): JsVal
  {
    Get(Get(Get(gameData, "liveData"), "plays"), "currentPlay")
  }

  /** The play carries its own non-empty `playEvents` array. */
  predicate HasOwnEvents(play: JsVal)
  {
    Get(play, "playEvents").Arr? && |Get(play, "playEvents").items| > 0
  }

  /** `getPitchEvents(play, gameData)`: the pitches of the play's own
      non-empty playEvents array; else of the matching live-feed play; else of
      the live feed's currentPlay; else none. */
  function PitchEvents(play: JsVal, gameData: JsVal): (r: seq<JsVal>)
    ensures forall e :: e in r ==> IsPitchEvent(e)
    ensures HasOwnEvents(play) ==> r == PitchesOf(Get(play, "playEvents").items)
    ensures !HasOwnEvents(play) && !LivePlays(gameData).Arr? && !Get(CurrentPlay(gameData), "playEvents").Arr? ==>
      r == []
  {
    if HasOwnEvents(play) then PitchesOf(Get(play, "playEvents").items)
    else
      var live := LivePlays(gameData);
      var candidate := if live.Arr? then LiveCandidate(play, live.items) else Undefined;
      if live.Arr? && Truthy(candidate) && Get(candidate, "playEvents").Arr? then
        PitchesOf(Get(candidate, "playEvents").items)
      else
        var current := CurrentPlay(gameData);
        if Truthy(current) && Get(current, "playEvents").Arr? then PitchesOf(Get(current, "playEvents").items)
        else []
  }

  /** A play's own non-empty event list makes the live feed irrelevant. */
  lemma OwnPitchEventsWin(play: JsVal, feed1: JsVal, feed2: JsVal)
    requires HasOwnEvents(play)
    ensures PitchEvents(play, feed1) == PitchEvents(play, feed2)
  {
  }

  /** What happened to one runner, in the order `getRunnersDetails` checks. */
  datatype RunnerOutcome = OutAt(base: JsVal) | Advances(from: JsVal, to: JsVal) | Reaches(base: JsVal) | Unchanged

  function RunnerStart(r: JsVal): JsVal
  {
    Or(Or(Get(Get(r, "movement"), "start"), Get(Get(r, "movement"), "originBase")), Null)
  }

  function RunnerEnd(r: JsVal): JsVal
  {
    Or(Or(Get(Get(r, "movement"), "end"), Get(Get(r, "movement"), "endBase")), Null)
  }

  predicate RunnerIsOut(r: JsVal)
  {
    Truthy(Or(Or(Get(Get(r, "movement"), "isOut"), Get(Get(r, "details"), "isOut")), Bool(false)))
  }

  /** Out beats advancing, advancing (start and end) beats reaching (end
      only), and anything else is unchanged. */
  function Outcome(r: JsVal): (o: RunnerOutcome)
    ensures o.OutAt? <==> RunnerIsOut(r)
    ensures o.Advances? <==> !RunnerIsOut(r) && Truthy(RunnerStart(r)) && Truthy(RunnerEnd(r))
    ensures o.Reaches? <==> !RunnerIsOut(r) && !Truthy(RunnerStart(r)) && Truthy(RunnerEnd(r))
    ensures o.Unchanged? <==> !RunnerIsOut(r) && !Truthy(RunnerEnd(r))
    ensures o.OutAt? ==> Truthy(o.base)
    ensures o.Advances? ==> o.from == RunnerStart(r) && o.to == RunnerEnd(r)
    ensures o.Reaches? ==> o.base == RunnerEnd(r)
  {
    var start := RunnerStart(r);
    var end := RunnerEnd(r);
    if RunnerIsOut(r) then OutAt(Or(Or(Get(Get(r, "movement"), "outBase"), end), Str("on the play")))
    else if Truthy(start) && Truthy(end) then Advances(start, end)
    else if Truthy(end) && !Truthy(start) then Reaches(end)
    else Unchanged
  }

  function OutcomeText(o: RunnerOutcome): string
  {
    match o
    case OutAt(base) => "out at " + ToText(base)
    case Advances(from, to) => "advances " + ToText(from) + AdvanceMark + ToText(to)
    case Reaches(base) => "reaches " + ToText(base)
    case Unchanged => "status unchanged"
  }

  /** One runner's line: name, outcome, and the event in parentheses when
      there is one. */
  function RunnerName(r: JsVal): JsVal
  {
    Or(Or(Get(Get(Get(r, "details"), "runner"), "fullName"), Get(Get(r, "runner"), "fullName")), Str("Runner"))
  }

  /** " (event)" when the runner's details name an event. */
  function EventSuffix(r: JsVal): string
  {
    var event := Or(Get(Get(r, "details"), "event"), Get(Get(r, "details"), "eventType"));
    if Truthy(event) then " (" + ToText(event) + ")" else ""
  }

  function RunnerText(r: JsVal): string
  {
    ToText(RunnerName(r)) + " " + OutcomeText(Outcome(r)) + EventSuffix(r)
  }

  /** One line per runner, in order; none when `runners` is not an array. */
  function RunnerTexts(play: JsVal): (r: seq<string>)
    ensures |r| == |Elements(Get(play, "runners"))|
    ensures forall i :: 0 <= i < |r| ==> r[i] == RunnerText(Elements(Get(play, "runners"))[i])
  {
    var runners := Elements(Get(play, "runners"));
    seq(|runners|, i requires 0 <= i < |runners| => RunnerText(runners[i]))
  }

  /** `getRunnersDetails(play)`: pushes one line per runner. */
  method RunnersDetails(play: JsVal) returns (items: seq<string>)
    ensures items == RunnerTexts(play)
  {
    items := PushLines(Elements(Get(play, "runners")), RunnerText);
  }

  /** The outs value of `getCountsSummary`:
      `(count?.outs ?? about?.outsAfterPlay ?? about?.outs) || null`. */
  function OutsShown(play: JsVal): JsVal
  {
    var count := Or(Get(play, "count"), Get(Get(play, "about"), "count"));
    Or(Coalesce(Coalesce(Get(count, "outs"), Get(Get(play, "about"), "outsAfterPlay")), Get(Get(play, "about"), "outs")), Null)
  }

  /** The parts of `getCountsSummary`: "Count: b-s" when balls and strikes
      are both numbers, then "Outs: n" when the outs value is a number. */
  function CountsParts(play: JsVal): (parts: seq<string>)
    ensures var count := Or(Get(play, "count"), Get(Get(play, "about"), "count"));
      var hasCount := Get(count, "balls").Num? && Get(count, "strikes").Num?;
      |parts| == (if hasCount then 1 else 0) + (if OutsShown(play).Num? then 1 else 0)
      && (hasCount ==> parts[0] == "Count: " + IntToString(Get(count, "balls").n) + "-" + IntToString(Get(count, "strikes").n))
      && (OutsShown(play).Num? ==> parts[|parts| - 1] == "Outs: " + IntToString(OutsShown(play).n))
  {
    var count := Or(Get(play, "count"), Get(Get(play, "about"), "count"));
    var balls := Get(count, "balls");
    var strikes := Get(count, "strikes");
    var outs := OutsShown(play);
    (if balls.Num? && strikes.Num? then ["Count: " + ToText(balls) + "-" + ToText(strikes)] else [])
    + (if outs.Num? then ["Outs: " + ToText(outs)] else [])
  }

  /** `getCountsSummary(play)`: empty when neither part is shown, one part
      alone, or the count then the outs around a bullet. */
  function CountsSummary(play: JsVal): (r: string)
    ensures |CountsParts(play)| == 0 ==> r == ""
    ensures |CountsParts(play)| == 1 ==> r == CountsParts(play)[0]
    ensures |CountsParts(play)| == 2 ==> r == CountsParts(play)[0] + Bullet + CountsParts(play)[1]
  {
    JoinUpToTwo(CountsParts(play), Bullet);
    Join(CountsParts(play), Bullet)
  }

  /** Zero outs are never shown: `?? ` keeps the 0 and `|| null` then drops
      it, without looking at outsAfterPlay. */
  lemma ZeroOutsOmitted(play: JsVal)
    requires Get(Or(Get(play, "count"), Get(Get(play, "about"), "count")), "outs") == Num(0)
    ensures !OutsShown(play).Num?
    ensures OutsShown(play) == Null
  {
  }

  /** The runs counted by `getContextSummary`: runsScored, or rbi when
      runsScored is 0 or missing. */
  function RunsCounted(play: JsVal): (v: JsVal)
    ensures Truthy(Get(Get(play, "result"), "runsScored")) ==> v == Get(Get(play, "result"), "runsScored")
    ensures !Truthy(Get(Get(play, "result"), "runsScored")) ==> v == Get(Get(play, "result"), "rbi")
  {
    Or(Get(Get(play, "result"), "runsScored"), Get(Get(play, "result"), "rbi"))
  }

  /** "n run scored" for exactly one run, "n runs scored" otherwise; nothing
      when the count is not a number. */
  function ScoringText(runs: JsVal): (t: string)
    ensures !runs.Num? ==> t == ""
    ensures runs.Num? && runs.n == 1 ==> t == "1 run scored"
    ensures runs.Num? && runs.n != 1 ==> t == IntToString(runs.n) + " runs scored"
    ensures t == "" <==> !runs.Num?
  {
    if runs.Num? then ToText(runs) + " run" + (if StrictEq(runs, Num(1)) then "" else "s") + " scored" else ""
  }

  /** The `abIdx` part of `getContextSummary`: "AB#i" exactly when
      `about.atBatIndex` is a number, absent ("") otherwise. */
  function AtBatLabel(play: JsVal): (t: string)
    ensures t == "" <==> !Get(Get(play, "about"), "atBatIndex").Num?
    ensures t != "" ==> t == "AB#" + IntToString(Get(Get(play, "about"), "atBatIndex").n)
  {
    var ab := Get(Get(play, "about"), "atBatIndex");
    if ab.Num? then "AB#" + ToText(ab) else ""
  }

  /** The `when` part of `getContextSummary`: the inning label exactly when
      both `about.inning` and `about.halfInning` are truthy. */
  function WhenLabel(play: JsVal): (t: string)
    ensures t == "" <==> !(Truthy(Get(Get(play, "about"), "inning")) && Truthy(Get(Get(play, "about"), "halfInning")))
    ensures t != "" ==> t == FormatInning(Get(Get(play, "about"), "halfInning"), Get(Get(play, "about"), "inning"))
  {
    var inning := Get(Get(play, "about"), "inning");
    var half := Get(Get(play, "about"), "halfInning");
    if Truthy(inning) && Truthy(half) then FormatInning(half, inning) else ""
  }

  /** `getContextSummary(play)`: the at-bat label, the inning label and the
      scoring text, the present ones joined by " • ". It is empty exactly
      when none is present, starts with the at-bat label when there is one,
      is the scoring text alone when neither label is present, and holds
      all three in order when all are present. */
  function ContextSummary(play: JsVal): (r: string)
    ensures r == "" <==> AtBatLabel(play) == "" && WhenLabel(play) == "" && !RunsCounted(play).Num?
    ensures AtBatLabel(play) != "" ==> AtBatLabel(play) <= r
    ensures AtBatLabel(play) == "" && WhenLabel(play) == "" ==> r == ScoringText(RunsCounted(play))
    ensures AtBatLabel(play) != "" && WhenLabel(play) != "" && RunsCounted(play).Num? ==>
      r == AtBatLabel(play) + Bullet + WhenLabel(play) + Bullet + ScoringText(RunsCounted(play))
  {
    JoinPresentThree(AtBatLabel(play), WhenLabel(play), ScoringText(RunsCounted(play)), Bullet);
    JoinPresent([AtBatLabel(play), WhenLabel(play), ScoringText(RunsCounted(play))], Bullet)
  }

  // ---------------------------------------------------------------------
  // renderPlayByPlay and the panel's state
  // ---------------------------------------------------------------------

  /** Both `result.awayScore` and `result.homeScore` are numbers. */
  predicate HasScores(play: JsVal)
  {
    Get(Get(play, "result"), "awayScore").Num? && Get(Get(play, "result"), "homeScore").Num?
  }

  /** A team's name in the live feed, or `fallback` when it is falsy. */
  function FeedTeamName(gameData: JsVal, side: string, fallback: string): JsVal
  {
    Or(Get(Get(Get(Get(gameData, "gameData"), "teams"), side), "name"), Str(fallback))
  }

  /** The score line of a play: "Score: <away> a - <home> h" with each name
      abbreviated, "" when the scores are not both numbers, and None when
      the abbreviation helper has to be called but is not declared. */
  function ScoreText(play: JsVal, gameData: JsVal, abbreviate: Abbreviator): (r: Option<string>)
    ensures r.None? <==> HasScores(play) && abbreviate.None?
    ensures !HasScores(play) ==> r == Some("")
    ensures r.Some? && HasScores(play) ==>
      r.value == "Score: " + abbreviate.value(FeedTeamName(gameData, "away", "Away")) + " "
                 + IntToString(Get(Get(play, "result"), "awayScore").n) + " - "
                 + abbreviate.value(FeedTeamName(gameData, "home", "Home")) + " "
                 + IntToString(Get(Get(play, "result"), "homeScore").n)
  {
    if !HasScores(play) then Some("")
    else if abbreviate.None? then None
    else
      var result := Get(play, "result");
      Some("Score: " + abbreviate.value(FeedTeamName(gameData, "away", "Away")) + " "
           + ToText(Get(result, "awayScore")) + " - "
           + abbreviate.value(FeedTeamName(gameData, "home", "Home")) + " "
           + ToText(Get(result, "homeScore")))
  }

  /** The score line under the guard the ternary evidently means
      (`typeof getTeamAbbreviation === 'function'`): with no helper the team
      names are shown as they are, so it never throws; with a helper it is
      the score line as written. */
  function GuardedScoreText(play: JsVal, gameData: JsVal, abbreviate: Abbreviator): (r: string)
    ensures !HasScores(play) ==> r == ""
    ensures abbreviate.Some? ==> ScoreText(play, gameData, abbreviate) == Some(r)
    ensures HasScores(play) && abbreviate.None? ==>
      r == "Score: " + ToText(FeedTeamName(gameData, "away", "Away")) + " "
           + IntToString(Get(Get(play, "result"), "awayScore").n) + " - "
           + ToText(FeedTeamName(gameData, "home", "Home")) + " "
           + IntToString(Get(Get(play, "result"), "homeScore").n)
  {
    match abbreviate
    case Some(_) => ScoreText(play, gameData, abbreviate).value
    case None =>
      ScoreText(play, gameData, Some(ToText)).value
  }

  /** `createPlayHTML`: the play's card, or None when its score line throws. */
  function CardOf(play: JsVal, gameData: JsVal, abbreviate: Abbreviator): (r: Option<PlayCard>)
    ensures r.Some? <==> ScoreText(play, gameData, abbreviate).Some?
    ensures r.Some? ==>
      r.value.eventClass == EventClass(EventType(play))
      && r.value.pitches == PitchEvents(play, gameData) && r.value.runners == RunnerTexts(play)
      && r.value.score == ScoreText(play, gameData, abbreviate).value
      && r.value.counts == CountsSummary(play) && r.value.context == ContextSummary(play)
  {
    match ScoreText(play, gameData, abbreviate)
    case None => None
    case Some(score) =>
      Some(PlayCard(EventClass(EventType(play)), PitchEvents(play, gameData), RunnerTexts(play),
                    CountsSummary(play), ContextSummary(play), score))
  }

  /** The cards of `plays` in order, or None when any of them throws. */
  function Cards(plays: seq<JsVal>, gameData: JsVal, abbreviate: Abbreviator): (r: Option<seq<PlayCard>>)
    ensures r.Some? <==> forall i :: 0 <= i < |plays| ==> !(HasScores(plays[i]) && abbreviate.None?)
    ensures r.Some? ==>
      |r.value| == |plays|
      && forall i :: 0 <= i < |plays| ==> Some(r.value[i]) == CardOf(plays[i], gameData, abbreviate)
  {
    ReadAll(plays, play => CardOf(play, gameData, abbreviate))
  }

  /** `allPlays || []`. */
  function AllPlays(playByPlayData: JsVal): JsVal
  {
    Or(Get(playByPlayData, "allPlays"), Arr([]))
  }

  /** The view `renderPlayByPlay` produces, or None when it throws (a play
      list of non-zero length that is not an array, a play without `about`,
      or a score line calling the undeclared abbreviation helper). */
  function Rendered(playByPlayData: JsVal, gameData: JsVal, abbreviate: Abbreviator): (r: Option<PlaysView>)
    ensures Length(AllPlays(playByPlayData)) == Num(0) ==> r == Some(NoPlays)
    ensures Length(AllPlays(playByPlayData)) != Num(0) && !AllPlays(playByPlayData).Arr? ==> r.None?
    ensures AllPlays(playByPlayData).Arr? && AllPlays(playByPlayData).items != [] ==>
      (r.Some? <==> InningKeys(AllPlays(playByPlayData).items).Some?
                    && Cards(AllPlays(playByPlayData).items, gameData, abbreviate).Some?)
    ensures r.Some? && r.value.Shown? ==>
      AllPlays(playByPlayData).Arr? && |r.value.cards| == |AllPlays(playByPlayData).items|
      && RowIndices(r.value.entries) == Range(|r.value.cards|)
    ensures Length(AllPlays(playByPlayData)) != Num(0) && AllPlays(playByPlayData).Arr? ==>
      r == RowsView(AllPlays(playByPlayData).items, gameData, abbreviate)
    ensures r.Some? && r.value.Shown? ==>
      InningKeys(AllPlays(playByPlayData).items).Some?
      && r.value.entries == Grouped(InningKeys(AllPlays(playByPlayData).items).value)
      && Cards(AllPlays(playByPlayData).items, gameData, abbreviate) == Some(r.value.cards)
  {
    var all := AllPlays(playByPlayData);
    if Length(all) == Num(0) then Some(NoPlays)
    else if !all.Arr? then None
    else RowsView(all.items, gameData, abbreviate)
  }

  /** A play list of non-zero length that is an array is rendered as its
      rows and cards. */
  lemma RenderedOfArray(playByPlayData: JsVal, gameData: JsVal, abbreviate: Abbreviator)
    requires Length(AllPlays(playByPlayData)) != Num(0) && AllPlays(playByPlayData).Arr?
    ensures Rendered(playByPlayData, gameData, abbreviate) == RowsView(AllPlays(playByPlayData).items, gameData, abbreviate)
  {
  }

  /** The rows and cards of a play list: the grouped entries with one card
      per play, or None when a play's key or card throws. */
  function RowsView(plays: seq<JsVal>, gameData: JsVal, abbreviate: Abbreviator): (r: Option<PlaysView>)
    ensures r.Some? <==> InningKeys(plays).Some? && Cards(plays, gameData, abbreviate).Some?
    ensures r.Some? ==>
      r.value.Shown? && |r.value.cards| == |plays| && RowIndices(r.value.entries) == Range(|plays|)
    ensures r.Some? ==>
      r.value.entries == Grouped(InningKeys(plays).value)
      && Cards(plays, gameData, abbreviate) == Some(r.value.cards)
  {
    match InningKeys(plays)
    case None => None
    case Some(keys) =>
      match Cards(plays, gameData, abbreviate)
      case None => None
      case Some(cards) =>
        GroupedRows(keys);
        Some(Shown(Grouped(keys), cards))
  }

  /** As written, with no abbreviation helper declared, one play carrying
      both scores makes every render throw, so the panel keeps showing
      whatever it showed before (the loading state after a load). */
  lemma UndeclaredAbbreviatorKeepsView(playByPlayData: JsVal, gameData: JsVal, i: nat, before: PlaysView)
    requires AllPlays(playByPlayData).Arr? && i < |AllPlays(playByPlayData).items|
    requires HasScores(AllPlays(playByPlayData).items[i])
    ensures Rendered(playByPlayData, gameData, None).GetOr(before) == before
  {
    assert Cards(AllPlays(playByPlayData).items, gameData, None).None?;
  }

  /** The loop of `renderPlayByPlay`: the header and row entries, or None
      when a play's `about` cannot be read. */
  method RenderPlays(plays: seq<JsVal>) returns (r: Option<seq<Entry>>)
    ensures r.Some? <==> InningKeys(plays).Some?
    ensures r.Some? ==> r.value == Grouped(InningKeys(plays).value)
  {
    var entries: seq<Entry> := [];
    var current: (JsVal, JsVal) := (Null, Null);
    var keys: seq<(JsVal, JsVal)> := [];
    var i := 0;
    while i < |plays|
      invariant 0 <= i <= |plays| && |keys| == i
      invariant InningKeys(plays[..i]) == Some(keys)
      invariant current == (if i == 0 then (Null, Null) else keys[i - 1])
      invariant entries == Grouped(keys)
    {
      var key := InningKey(plays[i]);
      InningKeysStep(plays, i);
      if key.None? {
        InningKeysNoneExtends(plays, i + 1);
        return None;
      }
      GroupedAppend(keys, key.value, current);
      var header := if Differs(key.value, current) then [Header(HeaderLabel(key.value))] else [];
      entries := entries + header + [PlayRow(i)];
      current := key.value;
      keys := keys + [key.value];
      i := i + 1;
    }
    assert plays[..i] == plays;
    return Some(entries);
  }

  /** The rows and cards of a non-empty play list: the loop's entries with
      one card per play, or None when either throws. */
  method RenderRows(plays: seq<JsVal>, gameData: JsVal, abbreviate: Abbreviator) returns (r: Option<PlaysView>)
    ensures r == RowsView(plays, gameData, abbreviate)
  {
    var entries := RenderPlays(plays);
    var cards := Cards(plays, gameData, abbreviate);
    if entries.Some? && cards.Some? {
      return Some(Shown(entries.value, cards.value));
    }
    return None;
  }

  /** The body of `renderPlayByPlay`: the no-plays message for a play list
      of length 0, a throw for a non-array list, else the rows and cards. */
  method RenderView(playByPlayData: JsVal, gameData: JsVal, abbreviate: Abbreviator) returns (r: Option<PlaysView>)
    ensures r == Rendered(playByPlayData, gameData, abbreviate)
  {
    var all := AllPlays(playByPlayData);
    if Length(all) == Num(0) {
      return Some(NoPlays);
    }
    if !all.Arr? {
      return None;
    }
    RenderedOfArray(playByPlayData, gameData, abbreviate);
    r := RenderRows(all.items, gameData, abbreviate);
  }

  lemma InningKeysStep(plays: seq<JsVal>, i: nat)
    requires i < |plays|
    ensures InningKeys(plays[..i + 1]) ==
      match InningKeys(plays[..i])
      case None => None
      case Some(ks) =>
        (match InningKey(plays[i])
         case None => None
         case Some(k) => Some(ks + [k]))
  {
    assert plays[..i + 1][..i] == plays[..i];
  }

  lemma {:induction false} InningKeysNoneExtends(plays: seq<JsVal>, m: nat)
    requires m <= |plays| && InningKeys(plays[..m]).None?
    ensures InningKeys(plays).None?
  {
    var i :| 0 <= i < m && InningKey(plays[..m][i]).None?;
    assert plays[..m][i] == plays[i];
  }

  /** The play-by-play panel: the game it shows, its poll (the period of the
      active `updateInterval`, None when there is none) and what it shows. */
  class PlayByPlay {
    var currentGamePk: Option<int>
    var pollMs: Option<int>
    var view: PlaysView

    constructor ()
      ensures currentGamePk.None? && pollMs.None? && view == Blank
    {
      currentGamePk := None;
      pollMs := None;
      view := Blank;
    }

    /** `renderPlayByPlay`: a thrown error leaves the view as it was. */
    method RenderPlayByPlay(playByPlayData: JsVal, gameData: JsVal, abbreviate: Abbreviator)
      modifies this
      ensures currentGamePk == old(currentGamePk) && pollMs == old(pollMs)
      ensures view == Rendered(playByPlayData, gameData, abbreviate).GetOr(old(view))
    {
      var shown := RenderView(playByPlayData, gameData, abbreviate);
      if shown.Some? {
        view := shown.value;
      }
    }

    /** `fetchAndUpdatePlayByPlay` with its two fetch results. */
    method FetchAndUpdate(playByPlayData: JsVal, gameData: JsVal, abbreviate: Abbreviator)
      modifies this
      ensures currentGamePk == old(currentGamePk) && pollMs == old(pollMs)
      ensures !Truthy(playByPlayData) ==> view == Failed(LoadFailed)
      ensures Truthy(playByPlayData) ==> view == Rendered(playByPlayData, gameData, abbreviate).GetOr(old(view))
    {
      if !Truthy(playByPlayData) {
        view := Failed(LoadFailed);
        return;
      }
      RenderPlayByPlay(playByPlayData, gameData, abbreviate);
    }

    /** `setupLiveUpdates`: installs the 30-second poll when the live feed it
        reads says the game is in progress; it never clears a poll itself. */
    method SetupLiveUpdates(statusFeed: JsVal)
      modifies this
      ensures currentGamePk == old(currentGamePk) && view == old(view)
      ensures pollMs == if FeedIsLive(statusFeed) then Some(PlayPollMs) else old(pollMs)
    {
      if FeedIsLive(statusFeed) {
        pollMs := Some(PlayPollMs);
      }
    }

    /** `loadPlayByPlay(gamePk)`: clears the poll, shows the loading state,
        fetches and renders, then sets up polling. */
    method Load(gamePk: int, playByPlayData: JsVal, gameData: JsVal, statusFeed: JsVal, abbreviate: Abbreviator)
      modifies this
      ensures currentGamePk == Some(gamePk)
      ensures pollMs == if FeedIsLive(statusFeed) then Some(PlayPollMs) else None
      ensures !Truthy(playByPlayData) ==> view == Failed(LoadFailed)
      ensures Truthy(playByPlayData) ==> view == Rendered(playByPlayData, gameData, abbreviate).GetOr(Loading)
    {
      currentGamePk := Some(gamePk);
      pollMs := None;
      view := Loading;
      FetchAndUpdate(playByPlayData, gameData, abbreviate);
      SetupLiveUpdates(statusFeed);
    }

    /** One firing of the poll: a refresh that never changes the poll. */
    method Tick(playByPlayData: JsVal, gameData: JsVal, abbreviate: Abbreviator)
      modifies this
      ensures currentGamePk == old(currentGamePk) && pollMs == old(pollMs)
      ensures !Truthy(playByPlayData) ==> view == Failed(LoadFailed)
      ensures Truthy(playByPlayData) ==> view == Rendered(playByPlayData, gameData, abbreviate).GetOr(old(view))
    {
      FetchAndUpdate(playByPlayData, gameData, abbreviate);
    }

    /** `cleanup()`. */
    method Cleanup()
      modifies this
      ensures pollMs.None?
      ensures currentGamePk == old(currentGamePk) && view == old(view)
    {
      pollMs := None;
    }
  }

  /** The condition of `setupLiveUpdates`: a truthy feed whose gameData is
      truthy and whose status is Live or In Progress (a missing status
      throws, and nothing is installed). */
  predicate FeedIsLive(feed: JsVal)
  {
    var gameData := Get(feed, "gameData");
    Truthy(feed) && Truthy(gameData) && !Nullish(Get(gameData, "status"))
    && IsLiveState(Get(Get(gameData, "status"), "abstractGameState"))
  }
}
