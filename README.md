# MLB live game viewer — a verified model of its data and display core

The system shows Major League Baseball games in three places:

- a Flask server (`MLBAPP/app.py`) that answers the browser from a local dump of MLB Stats API responses or from the live API;
- a browser client (`utils.js`, `playbyplay.js`, `atbat.js`, `boxscore.js`) that formats, classifies and polls;
- an Android app whose repository (`MlbRepository.kt`) maps API answers into two Room tables (`Dao.kt`, `Models.kt`).

This project models each of these in Dafny, one module per source file:

| module | file | what it holds |
|---|---|---|
| `ServerData` | `app.py` | endpoint normalisation, section extraction from the dump file, the read-through cache and the data-source toggle (a `DataServer` class whose fields are `USE_LIVE_DATA` and `data_cache`), the two linescore generators over arrays, and the `team` lookup |
| `Display` | `utils.js` | ordinal suffixes with JavaScript's sign-keeping `%`, inning and date formatting, the game-status class and display text |
| `PlayByPlayView` | `playbyplay.js` | inning-header grouping, event classes, pitch-event lookup, runner, count, score and context texts, and the panel's polling state (class `PlayByPlay`) |
| `AtBatView` | `atbat.js` | the status line, base occupancy, pitch classification, the container's message and section blocks, and the panel's feed and polling state (class `AtBat`) |
| `BoxScoreView` | `boxscore.js` | inning cells and abbreviations, batting and pitching row selection, and the panel's load (class `BoxScore`) |
| `StoreModels`, `StoreDao` | `Models.kt`, `Dao.kt` | the `games` and `plays` tables as classes holding row sequences, with REPLACE, INSERT OR IGNORE, per-game delete and ordered queries |
| `Repository` | `MlbRepository.kt` | the live-game filter, the DTO-to-row mapping, and the three refresh operations (class `MlbRepository`) |

Three modules are shared helpers:

- `Js` models the JavaScript values a decoded feed holds, with truthiness, `||`, `??`, `?.` and `===`.
- `Strings` models the string and number routines the three languages use.
- `Wrappers` holds `Option`.

Things the code cannot see become inputs:

- the dump file's text;
- `json.loads`;
- the live fetch;
- the fallback data, which for a boxscore name is given the schedule section the server read;
- the random draws;
- the clock;
- each `fetchAPI` result;
- `getTeamAbbreviation`, which no script declares: it is either absent, and then calling it throws, or a function from a team name to its text.

A JavaScript operation that throws is modelled as `None`, and the model follows what the caller's `try`/`catch` then does.

The browser re-renders every play each time, and the Android store ignores a play whose key it already holds. The code has no incremental reconciliation of plays and no poller that stops itself, so neither is modelled.

## Model

| member | source | states |
|---|---|---|
| `ServerData.NormaliseEndpoint` | MLBAPP/app.py:28-31 | a name starting with "/" (so also one starting with "/api/") is used as it is; any other name gets "/api" in front with no separating slash; the result always starts with "/" |
| `ServerData.NormaliseEndpointIdempotent` | MLBAPP/app.py:28-31 | normalising a normalised name changes nothing |
| `ServerData.NormaliseEndpointUnchangedIff` | MLBAPP/app.py:28-31 | a name is left unchanged exactly when it starts with "/" |
| `ServerData.GamePrefix` | MLBAPP/app.py:85-86 | the text up to and including the first "/game/" of the name: a prefix of the name, ending in "/game/", with no earlier "/game/" |
| `ServerData.SectionStart` | MLBAPP/app.py:76-105 | the first exact "--- name ---" marker; failing that, for a name containing "/game/", the first marker beginning with "--- <prefix>/game/", found exactly when the file contains one; for any other name, nothing |
| `ServerData.JsonStart` | MLBAPP/app.py:108-113 | the first "{" at or after the marker; a "[" only when no "{" follows anywhere, and then the first one; nothing exactly when neither bracket follows |
| `ServerData.SpanFrom` | MLBAPP/app.py:116-120 | the text up to the first "\n---" after the start, stripped; with no later marker, the rest of the file, unstripped |
| `ServerData.SpanStartsAtBracket` | MLBAPP/app.py:108-120 | the span keeps the bracket it starts at: stripping never removes it |
| `ServerData.SectionText` | MLBAPP/app.py:76-120 | a section text that is found is non-empty and starts with "{" or "[" |
| `ServerData.DataServer.constructor` | MLBAPP/app.py:19-22 | local data and an empty cache at start |
| `ServerData.ScheduleIsNotBoxscore` | MLBAPP/app.py:138-154 | the schedule section's name is not a boxscore name, so the fallback reads the schedule without falling back to itself |
| `ServerData.Lookup` | MLBAPP/app.py:67-174 | a cached name is answered from the cache, which stays unchanged; the cache only grows, by at most the name and the schedule section, and keeps its old entries; every entry it gains is a section decoded from the file; when the name ends up cached, the answer is its entry; on a miss whose section decodes, that section is returned and stored under the name; on a miss without one, the fallback answers and is given the schedule lookup's answer for a boxscore name (with that lookup's cache) and nothing for any other name (with the cache unchanged) |
| `ServerData.LookupRepeats` | MLBAPP/app.py:69-70 | looking a name up again on the cache the first lookup left gives the same answer, also for a boxscore fallback that read the schedule |
| `ServerData.DataServer.ParseSection` | MLBAPP/app.py:67-174 | the answer and the new cache are those of `Lookup` on the old cache: a miss whose section is missing falls back, and for a boxscore name the fallback first reads the schedule section through the same cache |
| `ServerData.DataServer.GetData` | MLBAPP/app.py:50-65 | in live mode a successful fetch is cached under the name and returned; otherwise the answer and the cache are those of `Lookup`, as `ParseSection` gives them |
| `ServerData.DataServer.ToggleDataSource` | MLBAPP/app.py:555-572 | the flag is negated, the cache is left empty, and the message names the new source |
| `ServerData.FindTeam` | MLBAPP/app.py:933-937 | the first team entry whose id matches; every entry before it is a dict with another id; a non-dict entry met first makes `.get` raise; no match means every entry is a dict with another id |
| `ServerData.DataServer.TeamRoute` | MLBAPP/app.py:917-942 | a 200 answer carries a truthy body; a 404 carries "Teams data not found" or "Team <id> not found" |
| `ServerData.GenerateLinescore` | MLBAPP/app.py:729-758 | innings 1 to 9 numbered in order; innings 1-8 take `min(remaining, draw)` runs, so at most 2; each side's innings sum to its score; a non-negative score gives no negative inning |
| `ServerData.FallbackInnings` | MLBAPP/app.py:200-212 | nine innings numbered 1..9 holding the drawn runs, with the two totals equal to the sums of the sides' runs |
| `ServerData.AddRuns` | MLBAPP/app.py:220-228 | each inning of the side gains as many runs as times it was picked; the other side is untouched; the side's total grows by exactly `diff` |
| `ServerData.AddRunTotals` | MLBAPP/app.py:223 | one more run in one inning raises that side's total by one and leaves the other side's runs as they were |
| `ServerData.FallbackLinescore` | MLBAPP/app.py:200-228 | when either score is positive, a side whose random total falls short of its score ends with exactly that score; a side at or above it, or both sides when neither score is positive, keep the random total; no inning loses runs |
| `ServerData.FallbackAbbreviation` | MLBAPP/app.py:169-170 | the first letters of the name's first three whitespace-separated words, so at most three characters, none of them whitespace |
| `Strings.SplitWordsAreWords` | MLBAPP/app.py:169 | `str.split()` yields non-empty words without whitespace |
| `Strings.SplitConcat` | MLBAPP/app.py:169 | the words put together are the text with its whitespace removed: splitting loses nothing else |
| `Strings.FindFrom` | MLBAPP/app.py:78 | `str.find`: the lowest position at or after the start where the text occurs, or -1 when it occurs nowhere from there |
| `Strings.FindFromZeroIsContains` | MLBAPP/app.py:84 | `find` succeeds exactly when `in` holds |
| `Strings.StripKeepsFirst` | MLBAPP/app.py:120 | stripping text that starts with a non-space keeps that character first |
| `Display.JsRem` | MLBAPP/static/js/utils.js:28-29 | JavaScript's remainder: it has the sign of the dividend and agrees with `%` on non-negative numbers |
| `Display.OrdinalSuffix` | MLBAPP/static/js/utils.js:27-41 | "st" exactly when n%10 is 1 and n%100 is not 11; "nd" and "rd" likewise for 2/12 and 3/13; "th" exactly in every other case |
| `Display.StringToNumber` | MLBAPP/static/js/utils.js:28 | a string of white space only reads as 0 |
| `Display.StringToNumberOfText` | MLBAPP/static/js/utils.js:28 | a number's decimal text reads back as the number |
| `Display.StringToNumberIgnoresPadding` | MLBAPP/static/js/utils.js:28 | JavaScript white space and line terminators around a string do not change the number it reads as |
| `Display.ToNumber` | MLBAPP/static/js/utils.js:28-29 | a number is itself; a string is read as a number after trimming, with an optional sign or a 0x, 0o or 0b prefix; an array is read through its text; undefined and plain objects are NaN |
| `Display.Ordinal` | MLBAPP/static/js/utils.js:27-41 | the number's decimal text followed by its suffix; a value that converts to NaN gets "th" |
| `Display.OrdinalSuffixLastTwoDigits` | MLBAPP/static/js/utils.js:28-29 | for non-negative numbers the suffix depends only on the last two digits |
| `Display.OrdinalSuffixTeens` | MLBAPP/static/js/utils.js:31-39 | numbers ending in 11, 12 or 13 take "th" |
| `Display.OrdinalSuffixNegative` | MLBAPP/static/js/utils.js:28-40 | every negative number takes "th", because the remainder keeps its sign |
| `Display.FormatInning` | MLBAPP/static/js/utils.js:20-24 | "Top " and the ordinal when the half is strictly equal to 'top'; "Bottom " and the ordinal for any other value |
| `Display.FormatInningTopIff` | MLBAPP/static/js/utils.js:21 | the text starts with "Top " exactly when the half is the string 'top' |
| `Display.TwoDigits` | MLBAPP/static/js/utils.js:8-9 | two decimal digits that read back as the number |
| `Display.FormatDate` | MLBAPP/static/js/utils.js:6-11 | the unpadded year, "-", two digits reading back as month0+1, "-", two digits reading back as the day |
| `Display.StatusClass` | MLBAPP/static/js/utils.js:74-88 | "final", "live", "preview" each exactly for its states; "" exactly for a falsy status or any other state |
| `Display.IncludesDelayed` | MLBAPP/static/js/utils.js:62 | a string value is searched for "Delayed"; a value with no `includes` method throws |
| `Display.StatusDisplay` | MLBAPP/static/js/utils.js:54-71 | "" for a falsy status, "Final" for a final game, "Delayed" or "Live" for a live state by its detailedState; it throws only for a live state whose detailedState has no `includes` |
| `Display.StatusClassAgreesWithDisplay` | MLBAPP/static/js/utils.js:54-88 | the class and the text agree: "final" reads "Final", "live" reads "Live" or "Delayed", "preview" reads the formatted start time, and any other truthy status reads its detailedState |
| `PlayByPlayView.InningKey` | MLBAPP/static/js/playbyplay.js:89-90 | a play's (inning, halfInning); reading it throws exactly when the play or its `about` is null or missing |
| `PlayByPlayView.GroupedAppend` | MLBAPP/static/js/playbyplay.js:88-101 | one more play adds its header (when its key differs from the previous one under `!==`) and then its row |
| `PlayByPlayView.GroupedRows` | MLBAPP/static/js/playbyplay.js:84-101 | every play appears exactly once as a row, in input order |
| `PlayByPlayView.GroupedHeaders` | MLBAPP/static/js/playbyplay.js:93-97 | there is one header for each play whose inning or half differs from the previous play's |
| `PlayByPlayView.GroupedStartsWithHeader` | MLBAPP/static/js/playbyplay.js:84-85 | the first play gets a header unless its inning and half are both null, which the initial (null, null) matches |
| `PlayByPlayView.NeedsHeaderOnChange` | MLBAPP/static/js/playbyplay.js:93 | for primitive keys, a play gets a header exactly when its key differs from the previous play's |
| `PlayByPlayView.RenderPlays` | MLBAPP/static/js/playbyplay.js:84-101 | the loop yields the grouped entries of the plays' keys, and fails exactly when some play's `about` cannot be read |
| `PlayByPlayView.EventClass` | MLBAPP/static/js/playbyplay.js:116-128 | "hit", "out" and "walk" exactly for their listed event types, "run" exactly for 'run', and "" for every other value |
| `PlayByPlayView.EventClassOfMissingType` | MLBAPP/static/js/playbyplay.js:116 | a missing or empty eventType becomes 'Unknown', which has no class |
| `PlayByPlayView.PitchesOf` | MLBAPP/static/js/playbyplay.js:190 | the kept events are exactly the truthy events whose `isPitch` is truthy |
| `PlayByPlayView.PitchEvents` | MLBAPP/static/js/playbyplay.js:188-214 | only pitch events; the play's own non-empty playEvents win; with no live plays array and no currentPlay events, the result is empty |
| `PlayByPlayView.OwnPitchEventsWin` | MLBAPP/static/js/playbyplay.js:189-191 | a play with its own non-empty events gets the same pitches whatever the live feed holds |
| `PlayByPlayView.Outcome` | MLBAPP/static/js/playbyplay.js:247-261 | out takes priority over advancing (start and end), advancing over reaching (end only), and anything else is unchanged; each case holds exactly under its condition |
| `PlayByPlayView.RunnerTexts` | MLBAPP/static/js/playbyplay.js:243-267 | one line per runner, in order; none when `runners` is not an array |
| `PlayByPlayView.RunnersDetails` | MLBAPP/static/js/playbyplay.js:243-267 | the `forEach` pushes exactly the runner lines |
| `PlayByPlayView.CountsParts` | MLBAPP/static/js/playbyplay.js:270-283 | "Count: b-s" exactly when balls and strikes are both numbers, then "Outs: n" exactly when the outs value is a number |
| `PlayByPlayView.ZeroOutsOmitted` | MLBAPP/static/js/playbyplay.js:274 | zero outs are never shown: `??` keeps the 0 and the falsy-to-null fallback then drops it, without looking at outsAfterPlay |
| `PlayByPlayView.CountsSummary` | MLBAPP/static/js/playbyplay.js:270-283 | no part gives "", one part stands alone, and two parts are the count then the outs around " • " |
| `Strings.JoinUpToTwo` | MLBAPP/static/js/playbyplay.js:282 | `join` of at most two parts: "", the part, or both around the separator |
| `PlayByPlayView.RunsCounted` | MLBAPP/static/js/playbyplay.js:292 | runsScored when it is truthy, otherwise rbi |
| `PlayByPlayView.ScoringText` | MLBAPP/static/js/playbyplay.js:293 | "1 run scored" for exactly one run, "n runs scored" for any other number, nothing for a non-number |
| `PlayByPlayView.ScoreText` | MLBAPP/static/js/playbyplay.js:139-145 | "" unless both scores are numbers; with both, it throws exactly when no abbreviation helper is declared, and otherwise reads "Score: <away> a - <home> h" with the abbreviated feed names, 'Away' and 'Home' standing in for missing ones |
| `PlayByPlayView.GuardedScoreText` | MLBAPP/static/js/playbyplay.js:142-143 | with the helper feature-tested, the score line never throws: it shows the full names when there is no helper and agrees with `ScoreText` when there is one |
| `PlayByPlayView.AtBatLabel` | MLBAPP/static/js/playbyplay.js:287 | "AB#i" exactly when the at-bat index is a number, otherwise absent |
| `PlayByPlayView.WhenLabel` | MLBAPP/static/js/playbyplay.js:288-290 | the inning label exactly when both inning and half are truthy, otherwise absent |
| `Strings.JoinPresentThree` | MLBAPP/static/js/playbyplay.js:294 | `[a, b, c].filter(Boolean).join(sep)` is empty exactly when all three are, starts with the first part when present, is the third alone when the first two are absent, and is all three in order around the separator when all are present |
| `PlayByPlayView.ContextSummary` | MLBAPP/static/js/playbyplay.js:286-295 | empty exactly when there is no at-bat label, no inning label and no numeric run count; it starts with the at-bat label when there is one; it is the scoring text alone when neither label is present; with all three present it is at-bat label, inning label and scoring text joined by " • " |
| `PlayByPlayView.CardOf` | MLBAPP/static/js/playbyplay.js:106-145 | a play's card exists exactly when its score line does not throw, and carries the play's event class, pitch events, runner lines, counts summary, context summary and score line |
| `PlayByPlayView.Cards` | MLBAPP/static/js/playbyplay.js:88-101 | one card per play, in order, or a throw exactly when some play has both scores and no helper is declared |
| `PlayByPlayView.RowsView` | MLBAPP/static/js/playbyplay.js:84-101 | rows and cards exist exactly when every play's key and card can be read; then the entries are `Grouped` of the plays' inning keys (a header at each key change, then every play once as a row, in order) and the cards are `Cards` of the plays, one per play |
| `PlayByPlayView.RenderRows` | MLBAPP/static/js/playbyplay.js:84-101 | the loop and the cards give exactly those rows and cards |
| `PlayByPlayView.Rendered` | MLBAPP/static/js/playbyplay.js:74-104 | a play list whose length is strictly 0 (also an object with `length: 0`) shows only the no-plays message; any other non-array throws; a non-empty array renders exactly when every key and card can be read, with one card per play and every play once as a row, in order; a shown view's entries are `Grouped` of the plays' inning keys and its cards are `Cards` of the plays |
| `PlayByPlayView.RenderView` | MLBAPP/static/js/playbyplay.js:74-104 | the body of `renderPlayByPlay` computes exactly `Rendered` |
| `PlayByPlayView.UndeclaredAbbreviatorKeepsView` | MLBAPP/static/js/playbyplay.js:142 | as written, with no helper declared, one play with both scores makes the render throw, so the panel keeps what it showed |
| `PlayByPlayView.PlayByPlay.constructor` | MLBAPP/static/js/playbyplay.js:6-10 | no game, no poll, a blank panel |
| `PlayByPlayView.PlayByPlay.RenderPlayByPlay` | MLBAPP/static/js/playbyplay.js:74-104 | the panel shows the rendered view for the given helper; a thrown error leaves it as it was; the game and the poll are untouched |
| `PlayByPlayView.PlayByPlay.FetchAndUpdate` | MLBAPP/static/js/playbyplay.js:35-54 | a falsy fetch shows the error; otherwise the data is rendered with the given helper; the poll is untouched |
| `PlayByPlayView.PlayByPlay.SetupLiveUpdates` | MLBAPP/static/js/playbyplay.js:57-71 | a 30000 ms poll is installed exactly when the feed says Live or In Progress; otherwise the poll is left as it was |
| `PlayByPlayView.PlayByPlay.Load` | MLBAPP/static/js/playbyplay.js:13-32 | the game is recorded; the old poll is cleared, and a new one exists exactly when the feed is live; the view is the fetch's outcome |
| `PlayByPlayView.PlayByPlay.Tick` | MLBAPP/static/js/playbyplay.js:66-68 | a poll refresh never changes the poll |
| `PlayByPlayView.PlayByPlay.Cleanup` | MLBAPP/static/js/playbyplay.js:298-300 | the poll is cleared and nothing else changes |
| `AtBatView.CurrentPlay` | MLBAPP/static/js/atbat.js:119-120 | the current play defaults to `{}`, so it is always truthy |
| `AtBatView.CountValue` | MLBAPP/static/js/atbat.js:130-132 | a count value is truthy or 0 |
| `AtBatView.StatusLine` | MLBAPP/static/js/atbat.js:119-145 | the live status for Live or In Progress, "Final" for a final game, and otherwise the formatted time, or "Scheduled" when formatting throws |
| `AtBatView.LiveStatusOutsPlural` | MLBAPP/static/js/atbat.js:133 | "out" is singular exactly when the outs value is the number 1 |
| `AtBatView.LiveStatusTopIff` | MLBAPP/static/js/atbat.js:125-127 | the line opens with "Top " exactly when the half is 'top' or falsy, since the 'top' default replaces a falsy half |
| `AtBatView.TeamName` | MLBAPP/static/js/atbat.js:148-149 | a missing side takes the default name |
| `AtBatView.SideScore` | MLBAPP/static/js/atbat.js:150-151 | a missing or zero run count reads "0" |
| `AtBatView.ScoreLine` | MLBAPP/static/js/atbat.js:147-155 | the line starts with the away team's name and runs followed by ", " and ends with the home side's runs |
| `AtBatView.RenderField` | MLBAPP/static/js/atbat.js:189-206 | the bases set are exactly those some runner starts on, and none when `runners` is not an array |
| `AtBatView.OtherStartsMarkNothing` | MLBAPP/static/js/atbat.js:193-203 | runners starting anywhere other than 1B, 2B or 3B mark no base |
| `AtBatView.RunnerOnBasePassesGuard` | MLBAPP/static/js/atbat.js:192 | a runner starting on a base passes the `runner && runner.movement && runner.movement.start` guard |
| `AtBatView.PitchClass` | MLBAPP/static/js/atbat.js:352-357 | 'ball' exactly when the description contains "ball"; else 'strike' exactly when it contains "strike"; else 'in-play' exactly when it contains "play"; else "" |
| `AtBatView.PitchClassIgnoresCase` | MLBAPP/static/js/atbat.js:353-357 | 'ball' exactly when "ball" occurs in the description up to case; 'strike' exactly when "ball" does not and "strike" does; 'in-play' exactly when neither does and "play" does |
| `AtBatView.ZonePitches` | MLBAPP/static/js/atbat.js:331-337 | exactly the events with truthy `isPitch`, and none when playEvents is not an array |
| `AtBatView.PitchMarkOf` | MLBAPP/static/js/atbat.js:340-374 | a pitch is drawn exactly when both coordinates are numbers and `toLowerCase` does not throw; it is drawn at its coordinates with the class of its lowercased description |
| `AtBatView.PitchMarks` | MLBAPP/static/js/atbat.js:340-375 | there are no more marks than pitches |
| `AtBatView.PitchMarksMembers` | MLBAPP/static/js/atbat.js:340-375 | every mark comes from some pitch, and every pitch that can be drawn has its mark among them |
| `AtBatView.PitchMarksAppend` | MLBAPP/static/js/atbat.js:340-375 | pitches are drawn one after another: the marks of two runs of pitches are the first run's marks followed by the second's |
| `AtBatView.PitchMarksOne` | MLBAPP/static/js/atbat.js:340-374 | a single pitch gives its own mark, or none when it is not drawn |
| `AtBatView.RenderPitchZone` | MLBAPP/static/js/atbat.js:301-376 | the `forEach` appends exactly the marks of the considered pitches, in order |
| `AtBatView.Render` | MLBAPP/static/js/atbat.js:79-106 | no data shows "no game data"; a missing gameData or liveData shows "incomplete"; otherwise a panel whose status, score line and bases are those of the feed's current play, and which has a pitch zone exactly when the matchup check passes, holding that play's pitch marks |
| `AtBatView.FindSection` | MLBAPP/static/js/atbat.js:111 | `querySelector` finds the first block of the section's kind, or reports that there is none |
| `AtBatView.PutSection` | MLBAPP/static/js/atbat.js:111-116 | a renderer's section is updated where it is, or appended when missing; every other block stays in place |
| `AtBatView.PanelKeepsMessages` | MLBAPP/static/js/atbat.js:110-243 | rendering a panel removes nothing: messages shown before stay where they were, at most three sections are added, and the new game info and field are present |
| `AtBatView.LoadingStaysAbovePanel` | MLBAPP/static/js/atbat.js:20 | as written, the loading message stays first in the container, above the three sections of the first panel |
| `AtBatView.NoAtBatMessageStays` | MLBAPP/static/js/atbat.js:250-315 | once the at-bat section holds its no-data message, a later matchup appends the pitch zone below the message instead of replacing it |
| `AtBatView.Displayed` | MLBAPP/static/js/atbat.js:110-315 | a message replaces the container's content; a panel leaves its at-bat section in the container: the no-at-bat message alone when there is no matchup, the pitch zone otherwise |
| `AtBatView.PanelAddsNoMessage` | MLBAPP/static/js/atbat.js:110-243 | a panel shown on a container without messages leaves none |
| `AtBatView.DisplayedIntended` | MLBAPP/static/js/atbat.js:18-23 | with the panel replacing earlier messages, a rendered panel leaves no message in the container |
| `AtBatView.Sections` | MLBAPP/static/js/atbat.js:110-243 | exactly the section blocks, in order |
| `AtBatView.AtBat.constructor` | MLBAPP/static/js/atbat.js:6-11 | no game, no feed, no poll, an empty container |
| `AtBatView.AtBat.FetchAndUpdate` | MLBAPP/static/js/atbat.js:34-49 | a falsy fetch keeps the stored feed and the error replaces the container's content; otherwise the feed is replaced and the rendered view is applied to the container as it was |
| `AtBatView.AtBat.SetupLiveUpdates` | MLBAPP/static/js/atbat.js:52-76 | any poll is cleared; a 10000 ms poll is installed exactly when the stored feed has gameData whose state is Live or In Progress |
| `AtBatView.AtBat.Load` | MLBAPP/static/js/atbat.js:14-31 | the game is recorded; the poll is decided on the feed stored afterwards, which is the old one when the fetch fails; the view is applied to a container holding only the loading message, or the error replaces it |
| `AtBatView.AtBat.Tick` | MLBAPP/static/js/atbat.js:70-72 | a refresh never cancels the poll, even when the new feed says Final, and applies the new view to the container as it was |
| `AtBatView.AtBat.Cleanup` | MLBAPP/static/js/atbat.js:379-381 | the poll is cleared and nothing else changes |
| `Js.Length` | MLBAPP/static/js/boxscore.js:126 | `length` is the item count of an array, the character count of a string, an object's own `length` property, and `undefined` for anything else |
| `BoxScoreView.LoopCount` | MLBAPP/static/js/boxscore.js:134 | the loop runs as often as the length converts to, and not at all when that is NaN or not positive |
| `BoxScoreView.Indexed` | MLBAPP/static/js/boxscore.js:149-151 | the loop visits the converted length's number of entries: an array's elements, a string's characters, or an array-like object's properties "0", "1", ... |
| `BoxScoreView.InningCell` | MLBAPP/static/js/boxscore.js:149-153 | the side's runs when the side object exists and its runs are defined, else '-'; reading it throws exactly when the inning entry is null or undefined |
| `BoxScoreView.InningCells` | MLBAPP/static/js/boxscore.js:149-153 | one cell per inning entry, in order, and a throw exactly when some entry is nullish |
| `BoxScoreView.RenderInningCells` | MLBAPP/static/js/boxscore.js:149-153 | the loop writes exactly those cells |
| `BoxScoreView.InningCellsNoneExtends` | MLBAPP/static/js/boxscore.js:149-153 | once a prefix throws, the whole row throws |
| `BoxScoreView.Abbreviation` | MLBAPP/static/js/boxscore.js:142-143 | `team.abbreviation`; else the first three characters of the name, upper-cased; else the default; it throws exactly when there is no truthy abbreviation and the truthy name is not a string |
| `BoxScoreView.TotalStat` | MLBAPP/static/js/boxscore.js:156-160 | the stat, or 0 when it is falsy; reading it throws exactly when the side, its teamStats or the group is nullish |
| `BoxScoreView.Line` | MLBAPP/static/js/boxscore.js:142-179 | a side's row shows its `Abbreviation`, exactly that side's inning cells, and its R, H and E totals (`TotalStat` of batting runs, batting hits and fielding errors); it throws exactly when one of those throws |
| `BoxScoreView.InningScores` | MLBAPP/static/js/boxscore.js:112-183 | an innings value whose length is strictly 0 (an empty list, or an object with `length: 0`) shows the no-data message; otherwise the table exists exactly when the away row with default 'AWAY' and the home row with default 'HOME' both exist, its rows are those two `Line`s, and it has one column per visited entry |
| `BoxScoreView.RenderLine` | MLBAPP/static/js/boxscore.js:142-179 | the loop builds exactly that side's row |
| `BoxScoreView.RenderInningScores` | MLBAPP/static/js/boxscore.js:112-183 | the rendering is exactly the specified inning table |
| `BoxScoreView.InningColumnsShowRuns` | MLBAPP/static/js/boxscore.js:151 | an inning whose away side has numeric runs shows them in that column |
| `BoxScoreView.DefaultAbbreviationsShown` | MLBAPP/static/js/boxscore.js:142-143 | a side whose team has neither a truthy abbreviation nor a truthy name is shown as 'AWAY' (away) or 'HOME' (home) |
| `BoxScoreView.InningTableCells` | MLBAPP/static/js/boxscore.js:148-178 | each column of both rows is that inning entry's cell (its runs when defined, else '-'); the away R column is the away `batting.runs`, else 0, and the home E column the home `fielding.errors`, else 0 |
| `BoxScoreView.LineThrows` | MLBAPP/static/js/boxscore.js:142-179 | a row throws exactly when its abbreviation throws, an inning entry is nullish, or the side, its `teamStats`, or its batting or fielding group is nullish |
| `BoxScoreView.InningScoresThrow` | MLBAPP/static/js/boxscore.js:112-183 | with innings present, the table throws exactly when one of the two rows meets one of those conditions |
| `BoxScoreView.OrderedBatters` | MLBAPP/static/js/boxscore.js:266-289 | no more rows than batting-order ids, and every row is a truthy player |
| `BoxScoreView.OrderedBattersFromOrder` | MLBAPP/static/js/boxscore.js:266-270 | every row is the player stored under "ID" and some batting-order id |
| `BoxScoreView.OrderedBattersAllPresent` | MLBAPP/static/js/boxscore.js:266-289 | when every id has a player, there is one row per id, in batting-order order |
| `BoxScoreView.OrderedBattersSkip` | MLBAPP/static/js/boxscore.js:268-270 | an id with no player adds no row |
| `BoxScoreView.RenderOrderedBatters` | MLBAPP/static/js/boxscore.js:266-294 | the `forEach` yields exactly those rows |
| `BoxScoreView.BattingStats` | MLBAPP/static/js/boxscore.js:193-335 | no players shows 'No batting data'; a batting order whose length is strictly 0 (an empty list, or an object with `length: 0`) gives the players that have batting stats, in object order; a non-empty array gives the ordered batters; any other order throws |
| `BoxScoreView.RenderBattingStats` | MLBAPP/static/js/boxscore.js:193-335 | the rendering is exactly the specified batting pane |
| `BoxScoreView.BattersWithoutOrder` | MLBAPP/static/js/boxscore.js:229-234 | with a batting order of length 0, the rows are exactly the players that have batting stats |
| `BoxScoreView.PitcherRows` | MLBAPP/static/js/boxscore.js:356-366 | when some player is a pitcher (position code '1' with pitching stats), the rows are exactly the pitchers; otherwise they are exactly the players with pitching stats; either way they are a `Filter` of the players, so they keep the players' object order |
| `BoxScoreView.PitchingStats` | MLBAPP/static/js/boxscore.js:338-377 | no players shows the no-data message, and so does a team with no player having pitching stats; a listed pane is non-empty and holds only the team's players with pitching stats, as a `Filter` of the players (pitchers, or else everyone with pitching stats), so in the players' object order |
| `BoxScoreView.SummaryOf` | MLBAPP/static/js/boxscore.js:75-109 | each side's name is `team.name`, else 'Away Team' or 'Home Team'; each side's runs are `teamStats.batting.runs`, else 0 |
| `BoxScoreView.Panes` | MLBAPP/static/js/boxscore.js:186-190 | both tables are filled exactly when the batting table does not throw |
| `BoxScoreView.LoadedView` | MLBAPP/static/js/boxscore.js:13-72 | invalid data shows the data error; a throwing inning table shows the load error; a shown box score, as written, has both sides' stats tables empty |
| `BoxScoreView.IntendedView` | MLBAPP/static/js/boxscore.js:13-72 | with the stats containers in place, a shown box score carries each side's rendered panes; it is shown exactly when the inning table and both sides' panes render |
| `BoxScoreView.BattersNeverShownAsWritten` | MLBAPP/static/js/boxscore.js:47-50 | on a valid box score with a batter, the view as written lists nobody while the intended view lists the batter |
| `BoxScoreView.BoxScore.constructor` | MLBAPP/static/js/boxscore.js:6-10 | no game, no data, a blank panel |
| `BoxScoreView.BoxScore.Load` | MLBAPP/static/js/boxscore.js:13-55 | records the game and the fetched data, and shows the view as written |
| `BoxScoreView.BoxScore.LoadIntended` | MLBAPP/static/js/boxscore.js:13-55 | records the game and the data, and shows the intended view |
| `StoreDao.Select` | MLBPlayByPlayApp/app/src/main/java/com/mlb/playbyplay/data/Dao.kt:23 | the rows meeting the condition, and only those |
| `StoreDao.SelectUnique` | MLBPlayByPlayApp/app/src/main/java/com/mlb/playbyplay/data/Dao.kt:29-30 | deleting rows keeps a unique key unique |
| `StoreDao.InsertDesc` | MLBPlayByPlayApp/app/src/main/java/com/mlb/playbyplay/data/Dao.kt:11 | the rows plus one more, as a multiset |
| `StoreDao.InsertDescSorted` | MLBPlayByPlayApp/app/src/main/java/com/mlb/playbyplay/data/Dao.kt:11 | inserting into a descending sequence keeps it descending |
| `StoreDao.SortDesc` | MLBPlayByPlayApp/app/src/main/java/com/mlb/playbyplay/data/Dao.kt:11 | `ORDER BY ... DESC`: a permutation of the rows, in descending order |
| `StoreDao.TextLeqTotal` | MLBPlayByPlayApp/app/src/main/java/com/mlb/playbyplay/data/Dao.kt:11 | any two start times are ordered one way or the other |
| `StoreDao.TextLeqTrans` | MLBPlayByPlayApp/app/src/main/java/com/mlb/playbyplay/data/Dao.kt:11 | the text order is transitive |
| `StoreDao.StartLeqPreorder` | MLBPlayByPlayApp/app/src/main/java/com/mlb/playbyplay/data/Dao.kt:11 | ordering by start time is a total preorder |
| `StoreDao.Upsert` | MLBPlayByPlayApp/app/src/main/java/com/mlb/playbyplay/data/Dao.kt:14-15 | REPLACE: the new row is stored and any old row with its gamePk is gone; the primary key stays unique |
| `StoreDao.UpsertAll` | MLBPlayByPlayApp/app/src/main/java/com/mlb/playbyplay/data/Dao.kt:14-15 | a batch upsert keeps gamePk unique |
| `StoreDao.LastWithKey` | MLBPlayByPlayApp/app/src/main/java/com/mlb/playbyplay/data/Dao.kt:14-15 | the batch's last game with the given gamePk; none exactly when no game has it |
| `StoreDao.UpsertAllRows` | MLBPlayByPlayApp/app/src/main/java/com/mlb/playbyplay/data/Dao.kt:14-15 | after a batch upsert a game is stored exactly when it is the batch's last game of its gamePk, or was stored before and no game of the batch has its gamePk |
| `StoreDao.UpsertNewKey` | MLBPlayByPlayApp/app/src/main/java/com/mlb/playbyplay/data/Dao.kt:14-15 | a game with a new gamePk is appended |
| `StoreDao.UpsertAllDistinct` | MLBPlayByPlayApp/app/src/main/java/com/mlb/playbyplay/data/Dao.kt:14-15 | a batch with distinct gamePks written into an empty table is the table, in batch order |
| `StoreDao.GameTable.constructor` | MLBPlayByPlayApp/app/src/main/java/com/mlb/playbyplay/data/Models.kt:6-13 | an empty, valid games table |
| `StoreDao.GameTable.ObserveGames` | MLBPlayByPlayApp/app/src/main/java/com/mlb/playbyplay/data/Dao.kt:11-12 | every game once, latest start time first |
| `StoreDao.GameTable.UpsertGames` | MLBPlayByPlayApp/app/src/main/java/com/mlb/playbyplay/data/Dao.kt:14-15 | the table becomes the batch upserted into it and stays keyed by gamePk |
| `StoreDao.GameTable.ClearAll` | MLBPlayByPlayApp/app/src/main/java/com/mlb/playbyplay/data/Dao.kt:17-18 | the games table is empty |
| `StoreDao.InsertOne` | MLBPlayByPlayApp/app/src/main/java/com/mlb/playbyplay/data/Dao.kt:26-27 | IGNORE: a play whose playId or id is taken leaves the table unchanged; otherwise it is appended under its id, or under a fresh id when its id is 0; a generated id is not held by any stored row; the constraints hold afterwards |
| `StoreDao.InsertAll` | MLBPlayByPlayApp/app/src/main/java/com/mlb/playbyplay/data/Dao.kt:26-27 | a batch insert keeps playId and id unique and never lowers the id sequence |
| `StoreDao.InsertAllKeepsRows` | MLBPlayByPlayApp/app/src/main/java/com/mlb/playbyplay/data/Dao.kt:26-27 | stored rows stay as they were, first in the table: nothing is updated in place |
| `StoreDao.InsertAllRowsFrom` | MLBPlayByPlayApp/app/src/main/java/com/mlb/playbyplay/data/Dao.kt:26-27 | every stored row is an old row or a play of the batch under some id |
| `StoreDao.AbsentPlayIdStaysAbsent` | MLBPlayByPlayApp/app/src/main/java/com/mlb/playbyplay/data/Dao.kt:26-27 | a playId neither stored nor in the batch is not stored afterwards |
| `StoreDao.KnownPlayIdIgnored` | MLBPlayByPlayApp/app/src/main/java/com/mlb/playbyplay/data/Dao.kt:26-27 | a stored row survives, and remains the only row with its playId |
| `StoreDao.FirstOfBatchStored` | MLBPlayByPlayApp/app/src/main/java/com/mlb/playbyplay/data/Dao.kt:26-27 | within a batch, the first play with a new playId is stored, and the row with that playId is that play under an id above every id handed out before |
| `StoreDao.InsertOneKeepsKey` | MLBPlayByPlayApp/app/src/main/java/com/mlb/playbyplay/data/Dao.kt:26-27 | once a playId is stored, another insert keeps every row and adds none with that playId |
| `StoreDao.FreshBatchAppended` | MLBPlayByPlayApp/app/src/main/java/com/mlb/playbyplay/data/Dao.kt:26-27 | a batch of new plays with distinct playIds and unset ids is appended whole, in batch order |
| `StoreDao.PlayTable.constructor` | MLBPlayByPlayApp/app/src/main/java/com/mlb/playbyplay/data/Models.kt:17-19 | an empty, valid plays table with its id sequence at 0 |
| `StoreDao.PlayTable.ObservePlays` | MLBPlayByPlayApp/app/src/main/java/com/mlb/playbyplay/data/Dao.kt:23-24 | exactly the game's rows, by atBatIndex descending, then id descending |
| `StoreDao.PlayTable.InsertPlays` | MLBPlayByPlayApp/app/src/main/java/com/mlb/playbyplay/data/Dao.kt:26-27 | the table becomes the batch inserted with IGNORE, one play after the other, and stays valid |
| `StoreDao.PlayTable.ClearPlays` | MLBPlayByPlayApp/app/src/main/java/com/mlb/playbyplay/data/Dao.kt:29-30 | exactly the rows of other games remain, in order; the id sequence is not reset |
| `Strings.ContainsIgnoreCaseAt` | MLBPlayByPlayApp/app/src/main/java/com/mlb/playbyplay/repo/MlbRepository.kt:27 | case-insensitive containment is a case-insensitive match at some position |
| `Repository.GamesOf` | MLBPlayByPlayApp/app/src/main/java/com/mlb/playbyplay/repo/MlbRepository.kt:26 | exactly the games of all dates |
| `Repository.GamesOfAppend` | MLBPlayByPlayApp/app/src/main/java/com/mlb/playbyplay/repo/MlbRepository.kt:26 | the games of later dates follow those of earlier dates |
| `Repository.LiveSummaries` | MLBPlayByPlayApp/app/src/main/java/com/mlb/playbyplay/repo/MlbRepository.kt:27-36 | exactly the summaries of the games passing the live filter |
| `Repository.LiveSummariesAppend` | MLBPlayByPlayApp/app/src/main/java/com/mlb/playbyplay/repo/MlbRepository.kt:27-36 | filtering and mapping keep schedule order |
| `Repository.IsLiveGameMatches` | MLBPlayByPlayApp/app/src/main/java/com/mlb/playbyplay/repo/MlbRepository.kt:27 | a game passes the filter exactly when its abstract state equals "Live" up to case, or "Live" or "In Progress" matches somewhere in its detailed state up to case |
| `Repository.LiveStates` | MLBPlayByPlayApp/app/src/main/java/com/mlb/playbyplay/repo/MlbRepository.kt:27 | sample states: "LIVE" passes, "In Progress - Delayed" passes, "Final" fails |
| `Repository.RefreshedGames` | MLBPlayByPlayApp/app/src/main/java/com/mlb/playbyplay/repo/MlbRepository.kt:37-38 | after `clearAll` and `upsertGames`, a row is stored exactly when it is the last live game of its gamePk in the schedule; with distinct gamePks, the table is the live games in schedule order |
| `Repository.FeedPlays` | MLBPlayByPlayApp/app/src/main/java/com/mlb/playbyplay/repo/MlbRepository.kt:43 | a missing liveData or plays gives no plays |
| `Repository.PlayRow` | MLBPlayByPlayApp/app/src/main/java/com/mlb/playbyplay/repo/MlbRepository.kt:44-53 | the requested gamePk, the unset id, the clock reading; a missing inning becomes 0 and a missing half, description or eventType becomes "" |
| `Repository.PlayRows` | MLBPlayByPlayApp/app/src/main/java/com/mlb/playbyplay/repo/MlbRepository.kt:43-54 | one row per feed play, in feed order |
| `Repository.SamePlayIdBatch` | MLBPlayByPlayApp/app/src/main/java/com/mlb/playbyplay/data/Dao.kt:26-27 | a batch whose plays share one playId adds at most one row, and none once that playId is stored |
| `Repository.AsWrittenRefreshAddsAtMostOne` | MLBPlayByPlayApp/app/src/main/java/com/mlb/playbyplay/repo/MlbRepository.kt:46 | as written, a refresh adds at most one row, and none once any refresh has stored one |
| `Repository.AsWrittenSecondPlayLost` | MLBPlayByPlayApp/app/src/main/java/com/mlb/playbyplay/repo/MlbRepository.kt:46 | a two-play feed refreshed into an empty table stores one row |
| `Repository.CorrectedPlayIdDecodes` | MLBPlayByPlayApp/app/src/main/java/com/mlb/playbyplay/repo/MlbRepository.kt:46 | the corrected playId reads back as its at-bat index |
| `Repository.CorrectedPlayIdsDistinct` | MLBPlayByPlayApp/app/src/main/java/com/mlb/playbyplay/repo/MlbRepository.kt:46 | plays with different at-bat indexes get different corrected playIds |
| `Repository.CorrectedRefreshStoresAll` | MLBPlayByPlayApp/app/src/main/java/com/mlb/playbyplay/repo/MlbRepository.kt:41-57 | with the corrected playId, a feed of new, distinct at-bats is stored whole, in feed order |
| `Repository.MlbRepository.constructor` | MLBPlayByPlayApp/app/src/main/java/com/mlb/playbyplay/repo/MlbRepository.kt:15-20 | the repository holds the two tables it is given |
| `Repository.MlbRepository.RefreshGames` | MLBPlayByPlayApp/app/src/main/java/com/mlb/playbyplay/repo/MlbRepository.kt:24-39 | the games table becomes exactly the schedule's live games, last one per gamePk |
| `Repository.MlbRepository.RefreshPlays` | MLBPlayByPlayApp/app/src/main/java/com/mlb/playbyplay/repo/MlbRepository.kt:41-57 | as written, the feed's rows are inserted with IGNORE, and the table grows by at most one row |
| `Repository.MlbRepository.RefreshPlaysIntended` | MLBPlayByPlayApp/app/src/main/java/com/mlb/playbyplay/repo/MlbRepository.kt:41-57 | the feed's rows, with corrected playIds, are inserted with IGNORE |
| `Repository.MlbRepository.ClearGamePlays` | MLBPlayByPlayApp/app/src/main/java/com/mlb/playbyplay/repo/MlbRepository.kt:59-61 | only that game's plays are removed; the id sequence stays |

## Left out

- Network access is not modelled: `requests.get` in `fetch_live_data`, `fetchAPI`, and the Retrofit API. Each fetch result is an input, and the URL text of `fetch_live_data` is only a name for that input.
  - For `fetch_live_data` and `fetchAPI` a failed fetch is `None`/`null`, as both return on failure.
  - The Retrofit failure path is not modelled: `RefreshGames`, `RefreshPlays` and `RefreshPlaysIntended` take a successful answer, and an exception thrown by the API is not part of this model.
- Reading the dump file and `json.loads` are inputs: the file is an optional string and decoding is a function from the span to an optional value.
- The fallback data of `get_fallback_data` is an input, except the parts modelled above: the random innings, the run top-up and the abbreviation.
- `random.seed`, `random.choices`, `random.choice` and `random.randint` become supplied sequences of draws and picks. The draw weights are not modelled.
- `System.currentTimeMillis()` is a clock function given as a parameter.
- `setInterval` and `clearInterval` become the `pollMs` field. Time itself, the asynchronous `.then` in `setupLiveUpdates` and the overlap of concurrent fetches are not modelled.
- Coroutines, `withContext`, Flow emission, the ViewModels and the Worker are not part of this model.
- DOM and HTML are reduced to what each view shows: which message, which rows, which cells, which classes.
  - Markup and styling are not modelled.
  - Neither are the game title of `loadBoxScore`, the team ids and logo URLs of `renderScoreSummary` (its names and runs are `BoxScoreView.SummaryOf`), and the stat columns of each row.
  - Neither are the batter and pitcher panels and the matchup names, description and rbi texts of a play card. The score line is modelled.
- `formatPitchEvent` and `formatZone` are not part of this model: they format text and floats.
- Floating point is not modelled: pitch-coordinate normalisation, `toFixed` and `Math.round`. A pitch coordinate is an integer here.
- `formatTime` and `toLocaleTimeString` are inputs.
- `Date` is given as its year, month and day numbers.
- Case folding covers ASCII letters only, for `toLowerCase`, `toUpperCase` and Kotlin's `ignoreCase`.
- Kotlin's `Long` and `Int` are unbounded; no id or index overflows.
- JavaScript numbers are integers.
- `Display.ToNumber`: a string with a decimal point or an exponent and the string "Infinity" are read as NaN here; JavaScript reads them as a fraction, a number and Infinity. `Display.Ordinal` and `BoxScoreView.LoopCount` therefore see such strings as NaN.
- Decoded objects are taken with distinct keys, in their file order.
- Python's `==` between `True` and `1` is modelled in the team search. Other cross-type comparisons are taken as unequal.
- `MlbRepository.observeGames` and `observePlays` only delegate to the DAO queries `GameTable.ObserveGames` and `PlayTable.ObservePlays`, so they have no member of their own.
- The `index` route restores the data-source flag from the Flask session (MLBAPP/app.py:548-549). Session storage and the `jsonify` plumbing are not modelled.
- `ServerData.DataServer.TeamRoute`: its contract states only the shape of the answer, not which team is returned. The search itself is stated by `ServerData.FindTeam`.
- `BoxScoreView.OrderedBatters`: its own contract bounds the rows. The rows' contents are stated by `OrderedBattersFromOrder` and `OrderedBattersAllPresent`.
- `PlayByPlayView.PitchEvents`: the live-feed branches are stated through `LiveCandidate` and `PitchesOf` in its body. The contract names only the play's own events and the empty case.
- The cache store in `fetch_live_data` (MLBAPP/app.py:44) is modelled as part of `GetData`.
- `StoreDao.InsertDesc`: its contract states only the multiset. Sortedness is stated by `InsertDescSorted`.
- `StoreDao.InsertOne`: an insert that IGNORE skips leaves the id sequence `lastId` as it was. SQLite only promises increasing AUTOINCREMENT ids: the rowid drawn for a skipped row may be used up, so the next stored play can get a larger id than `lastId + 1`. `PlayTable.InsertPlays`, `MlbRepository.RefreshPlays` and `AsWrittenRefreshAddsAtMostOne` inherit this. Which rows are stored, their order and the uniqueness of ids and playIds do not depend on it.

## Findings

| source | as written | input that shows it | evidently intended | confidence | as-written member | corrected member |
|---|---|---|---|---|---|---|
| MLBPlayByPlayApp/app/src/main/java/com/mlb/playbyplay/repo/MlbRepository.kt:46 | `${'$'}` writes a literal `$`, so every play gets the same playId text; with the unique index and INSERT OR IGNORE, only the first play ever inserted is kept | a feed with at-bat indexes 0 and 1, refreshed into an empty table, stores one row | the playId is the at-bat index, the inning and the half, so each at-bat is stored once | not executed | `Repository.AsWrittenSecondPlayLost` | `Repository.CorrectedRefreshStoresAll` |
| MLBAPP/static/js/boxscore.js:47-50 | `showLoading` replaces the container's content, so `renderBoxScore` rebuilds it without the stats containers; `renderBattingStats` and `renderPitchingStats` find none and return; `setupTeamTabs` creates them empty afterwards | a valid box score whose away side has a batter with id 7 and batting order [7] | the stats containers exist when the sides' tables are rendered, so the batter is listed | not executed | `BoxScoreView.BattersNeverShownAsWritten` | `BoxScoreView.BoxScore.LoadIntended` |
| MLBAPP/static/js/playbyplay.js:142-143 | the score line calls `getTeamAbbreviation`, which no script declares, so every play with two numeric scores throws and the `catch` keeps the old panel | a feed whose one play has `result.awayScore` 1 and `result.homeScore` 0, with no helper declared | the score line uses the team's own name when no abbreviation helper exists | not executed | `PlayByPlayView.UndeclaredAbbreviatorKeepsView` | `PlayByPlayView.GuardedScoreText` |
| MLBAPP/static/js/atbat.js:20 | `showLoading` writes the loading message into the container, and the renderers then append their sections below it without removing it | a first load whose fetch returns a feed: the container reads loading message, game info, field, at-bat | the first panel replaces the loading message | not executed | `AtBatView.LoadingStaysAbovePanel` | `AtBatView.DisplayedIntended` |
