/** The Flask server's data layer (MLBAPP/app.py): endpoint normalisation for
    live requests, extraction of one `--- <name> ---` section from the local
    dump file, the read-through section cache with its live/local toggle, the
    team lookup, and the generators that invent a linescore for a game.

    The file contents, `json.loads`, the live HTTP fetch, `get_fallback_data`
    and every `random` call are inputs: `Sources` bundles the first four, and
    random draws are passed as sequences. */
module ServerData {
  import opened Wrappers
  import opened Strings

  /** A decoded JSON value as Python holds it. */
  datatype Json =
    | JNull
    | JBool(b: bool)
    | JNum(n: int)
    | JStr(s: string)
    | JArr(items: seq<Json>)
    | JObj(fields: seq<(string, Json)>)

  /** Python truthiness of a decoded JSON value. */
  predicate PyTruthy(j: Json)
  {
    match j
    case JNull => false
    case JBool(b) => b
    case JNum(n) => n != 0
    case JStr(s) => s != ""
    case JArr(items) => items != []
    case JObj(fields) => fields != []
  }

  /** `d.get(key)` on a decoded object. */
  function ObjGet(fields: seq<(string, Json)>, key: string): Option<Json>
  {
    LastBinding(fields, key)
  }

  /** The oracles the server reads from: the live API (by full URL), the dump
      file (None when it cannot be opened), `json.loads` (None when it raises)
      and `get_fallback_data`, given the section name and, for a boxscore
      name, the schedule it read (None for every other name). */
  datatype Sources = Sources(
    fetch: string -> Option<Json>,
    file: Option<string>,
    parse: string -> Option<Json>,
    fallback: (string, Option<Json>) -> Json)

  const ApiBaseUrl := "https://statsapi.mlb.com"

  // ---------------------------------------------------------------------
  // fetch_live_data: endpoint normalisation
  // ---------------------------------------------------------------------

  /** The API path requested for a section name: names starting with "/api/"
      or "/" are used as they are, anything else gets "/api" in front. */
  function NormaliseEndpoint(endpoint: string): (r: string)
    ensures "/" <= endpoint ==> r == endpoint
    ensures !("/" <= endpoint) ==> r == "/api" + endpoint
    ensures "/" <= r
  {
    if "/api/" <= endpoint then endpoint
    else if !("/" <= endpoint) then "/api" + endpoint
    else endpoint
  }

  lemma {:induction false} NormaliseEndpointIdempotent(endpoint: string)
    ensures NormaliseEndpoint(NormaliseEndpoint(endpoint)) == NormaliseEndpoint(endpoint)
  {
    var r := NormaliseEndpoint(endpoint);
    assert "/" <= r;
  }

  /** Normalisation changes a name exactly when it does not start with "/". */
  lemma NormaliseEndpointUnchangedIff(endpoint: string)
    ensures NormaliseEndpoint(endpoint) == endpoint <==> "/" <= endpoint
  {
    if !("/" <= endpoint) {
      assert |NormaliseEndpoint(endpoint)| == |endpoint| + 4;
    }
  }

  function LiveUrl(endpoint: string): string
  {
    ApiBaseUrl + NormaliseEndpoint(endpoint)
  }

  // ---------------------------------------------------------------------
  // parse_mlb_data_section: finding the section's JSON text
  // ---------------------------------------------------------------------

  function SectionMarker(name: string): string
  {
    "--- " + name + " ---"
  }

  /** For a name containing "/game/": its text up to and including the first
      "/game/" (Python `name.split('/game/')[0] + '/game/'`). */
  function GamePrefix(name: string): (p: string)
    requires Contains(name, "/game/")
    ensures |p| >= 6 && p[|p| - 6..] == "/game/"
    ensures p <= name
    ensures forall i :: 0 <= i < |p| - 6 ==> !OccursAt(name, "/game/", i)
  {
    FindFromZeroIsContains(name, "/game/");
    var k := FindFrom(name, "/game/", 0);
    assert name[k..k + 6] == "/game/";
    name[..k] + "/game/"
  }

  /** Where the section for `name` starts: the first exact marker; failing
      that, for a name with "/game/", the first marker that begins with that
      name's game prefix; otherwise nothing (the caller falls back). */
  function SectionStart(content: string, name: string): (r: Option<nat>)
    ensures Contains(content, SectionMarker(name)) ==>
      r.Some? && OccursAt(content, SectionMarker(name), r.value)
      && forall i :: 0 <= i < r.value ==> !OccursAt(content, SectionMarker(name), i)
    ensures !Contains(content, SectionMarker(name)) && !Contains(name, "/game/") ==> r.None?
    ensures !Contains(content, SectionMarker(name)) && Contains(name, "/game/") ==>
      var m := "--- " + GamePrefix(name);
      (r.Some? <==> Contains(content, m))
      && (r.Some? ==> OccursAt(content, m, r.value)
                      && forall i :: 0 <= i < r.value ==> !OccursAt(content, m, i))
  {
    FindFromZeroIsContains(content, SectionMarker(name));
    var exact := FindFrom(content, SectionMarker(name), 0);
    if exact != -1 then Some(exact)
    else if !Contains(name, "/game/") then None
    else
      var m := "--- " + GamePrefix(name);
      FindFromZeroIsContains(content, m);
      var p := FindFrom(content, m, 0);
      if p == -1 then None else Some(p)
  }

  lemma OccursAtChar(s: string, c: char, i: int)
    ensures OccursAt(s, [c], i) <==> 0 <= i < |s| && s[i] == c
  {
    if 0 <= i < |s| && s[i] == c {
      assert s[i..i + 1] == [c];
    }
  }

  /** Where the JSON text starts: the first "{" at or after `from`, or, only
      when no "{" follows anywhere, the first "[" at or after `from`. */
  function JsonStart(content: string, from: nat): (r: Option<nat>)
    ensures r.Some? ==> from <= r.value < |content| && (content[r.value] == '{' || content[r.value] == '[')
    ensures r.Some? && content[r.value] == '{' ==>
      forall i :: from <= i < r.value ==> content[i] != '{'
    ensures r.Some? && content[r.value] == '[' ==>
      (forall i :: from <= i < |content| ==> content[i] != '{')
      && forall i :: from <= i < r.value ==> content[i] != '['
    ensures r.None? <==> forall i :: from <= i < |content| ==> content[i] != '{' && content[i] != '['
  {
    var b := FindFrom(content, "{", from);
    if b != -1 then
      OccursAtChar(content, '{', b);
      assert forall i :: from <= i < b ==> !OccursAt(content, "{", i);
      assert forall i :: from <= i < b ==> content[i] != '{' by {
        forall i | from <= i < b ensures content[i] != '{' { OccursAtChar(content, '{', i); }
      }
      Some(b)
    else
      assert forall i :: from <= i < |content| ==> content[i] != '{' by {
        forall i | from <= i < |content| ensures content[i] != '{' { OccursAtChar(content, '{', i); }
      }
      var k := FindFrom(content, "[", from);
      if k != -1 then
        OccursAtChar(content, '[', k);
        assert forall i :: from <= i < k ==> content[i] != '[' by {
          forall i | from <= i < k ensures content[i] != '[' { OccursAtChar(content, '[', i); }
        }
        Some(k)
      else
        assert forall i :: from <= i < |content| ==> content[i] != '[' by {
          forall i | from <= i < |content| ensures content[i] != '[' { OccursAtChar(content, '[', i); }
        }
        None
  }

  /** The section's JSON text from its first character: up to (not
      including) the next "\n---", then stripped; with no later marker, the
      rest of the file as it is. */
  function SpanFrom(content: string, start: nat): (r: string)
    requires start <= |content|
    ensures !Contains(content[start..], "\n---") ==> r == content[start..]
    ensures Contains(content[start..], "\n---") ==>
      exists e :: start <= e && OccursAt(content, "\n---", e)
        && (forall i :: start <= i < e ==> !OccursAt(content, "\n---", i))
        && r == Strip(content[start..e])
  {
    var next := FindFrom(content, "\n---", start);
    if next == -1 then
      assert !Contains(content[start..], "\n---") by {
        forall i | 0 <= i <= |content[start..]| - 4
          ensures !OccursAt(content[start..], "\n---", i)
        {
          assert !OccursAt(content, "\n---", start + i);
          assert content[start..][i..i + 4] == content[start + i..start + i + 4];
        }
      }
      content[start..]
    else
      assert OccursAt(content[start..], "\n---", next - start) by {
        assert content[start..][next - start..next - start + 4] == content[next..next + 4];
      }
      Strip(content[start..next])
  }

  /** The JSON text of section `name`, or None when the fallback is used. */
  function SectionText(content: string, name: string): (r: Option<string>)
    ensures r.Some? ==> |r.value| > 0 && (r.value[0] == '{' || r.value[0] == '[')
  {
    match SectionStart(content, name)
    case None => None
    case Some(start) =>
      match JsonStart(content, start)
      case None => None
      case Some(j) =>
        SpanStartsAtBracket(content, j);
        Some(SpanFrom(content, j))
  }

  /** Text from a bracket up to a later marker keeps the bracket when
      stripped. */
  lemma StripBeforeMarker(content: string, j: nat, e: nat)
    requires j < |content| && (content[j] == '{' || content[j] == '[')
    requires j <= e && OccursAt(content, "\n---", e)
    ensures |Strip(content[j..e])| > 0 && Strip(content[j..e])[0] == content[j]
  {
    assert content[e..e + 4][0] == content[e];
    StripKeepsFirst(content[j..e]);
  }

  /** A span that starts with a bracket keeps it at its front: stripping a
      span never removes its first character. */
  lemma SpanStartsAtBracket(content: string, j: nat)
    requires j < |content| && (content[j] == '{' || content[j] == '[')
    ensures |SpanFrom(content, j)| > 0 && SpanFrom(content, j)[0] == content[j]
  {
    var r := SpanFrom(content, j);
    if Contains(content[j..], "\n---") {
      var e :| j <= e && OccursAt(content, "\n---", e)
        && (forall i :: j <= i < e ==> !OccursAt(content, "\n---", i))
        && r == Strip(content[j..e]);
      StripBeforeMarker(content, j, e);
    }
  }

  /** What `parse_mlb_data_section` decodes for `name` on a cache miss, or
      None when it returns the fallback instead (no file, no section, no
      bracket, or `json.loads` raising). */
  function ParsedSection(src: Sources, name: string): Option<Json>
  {
    if src.file.None? then None
    else
      match SectionText(src.file.value, name)
      case None => None
      case Some(text) => src.parse(text)
  }

  /** The section `get_fallback_data` reads team names from for a boxscore. */
  const ScheduleName := "/api/v1/schedule"

  /** Names for which `get_fallback_data` builds a boxscore. */
  predicate IsBoxscore(name: string)
  {
    Contains(name, "/boxscore")
  }

  lemma ScheduleIsNotBoxscore()
    ensures !IsBoxscore(ScheduleName)
  {
    forall i | 0 <= i <= |ScheduleName| - |"/boxscore"|
      ensures !OccursAt(ScheduleName, "/boxscore", i)
    {
      assert ScheduleName[i + 1] != 'b';
      assert ScheduleName[i..i + |"/boxscore"|][1] != "/boxscore"[1];
    }
  }

  /** `parse_mlb_data_section` on a cache: the answer and the cache after it.
      A cached name is answered from the cache; a decoded section is stored
      under its name; otherwise `get_fallback_data` answers, which for a
      boxscore name first looks up the schedule section (and may cache it). */
  function Lookup(cache: map<string, Json>, src: Sources, name: string): (r: (Json, map<string, Json>))
    decreases if IsBoxscore(name) then 1 else 0
    ensures name in cache ==> r == (cache[name], cache)
    ensures cache.Keys <= r.1.Keys <= cache.Keys + {name, ScheduleName}
    ensures forall k :: k in cache ==> r.1[k] == cache[k]
    ensures forall k :: k in r.1 && k !in cache ==> ParsedSection(src, k) == Some(r.1[k])
    ensures name in r.1 ==> r.0 == r.1[name]
    ensures name !in cache && ParsedSection(src, name).Some? ==>
      r == (ParsedSection(src, name).value, cache[name := ParsedSection(src, name).value])
    ensures name !in cache && ParsedSection(src, name).None? && !IsBoxscore(name) ==>
      r == (src.fallback(name, None), cache)
    ensures name !in cache && ParsedSection(src, name).None? && IsBoxscore(name) ==>
      (ScheduleIsNotBoxscore();
       r == (src.fallback(name, Some(Lookup(cache, src, ScheduleName).0)), Lookup(cache, src, ScheduleName).1))
  {
    if name in cache then (cache[name], cache)
    else
      match ParsedSection(src, name)
      case Some(v) => (v, cache[name := v])
      case None =>
        if IsBoxscore(name) then
          ScheduleIsNotBoxscore();
          var (schedule, after) := Lookup(cache, src, ScheduleName);
          (src.fallback(name, Some(schedule)), after)
        else (src.fallback(name, None), cache)
  }

  /** The cache never changes an answer: looking a name up again, on the
      cache the first lookup left, gives the same data. */
  lemma LookupRepeats(cache: map<string, Json>, src: Sources, name: string)
    ensures Lookup(Lookup(cache, src, name).1, src, name).0 == Lookup(cache, src, name).0
  {
    if name !in cache && ParsedSection(src, name).None? && IsBoxscore(name) {
      ScheduleIsNotBoxscore();
      var after := Lookup(cache, src, ScheduleName).1;
      assert Lookup(after, src, ScheduleName).0 == Lookup(cache, src, ScheduleName).0;
    }
  }

  // ---------------------------------------------------------------------
  // The cache, the data-source toggle, get_data and the team route
  // ---------------------------------------------------------------------

  datatype Response = Ok(body: Json) | NotFound(message: string) | ServerError

  /** The module-level globals `USE_LIVE_DATA` and `data_cache`. */
  class DataServer {
    var useLiveData: bool
    var cache: map<string, Json>

    constructor ()
      ensures !useLiveData && cache == map[]
    {
      useLiveData := false;
      cache := map[];
    }

    /** `parse_mlb_data_section`: the answer and the new cache are those of
        `Lookup` on the old cache; a boxscore fallback goes through the
        schedule section first, with that lookup's cache effect. */
    method ParseSection(name: string, src: Sources) returns (d: Json)
      modifies this
      decreases if IsBoxscore(name) then 1 else 0
      ensures useLiveData == old(useLiveData)
      ensures (d, cache) == Lookup(old(cache), src, name)
    {
      if name in cache {
        return cache[name];
      }
      var parsed := ParsedSection(src, name);
      if parsed.Some? {
        d := parsed.value;
        cache := cache[name := d];
      } else if IsBoxscore(name) {
        ScheduleIsNotBoxscore();
        var schedule := ParseSection(ScheduleName, src);
        d := src.fallback(name, Some(schedule));
      } else {
        d := src.fallback(name, None);
      }
    }

    /** `get_data`: in live mode a successful fetch is cached under the name
        and returned (a falsy live value is returned too, through the cache
        it was just stored in); otherwise the local section is used. */
    method GetData(name: string, src: Sources) returns (d: Json)
      modifies this
      ensures useLiveData == old(useLiveData)
      ensures old(useLiveData) && src.fetch(LiveUrl(name)).Some? ==>
        d == src.fetch(LiveUrl(name)).value && cache == old(cache)[name := d]
      ensures !(old(useLiveData) && src.fetch(LiveUrl(name)).Some?) ==>
        (d, cache) == Lookup(old(cache), src, name)
    {
      if useLiveData {
        var live := src.fetch(LiveUrl(name));
        if live.Some? {
          cache := cache[name := live.value];
          if PyTruthy(live.value) {
            return live.value;
          }
        }
      }
      d := ParseSection(name, src);
    }

    /** `toggle_data_source`: flips the source and empties the cache; returns
        the new setting and its message. */
    method ToggleDataSource() returns (live: bool, message: string)
      modifies this
      ensures useLiveData == !old(useLiveData) && live == useLiveData
      ensures cache == map[]
      ensures message == "Using " + SourceLabel(live)
    {
      useLiveData := !useLiveData;
      cache := map[];
      live := useLiveData;
      message := "Using " + SourceLabel(live);
    }

    /** The `team` route: in live mode a truthy answer for the team's own
        endpoint is returned; otherwise the team list is searched. */
    method TeamRoute(teamId: int, src: Sources) returns (resp: Response)
      modifies this
      ensures useLiveData == old(useLiveData)
      ensures resp.Ok? ==> PyTruthy(resp.body)
      ensures resp.NotFound? ==>
        resp.message == "Teams data not found"
        || resp.message == "Team " + IntToString(teamId) + " not found"
    {
      if useLiveData {
        var direct := GetData("/api/v1/teams/" + IntToString(teamId), src);
        if PyTruthy(direct) {
          return Ok(direct);
        }
      }
      var teamsData := GetData("/api/v1/teams", src);
      if !PyTruthy(teamsData) {
        return NotFound("Teams data not found");
      }
      var listed := TeamCandidates(teamsData);
      if listed.None? {
        return ServerError;
      }
      var found := FindTeam(listed.value, teamId);
      match found
      case Found(i) =>
        resp := Ok(listed.value[i]);
        assert PyTruthy(resp.body) by { assert HasId(listed.value[i], teamId); }
      case Missing =>
        resp := NotFound("Team " + IntToString(teamId) + " not found");
      case NotAnObject(_) =>
        resp := ServerError;
    }
  }

  function SourceLabel(live: bool): string
  {
    if live then "LIVE MLB API" else "LOCAL TEST DATA"
  }

  /** What Python's `for team in teams_data.get('teams', [])` iterates over,
      or None when that raises (the data is not a dict, or its 'teams' value
      is not iterable). Iterating a dict gives its keys, a string its
      characters. */
  function TeamCandidates(teamsData: Json): Option<seq<Json>>
  {
    match teamsData
    case JObj(fields) =>
      (match ObjGet(fields, "teams")
      case None => Some([])
      case Some(JArr(items)) => Some(items)
      case Some(JObj(fs)) => Some(seq(|fs|, i requires 0 <= i < |fs| => JStr(fs[i].0)))
      case Some(JStr(s)) => Some(seq(|s|, i requires 0 <= i < |s| => JStr([s[i]])))
      case Some(_) => None)
    case _ => None
  }

  /** Python `team.get('id') == team_id` for a dict entry (True equals 1). */
  predicate HasId(team: Json, teamId: int)
  {
    team.JObj? &&
    match ObjGet(team.fields, "id")
    case Some(JNum(n)) => n == teamId
    case Some(JBool(b)) => (if b then 1 else 0) == teamId
    case _ => false
  }

  datatype TeamSearch = Found(index: nat) | Missing | NotAnObject(index: nat)

  /** The search loop of the `team` route: the first entry whose id matches;
      an entry that is not a dict makes `.get` raise. */
  method FindTeam(teams: seq<Json>, teamId: int) returns (r: TeamSearch)
    ensures r.Found? ==> r.index < |teams| && HasId(teams[r.index], teamId)
    ensures r.NotAnObject? ==> r.index < |teams| && !teams[r.index].JObj?
    ensures r.Found? || r.NotAnObject? ==>
      forall k :: 0 <= k < r.index ==>
        teams[k].JObj? && !HasId(teams[k], teamId)
    ensures r.Missing? ==> forall k :: 0 <= k < |teams| ==> teams[k].JObj? && !HasId(teams[k], teamId)
  {
    var i := 0;
    while i < |teams|
      invariant 0 <= i <= |teams|
      invariant forall k :: 0 <= k < i ==> teams[k].JObj? && !HasId(teams[k], teamId)
    {
      if !teams[i].JObj? {
        return NotAnObject(i);
      }
      if HasId(teams[i], teamId) {
        return Found(i);
      }
      i := i + 1;
    }
    return Missing;
  }

  // ---------------------------------------------------------------------
  // Invented linescores
  // ---------------------------------------------------------------------

  datatype InningLine = InningLine(num: int, away: int, home: int)

  /** The runs one side scored in an inning. */
  function Runs(line: InningLine, away: bool): int
  {
    if away then line.away else line.home
  }

  /** The runs one side scores in each inning. */
  function SideRuns(innings: seq<InningLine>, away: bool): (r: seq<int>)
    ensures |r| == |innings| && forall i :: 0 <= i < |innings| ==> r[i] == Runs(innings[i], away)
  {
    seq(|innings|, i requires 0 <= i < |innings| => Runs(innings[i], away))
  }

  function Sum(xs: seq<int>): int
  {
    if xs == [] then 0 else Sum(xs[..|xs| - 1]) + xs[|xs| - 1]
  }

  /** A side's total over the innings. */
  function Total(innings: seq<InningLine>, away: bool): int
  {
    Sum(SideRuns(innings, away))
  }

  lemma TotalAppend(innings: seq<InningLine>, line: InningLine, away: bool)
    ensures Total(innings + [line], away) == Total(innings, away) + Runs(line, away)
  {
    assert SideRuns(innings + [line], away)[..|innings|] == SideRuns(innings, away);
  }

  function Min(a: int, b: int): int { if a <= b then a else b }

  /** Inning `i` of a generated linescore follows the rule for innings 1 to 8:
      each side takes `min(remaining, draw)` runs. */
  predicate FollowsDraw(innings: seq<InningLine>, i: nat, score: int, draw: int, away: bool)
    requires i < |innings|
  {
    Runs(innings[i], away) == Min(score - Total(innings[..i], away), draw)
  }

  /** The invariant of the generation loop for one side after `n` innings. */
  predicate SideSoFar(innings: seq<InningLine>, score: int, remaining: int,
                      draws: seq<(int, int)>, away: bool)
    requires |innings| <= |draws|
  {
    Total(innings, away) + remaining == score
    && (forall i :: 0 <= i < |innings| && i < 8 ==>
          FollowsDraw(innings, i, score, if away then draws[i].0 else draws[i].1, away))
    && (score >= 0 ==> remaining >= 0 && forall i :: 0 <= i < |innings| ==> Runs(innings[i], away) >= 0)
    && (forall i :: 0 <= i < |innings| && i < 8 ==> Runs(innings[i], away) <= 2)
  }

  /** Appending the next inning's runs, as the loop body computes them,
      keeps one side's invariant. */
  lemma SideSoFarStep(innings: seq<InningLine>, line: InningLine, score: int, remaining: int,
                      draws: seq<(int, int)>, away: bool)
    requires |innings| < |draws| && |innings| < 9
    requires forall i :: 0 <= i < 9 && i < |draws| ==> 0 <= draws[i].0 <= 2 && 0 <= draws[i].1 <= 2
    requires SideSoFar(innings, score, remaining, draws, away)
    requires |innings| < 8 ==> Runs(line, away) == Min(remaining, if away then draws[|innings|].0 else draws[|innings|].1)
    requires |innings| == 8 ==> Runs(line, away) == remaining
    ensures SideSoFar(innings + [line], score, remaining - Runs(line, away), draws, away)
  {
    var next := innings + [line];
    TotalAppend(innings, line, away);
    assert next[..|innings|] == innings;
    forall i | 0 <= i < |next| && i < 8
      ensures FollowsDraw(next, i, score, if away then draws[i].0 else draws[i].1, away)
    {
      if i < |innings| {
        assert next[..i] == innings[..i];
        assert FollowsDraw(innings, i, score, if away then draws[i].0 else draws[i].1, away);
      }
    }
  }

  /** The linescore the `boxscore` route adds when a box score lacks one:
      innings 1 to 8 each take `min(remaining, draw)` runs, inning 9 takes all
      that remain. `draws` are the two `random.randint(0, 2)` values of each
      inning. */
  method GenerateLinescore(awayScore: int, homeScore: int, draws: seq<(int, int)>)
    returns (innings: seq<InningLine>)
    requires |draws| == 9
    requires forall i :: 0 <= i < 9 ==> 0 <= draws[i].0 <= 2 && 0 <= draws[i].1 <= 2
    ensures |innings| == 9
    ensures forall i :: 0 <= i < 9 ==> innings[i].num == i + 1
    ensures Total(innings, true) == awayScore && Total(innings, false) == homeScore
    ensures forall i :: 0 <= i < 8 ==>
      FollowsDraw(innings, i, awayScore, draws[i].0, true) && FollowsDraw(innings, i, homeScore, draws[i].1, false)
    ensures awayScore >= 0 ==> forall i :: 0 <= i < 9 ==> innings[i].away >= 0
    ensures homeScore >= 0 ==> forall i :: 0 <= i < 9 ==> innings[i].home >= 0
    ensures forall i :: 0 <= i < 8 ==> innings[i].away <= 2 && innings[i].home <= 2
  {
    innings := [];
    var remainingAway, remainingHome := awayScore, homeScore;
    var inning := 1;
    while inning < 10
      invariant 1 <= inning <= 10 && |innings| == inning - 1
      invariant forall i :: 0 <= i < |innings| ==> innings[i].num == i + 1
      invariant SideSoFar(innings, awayScore, remainingAway, draws, true)
      invariant SideSoFar(innings, homeScore, remainingHome, draws, false)
      invariant |innings| == 9 ==> remainingAway == 0 && remainingHome == 0
    {
      var awayRuns := Min(remainingAway, draws[inning - 1].0);
      var homeRuns := Min(remainingHome, draws[inning - 1].1);
      if inning == 9 {
        awayRuns := remainingAway;
        homeRuns := remainingHome;
      }
      var line := InningLine(inning, awayRuns, homeRuns);
      SideSoFarStep(innings, line, awayScore, remainingAway, draws, true);
      SideSoFarStep(innings, line, homeScore, remainingHome, draws, false);
      innings := innings + [line];
      remainingAway := remainingAway - awayRuns;
      remainingHome := remainingHome - homeRuns;
      if remainingAway == 0 && remainingHome == 0 && inning >= 9 {
        break;
      }
      inning := inning + 1;
    }
  }

  /** The same inning with one more run for one side. */
  function AddRun(line: InningLine, away: bool): (r: InningLine)
    ensures r.num == line.num && Runs(r, away) == Runs(line, away) + 1 && Runs(r, !away) == Runs(line, !away)
  {
    if away then line.(away := line.away + 1) else line.(home := line.home + 1)
  }

  /** Raising one entry by one raises the total by one. */
  lemma {:induction false} SumIncrement(xs: seq<int>, k: nat)
    requires k < |xs|
    ensures Sum(xs[k := xs[k] + 1]) == Sum(xs) + 1
  {
    var ys := xs[k := xs[k] + 1];
    if k == |xs| - 1 {
      assert ys[..|ys| - 1] == xs[..|xs| - 1];
    } else {
      assert ys[..|ys| - 1] == xs[..|xs| - 1][k := xs[k] + 1];
      SumIncrement(xs[..|xs| - 1], k);
    }
  }

  /** One more run in one inning: that side's total grows by one, the other
      side's runs are untouched. */
  lemma AddRunTotals(innings: seq<InningLine>, p: nat, away: bool)
    requires p < |innings|
    ensures Total(innings[p := AddRun(innings[p], away)], away) == Total(innings, away) + 1
    ensures SideRuns(innings[p := AddRun(innings[p], away)], !away) == SideRuns(innings, !away)
  {
    var xs := SideRuns(innings, away);
    assert SideRuns(innings[p := AddRun(innings[p], away)], away) == xs[p := xs[p] + 1];
    SumIncrement(xs, p);
  }

  /** How many times `x` occurs in `xs`. */
  function Occurrences(xs: seq<nat>, x: nat): nat
  {
    if xs == [] then 0
    else Occurrences(xs[..|xs| - 1], x) + (if xs[|xs| - 1] == x then 1 else 0)
  }

  /** The nine random innings of `get_fallback_data`; `draws` are the two
      `random.choices([0, 1, 2, 3, 4], ...)` values of each inning. */
  method FallbackInnings(draws: seq<(int, int)>) returns (innings: array<InningLine>, awayTotal: int, homeTotal: int)
    requires |draws| == 9
    ensures fresh(innings) && innings.Length == 9
    ensures forall i :: 0 <= i < 9 ==> innings[i] == InningLine(i + 1, draws[i].0, draws[i].1)
    ensures awayTotal == Total(innings[..], true) && homeTotal == Total(innings[..], false)
  {
    innings := new InningLine[9](i => InningLine(0, 0, 0));
    awayTotal, homeTotal := 0, 0;
    var i := 0;
    while i < 9
      invariant 0 <= i <= 9
      invariant forall k :: 0 <= k < i ==> innings[k] == InningLine(k + 1, draws[k].0, draws[k].1)
      invariant awayTotal == Total(innings[..i], true) && homeTotal == Total(innings[..i], false)
    {
      innings[i] := InningLine(i + 1, draws[i].0, draws[i].1);
      assert innings[..i + 1] == innings[..i] + [innings[i]];
      TotalAppend(innings[..i], innings[i], true);
      TotalAppend(innings[..i], innings[i], false);
      awayTotal := awayTotal + draws[i].0;
      homeTotal := homeTotal + draws[i].1;
      i := i + 1;
    }
    assert innings[..9] == innings[..];
  }

  /** One side's top-up in `get_fallback_data`: `diff` times, one run is added
      to the inning that `random.choice` picks (`picks[k]` is the k-th pick). */
  method AddRuns(innings: array<InningLine>, diff: nat, picks: seq<nat>, away: bool)
    requires |picks| >= diff
    requires forall k :: 0 <= k < |picks| ==> picks[k] < innings.Length
    modifies innings
    ensures forall i :: 0 <= i < innings.Length ==>
      innings[i].num == old(innings[i].num)
      && Runs(innings[i], away) == Runs(old(innings[i]), away) + Occurrences(picks[..diff], i)
    ensures SideRuns(innings[..], !away) == SideRuns(old(innings[..]), !away)
    ensures Total(innings[..], away) == Total(old(innings[..]), away) + diff
  {
    var k := 0;
    while k < diff
      invariant 0 <= k <= diff
      invariant forall i :: 0 <= i < innings.Length ==>
        innings[i].num == old(innings[i].num)
        && Runs(innings[i], away) == Runs(old(innings[i]), away) + Occurrences(picks[..k], i)
      invariant SideRuns(innings[..], !away) == SideRuns(old(innings[..]), !away)
      invariant Total(innings[..], away) == Total(old(innings[..]), away) + k
    {
      var p := picks[k];
      AddRunTotals(innings[..], p, away);
      innings[p] := AddRun(innings[p], away);
      assert picks[..k + 1][..k] == picks[..k];
      k := k + 1;
    }
  }

  /** One side's column of random draws. */
  function DrawSide(draws: seq<(int, int)>, away: bool): seq<int>
  {
    seq(|draws|, i requires 0 <= i < |draws| => if away then draws[i].0 else draws[i].1)
  }

  /** Lines 200-228 of `get_fallback_data`: random innings, then, when either
      score is positive, each side whose random total falls short of its
      score gets exactly the missing runs, one at a time. */
  method FallbackLinescore(awayScore: int, homeScore: int, draws: seq<(int, int)>,
                           awayPicks: seq<nat>, homePicks: seq<nat>)
    returns (innings: array<InningLine>)
    requires |draws| == 9
    requires forall k :: 0 <= k < |awayPicks| ==> awayPicks[k] < 9
    requires forall k :: 0 <= k < |homePicks| ==> homePicks[k] < 9
    requires |awayPicks| >= awayScore - Sum(DrawSide(draws, true))
    requires |homePicks| >= homeScore - Sum(DrawSide(draws, false))
    ensures fresh(innings) && innings.Length == 9
    ensures forall i :: 0 <= i < 9 ==> innings[i].num == i + 1
    ensures var adjust := awayScore > 0 || homeScore > 0;
      var drawnAway := Sum(DrawSide(draws, true));
      var drawnHome := Sum(DrawSide(draws, false));
      Total(innings[..], true) == (if adjust && drawnAway < awayScore then awayScore else drawnAway)
      && Total(innings[..], false) == (if adjust && drawnHome < homeScore then homeScore else drawnHome)
    ensures forall i :: 0 <= i < 9 ==> innings[i].away >= draws[i].0 && innings[i].home >= draws[i].1
  {
    var awayTotal, homeTotal;
    innings, awayTotal, homeTotal := FallbackInnings(draws);
    assert SideRuns(innings[..], true) == DrawSide(draws, true);
    assert SideRuns(innings[..], false) == DrawSide(draws, false);
    if awayScore > 0 || homeScore > 0 {
      var diffAway := awayScore - awayTotal;
      var diffHome := homeScore - homeTotal;
      if diffAway > 0 {
        AddRuns(innings, diffAway, awayPicks, true);
      }
      if diffHome > 0 {
        AddRuns(innings, diffHome, homePicks, false);
      }
    }
  }

  /** The abbreviation `get_fallback_data` derives from a schedule team name:
      the first letters of its first three words. */
  function FallbackAbbreviation(name: string): (r: string)
    ensures |r| == Min(3, |Split(name)|)
    ensures forall k :: 0 <= k < |r| ==> |Split(name)[k]| > 0 && r[k] == Split(name)[k][0]
    ensures forall k :: 0 <= k < |r| ==> !IsPySpace(r[k])
  {
    SplitWordsAreWords(name);
    var initials := Initials(Split(name));
    if |initials| <= 3 then initials else initials[..3]
  }

  function Initials(ws: seq<string>): (r: seq<char>)
    requires AllWords(ws)
    ensures |r| == |ws| && forall k :: 0 <= k < |ws| ==> r[k] == ws[k][0]
  {
    seq(|ws|, k requires 0 <= k < |ws| => ws[k][0])
  }
}
