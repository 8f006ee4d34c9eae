/** The derivation part of `process_stats_to_display`: the values computed
    from the player profile and from the rows the aggregate queries return. */
module Aggregate {

  import opened Wrappers
  import opened Text
  import opened Locale
  import opened Domain
  import opened Duration
  import opened Penalties
  import opened Selector

  /** What the database answers: the row of the id lookup (None when it
      found no row), and the rows statement `SqlText(q)` returns for a
      database id. */
  datatype Database = Database(idRow: Option<Row>, run: (Query, Cell) -> seq<Row>)

  // Profile-derived values

  /** "sessions_count", the count that divides the play time; absent counts
      as one. */
  function Sessions(p: Profile): int {
    if p.sessionsCount.Some? then p.sessionsCount.value else 1
  }

  /** "total_playtime_seconds"; absent counts as 5400 (an hour and a half). */
  function Playtime(p: Profile): nat {
    if p.totalPlaytimeSeconds.Some? then p.totalPlaytimeSeconds.value else 5400
  }

  /** The average session length in whole seconds: the play time divided by
      the session count, a count below one counting as one. */
  function AverageSession(p: Profile): (avg: nat)
    ensures var d := if Sessions(p) < 1 then 1 else Sessions(p);
      avg * d <= Playtime(p) < (avg + 1) * d
  {
    var d := if Sessions(p) < 1 then 1 else Sessions(p);
    Playtime(p) / d
  }

  /** The value stored for one profile stat. */
  function ProfileValue(s: Stat, p: Profile, lang: Lang, displaySecs: bool): Value
    requires IsProfileStat(s)
  {
    match s
    case FirstTimeHere => VText(DurationText(p.elapsedSeconds, lang, displaySecs))
    case TotSessions => if p.sessionsCount.Some? then VInt(p.sessionsCount.value) else VText("1")
    case CumulatedPlaytime => VText(DurationText(Playtime(p), lang, displaySecs))
    case AvgSessionTime => VText(DurationText(AverageSession(p), lang, displaySecs))
    case TotPunishments => VText(PenaltiesText(CountsOf(p.penaltyCount), lang))
  }

  /** The values stored from the profile: one per enabled profile stat. */
  function ProfileValues(cfg: Config, p: Profile, lang: Lang): (m: map<Stat, Value>)
    ensures forall s :: s in m <==> s in cfg.enabled && IsProfileStat(s)
    ensures forall s :: s in m ==> IsProfileStat(s) && m[s] == ProfileValue(s, p, lang, cfg.displaySecs)
  {
    map s | s in cfg.enabled && IsProfileStat(s) :: ProfileValue(s, p, lang, cfg.displaySecs)
  }

  // Query-derived values

  /** The first column of the first row, as a scalar query's value is read. */
  function ScalarCell(rows: seq<Row>): (r: Result<Cell, Error>)
    ensures r.Ok? <==> |rows| > 0 && |rows[0]| > 0
    ensures r.Ok? ==> r.value == rows[0][0]
  {
    if |rows| == 0 || |rows[0]| == 0 then Err(IndexOutOfRange) else Ok(rows[0][0])
  }

  /** `int(x or 0)`: a falsy cell gives 0, a number its integer part; a
      non-empty text cell is not converted. */
  function IntOf(c: Cell): (r: Result<int, Error>)
    ensures !CellTruthy(c) ==> r == Ok(0)
    ensures c.Int? ==> r == Ok(c.i)
    ensures c.Dec? && !c.zero ==> r == Ok(c.trunc)
    ensures c.Str? && |c.s| > 0 ==> r == Err(NotANumber)
  {
    match c
    case Null => Ok(0)
    case Int(i) => Ok(i)
    case Dec(t, zero, _, _) => if zero then Ok(0) else Ok(t)
    case Str(s) => if |s| == 0 then Ok(0) else Err(NotANumber)
  }

  /** `float(x or 0)`: a falsy cell gives 0.0; an integer prints with ".0". */
  function FloatOf(c: Cell): (r: Result<Value, Error>)
    ensures !CellTruthy(c) ==> r == Ok(VFloat(true, "0.0"))
    ensures r.Ok? ==> r.value.VFloat? && (r.value.zero <==> !CellTruthy(c))
  {
    match c
    case Null => Ok(VFloat(true, "0.0"))
    case Int(i) => if i == 0 then Ok(VFloat(true, "0.0")) else Ok(VFloat(false, IntToString(i) + ".0"))
    case Dec(_, zero, asFloat, _) => if zero then Ok(VFloat(true, "0.0")) else Ok(VFloat(false, asFloat))
    case Str(s) => if |s| == 0 then Ok(VFloat(true, "0.0")) else Err(NotANumber)
  }

  /** One line of the victims or nemesis list: "name : kills (games <games>)". */
  function VictimLine(row: Row, games: string): Result<string, Error> {
    if |row| < 3 then Err(IndexOutOfRange)
    else Ok(CellText(row[0]) + " : " + CellText(row[1]) + " (" + CellText(row[2]) + " " + games + ")")
  }

  /** One line of the weapons list: "weapon (n kills)". */
  function WeaponLine(row: Row): Result<string, Error> {
    if |row| < 2 then Err(IndexOutOfRange)
    else Ok(CellText(row[0]) + " (" + CellText(row[1]) + " kills)")
  }

  /** The line of one top-3 row; `games` is None for the weapons list. */
  function TopLine(row: Row, games: Option<string>): Result<string, Error> {
    if games.Some? then VictimLine(row, games.value) else WeaponLine(row)
  }

  /** The lines of every row, failing on the first row that is too short. */
  function TopLines(rows: seq<Row>, games: Option<string>): (r: Result<seq<string>, Error>)
    ensures r.Ok? <==> forall i :: 0 <= i < |rows| ==> TopLine(rows[i], games).Ok?
    ensures r.Ok? ==> |r.value| == |rows|
    ensures r.Ok? ==> forall i :: 0 <= i < |rows| ==> r.value[i] == TopLine(rows[i], games).value
    decreases |rows|
  {
    if |rows| == 0 then Ok([])
    else
      var line :- TopLine(rows[0], games);
      var rest :- TopLines(rows[1..], games);
      assert forall i :: 1 <= i < |rows| ==> rows[i] == rows[1..][i - 1];
      Ok([line] + rest)
  }

  /** The value one query stat derives from the rows of its query: a float
      for the averages and the ratio, the joined lines for the top-3 lists, an
      integer for the rest.  A scalar stat fails without a first cell; a list
      fails exactly when one of its rows lacks a column its line prints. */
  function Derive(s: Stat, rows: seq<Row>, lang: Lang): (r: Result<Value, Error>)
    requires IsQueryStat(s)
    ensures r.Ok? && IsFloatStat(s) ==> r.value.VFloat?
    ensures r.Ok? && IsTopStat(s) ==> r.value.VText?
    ensures r.Ok? && !IsFloatStat(s) && !IsTopStat(s) ==> r.value.VInt?
    ensures !IsTopStat(s) && ScalarCell(rows).Err? ==> r == Err(IndexOutOfRange)
    ensures IsTopStat(s) ==>
      (r.Ok? <==> forall i :: 0 <= i < |rows| ==> |rows[i]| >= (if s == MostUsedWeapons then 2 else 3))
  {
    match s
    case AvgCombat | AvgOffense | AvgDefense | AvgSupport | KdRatio =>
      var c :- ScalarCell(rows);
      FloatOf(c)
    case MostKilled | MostDeathBy =>
      var lines :- TopLines(rows, Some(Tr(GamesWord, lang)));
      Ok(VText(Join("\n", lines)))
    case MostUsedWeapons =>
      var lines :- TopLines(rows, None);
      Ok(VText(Join("\n", lines)))
    case TotPlayedGames | TotKills | TotTeamkills | TotDeaths | TotDeathsByTk =>
      var c :- ScalarCell(rows);
      var n :- IntOf(c);
      Ok(VInt(n))
  }

  /** The values derived along `order`, added to `acc`; the first missing
      result or failing conversion aborts. */
  function DeriveFrom(order: seq<Stat>, cfg: Config, results: map<Stat, seq<Row>>, lang: Lang, acc: map<Stat, Value>): Result<map<Stat, Value>, Error>
    requires forall s :: s in order ==> IsQueryStat(s)
    decreases |order|
  {
    if |order| == 0 then Ok(acc)
    else
      var s := order[0];
      if s !in cfg.enabled then DeriveFrom(order[1..], cfg, results, lang, acc)
      else if s !in results then Err(MissingKey)
      else
        var v :- Derive(s, results[s], lang);
        DeriveFrom(order[1..], cfg, results, lang, acc[s := v])
  }

  /** The rows of every selected query, run for the database id. */
  function QueryResults(queries: map<Stat, Query>, db: Database, dbId: Cell): map<Stat, seq<Row>> {
    map k | k in queries :: db.run(queries[k], dbId)
  }

  /** What `process_stats_to_display` returns: the profile values, and, when
      queries were selected and the player's database id is truthy, the
      derived query values; a missing id row, an empty id row, a short
      result row or an unconvertible cell is an error. */
  function ProcessResult(cfg: Config, profile: Option<Profile>, queries: map<Stat, Query>, db: Database): Result<map<Stat, Value>, Error> {
    var lang := LangOf(cfg);
    var base := if profile.Some? then ProfileValues(cfg, profile.value, lang) else map[];
    if |queries| == 0 then Ok(base)
    else if db.idRow.None? then Err(NoneResult)
    else if |db.idRow.value| == 0 then Err(IndexOutOfRange)
    else if !CellTruthy(db.idRow.value[0]) then Ok(base)
    else
      QueryOrderComplete();
      DeriveFrom(QueryOrder, cfg, QueryResults(queries, db, db.idRow.value[0]), lang, base)
  }

  /** `process_stats_to_display`: fills the values from the profile, then
      resolves the database id, runs every selected query and derives the
      query values in the plugin's order. */
  method ProcessStats(cfg: Config, profile: Option<Profile>, queries: map<Stat, Query>, db: Database) returns (r: Result<map<Stat, Value>, Error>)
    ensures r == ProcessResult(cfg, profile, queries, db)
  {
    var lang := LangOf(cfg);
    var vars: map<Stat, Value> := map[];
    if profile.Some? {
      vars := ProfileStage(cfg, profile.value, lang);
    }
    if |queries| == 0 {
      return Ok(vars);
    }
    if db.idRow.None? {
      return Err(NoneResult);
    }
    var idRow := db.idRow.value;
    if |idRow| == 0 {
      return Err(IndexOutOfRange);
    }
    var dbId := idRow[0];
    if !CellTruthy(dbId) {
      return Ok(vars);
    }

    var results := RunQueries(queries, db, dbId);
    QueryOrderComplete();
    r := DeriveAll(cfg, results, lang, vars);
  }

  /** Runs every selected statement for the database id. */
  method RunQueries(queries: map<Stat, Query>, db: Database, dbId: Cell) returns (results: map<Stat, seq<Row>>)
    ensures results == QueryResults(queries, db, dbId)
  {
    results := map[];
    var pending := queries.Keys;
    while pending != {}
      invariant pending <= queries.Keys
      invariant results == map k | k in queries.Keys - pending :: db.run(queries[k], dbId)
      decreases |pending|
    {
      var key :| key in pending;
      results := results[key := db.run(queries[key], dbId)];
      pending := pending - {key};
    }
    assert queries.Keys - pending == queries.Keys;
  }

  /** Derives the value of every enabled query stat in the plugin's order,
      on top of the profile values. */
  method DeriveAll(cfg: Config, results: map<Stat, seq<Row>>, lang: Lang, base: map<Stat, Value>) returns (r: Result<map<Stat, Value>, Error>)
    requires forall s :: s in QueryOrder ==> IsQueryStat(s)
    ensures r == DeriveFrom(QueryOrder, cfg, results, lang, base)
  {
    var vars := base;
    for i := 0 to |QueryOrder|
      invariant DeriveFrom(QueryOrder[i..], cfg, results, lang, vars) == DeriveFrom(QueryOrder, cfg, results, lang, base)
    {
      var stat := QueryOrder[i];
      assert QueryOrder[i..][0] == stat && QueryOrder[i..][1..] == QueryOrder[i + 1..];
      if stat in cfg.enabled {
        if stat !in results {
          return Err(MissingKey);
        }
        var value := Derive(stat, results[stat], lang);
        if value.Err? {
          return Err(value.error);
        }
        vars := vars[stat := value.value];
      }
    }
    assert QueryOrder[|QueryOrder|..] == [];
    return Ok(vars);
  }

  /** The profile half of `process_stats_to_display`: one block per profile
      stat, each storing its value when the stat is enabled. */
  method ProfileStage(cfg: Config, p: Profile, lang: Lang) returns (vars: map<Stat, Value>)
    ensures vars == ProfileValues(cfg, p, lang)
  {
    vars := map[];
    ghost var done: set<Stat> := {};
    assert vars == ProfileValuesAmong(cfg, p, lang, done);
    vars := StoreProfileStat(cfg, p, lang, done, FirstTimeHere, vars);
    done := done + {FirstTimeHere};
    vars := StoreProfileStat(cfg, p, lang, done, TotSessions, vars);
    done := done + {TotSessions};
    vars := StoreProfileStat(cfg, p, lang, done, CumulatedPlaytime, vars);
    done := done + {CumulatedPlaytime};
    vars := StoreProfileStat(cfg, p, lang, done, AvgSessionTime, vars);
    done := done + {AvgSessionTime};
    vars := StoreProfileStat(cfg, p, lang, done, TotPunishments, vars);
    done := done + {TotPunishments};
    assert done == {FirstTimeHere, TotSessions, CumulatedPlaytime, AvgSessionTime, TotPunishments};
    ProfileAllDone(cfg, p, lang);
  }

  /** One profile block: stores the stat's value when it is enabled. */
  method StoreProfileStat(cfg: Config, p: Profile, lang: Lang, ghost done: set<Stat>, s: Stat, vars: map<Stat, Value>)
    returns (out: map<Stat, Value>)
    requires IsProfileStat(s)
    requires vars == ProfileValuesAmong(cfg, p, lang, done)
    ensures out == ProfileValuesAmong(cfg, p, lang, done + {s})
  {
    ProfileStep(cfg, p, lang, done, s);
    if s in cfg.enabled {
      var value := ProfileStatValue(s, p, lang, cfg.displaySecs);
      out := vars[s := value];
    } else {
      out := vars;
    }
  }

  /** The value of one profile stat, computed as the plugin does: durations
      through `readable_duration`, punishments through
      `get_penalties_message`. */
  method ProfileStatValue(s: Stat, p: Profile, lang: Lang, displaySecs: bool) returns (v: Value)
    requires IsProfileStat(s)
    ensures v == ProfileValue(s, p, lang, displaySecs)
  {
    match s
    case FirstTimeHere =>
      var firstTimeHere := ReadableDuration(p.elapsedSeconds, lang, displaySecs);
      v := VText(firstTimeHere);
    case TotSessions =>
      v := if p.sessionsCount.Some? then VInt(p.sessionsCount.value) else VText("1");
    case CumulatedPlaytime =>
      var cumulated := ReadableDuration(Playtime(p), lang, displaySecs);
      v := VText(cumulated);
    case AvgSessionTime =>
      var average := ReadableDuration(AverageSession(p), lang, displaySecs);
      v := VText(average);
    case TotPunishments =>
      var punishments := GetPenaltiesMessage(p.penaltyCount, lang);
      v := VText(punishments);
  }

  /** The values of the enabled profile stats among `done`. */
  function ProfileValuesAmong(cfg: Config, p: Profile, lang: Lang, done: set<Stat>): map<Stat, Value>
  {
    map s | s in cfg.enabled && IsProfileStat(s) && s in done :: ProfileValue(s, p, lang, cfg.displaySecs)
  }

  lemma ProfileStep(cfg: Config, p: Profile, lang: Lang, done: set<Stat>, s: Stat)
    requires IsProfileStat(s)
    ensures (if s in cfg.enabled
             then ProfileValuesAmong(cfg, p, lang, done)[s := ProfileValue(s, p, lang, cfg.displaySecs)]
             else ProfileValuesAmong(cfg, p, lang, done))
            == ProfileValuesAmong(cfg, p, lang, done + {s})
  {
  }

  lemma ProfileAllDone(cfg: Config, p: Profile, lang: Lang)
    ensures ProfileValuesAmong(cfg, p, lang, {FirstTimeHere, TotSessions, CumulatedPlaytime, AvgSessionTime, TotPunishments})
            == ProfileValues(cfg, p, lang)
  {
  }

  // Properties of the derivation

  /** Whether the id lookup yielded a truthy database id. */
  predicate IdTruthy(db: Database) {
    db.idRow.Some? && |db.idRow.value| > 0 && CellTruthy(db.idRow.value[0])
  }

  /** A profile that holds none of the entries falls back to one session and
      5400 seconds of play: an hour and a half, on average and in total. */
  lemma ProfileDefaults(elapsed: nat, lang: Lang)
    ensures var p := Profile(elapsed, None, None, None);
      && ProfileValue(TotSessions, p, lang, false) == VText("1")
      && AverageSession(p) == 5400
      && ProfileValue(CumulatedPlaytime, p, lang, false) == VText("1h30")
      && ProfileValue(AvgSessionTime, p, lang, false) == VText("1h30")
  {
    var p := Profile(elapsed, None, None, None);
    assert Playtime(p) == 5400 && Sessions(p) == 1;
    DefaultPlaytimeText(lang);
  }

  lemma DefaultPlaytimeText(lang: Lang)
    ensures DurationText(5400, lang, false) == "1h30"
  {
    HourAndAHalf();
    DurationOfHms(5400, lang, 1, 30, 0);
  }

  lemma HourAndAHalf()
    ensures FormatToHms(1, 30, 0, false) == "1h30"
  {
    assert NatToString(1) == "1" && ZeroPad2(30) == "30";
  }

  /** A profile without a "penalty_count" entry reports no punishment. */
  lemma PunishmentsDefault(elapsed: nat, lang: Lang)
    ensures ProfileValue(TotPunishments, Profile(elapsed, None, None, None), lang, false) == VText(Tr(NoPunish, lang))
  {
    assert CountsOf(None) == Counts(0, 0, 0, 0);
  }

  /** Every scalar query whose value is NULL or otherwise falsy stores zero:
      0 for the counts and sums, 0.0 for the averages and the ratio. */
  lemma FalsyScalarIsZero(s: Stat, rows: seq<Row>, lang: Lang)
    requires IsQueryStat(s) && !IsTopStat(s)
    requires |rows| > 0 && |rows[0]| > 0 && !CellTruthy(rows[0][0])
    ensures IsFloatStat(s) ==> Derive(s, rows, lang) == Ok(VFloat(true, "0.0"))
    ensures !IsFloatStat(s) ==> Derive(s, rows, lang) == Ok(VInt(0))
  {
  }

  /** A falsy database id stops the derivation: only the profile values are
      returned, whatever the queries. */
  lemma FalsyIdKeepsProfileOnly(cfg: Config, profile: Option<Profile>, queries: map<Stat, Query>, db: Database)
    requires db.idRow.Some? && |db.idRow.value| > 0 && !CellTruthy(db.idRow.value[0])
    ensures ProcessResult(cfg, profile, queries, db).Ok?
    ensures forall s :: s in ProcessResult(cfg, profile, queries, db).value ==>
      IsProfileStat(s) && profile.Some? && s in cfg.enabled
  {
  }

  /** The derivation along an order of query stats succeeds exactly when every
      enabled stat of the order has a result its conversion accepts; it then
      adds exactly those stats, each with its derived value. */
  lemma {:induction false} DeriveFromResult(order: seq<Stat>, cfg: Config, results: map<Stat, seq<Row>>, lang: Lang, acc: map<Stat, Value>)
    requires forall s :: s in order ==> IsQueryStat(s)
    ensures DeriveFrom(order, cfg, results, lang, acc).Ok? <==>
      forall s :: s in order && s in cfg.enabled ==> s in results && Derive(s, results[s], lang).Ok?
    ensures DeriveFrom(order, cfg, results, lang, acc).Ok? ==>
      var m := DeriveFrom(order, cfg, results, lang, acc).value;
      forall s :: s in m <==> s in acc || (s in order && s in cfg.enabled)
    ensures DeriveFrom(order, cfg, results, lang, acc).Ok? ==>
      var m := DeriveFrom(order, cfg, results, lang, acc).value;
      forall s :: s in m ==>
        m[s] == if s in order && s in cfg.enabled then Derive(s, results[s], lang).value else acc[s]
    decreases |order|
  {
    if |order| > 0 {
      var s := order[0];
      assert forall t :: t in order <==> t == s || t in order[1..];
      if s !in cfg.enabled {
        DeriveFromResult(order[1..], cfg, results, lang, acc);
      } else if s in results && Derive(s, results[s], lang).Ok? {
        DeriveFromResult(order[1..], cfg, results, lang, acc[s := Derive(s, results[s], lang).value]);
      }
    }
  }

  /** The queries the selector chooses for a configuration: one per enabled
      query stat. */
  predicate Selected(cfg: Config, queries: map<Stat, Query>) {
    forall s :: s in queries <==> s in cfg.enabled && IsQueryStat(s)
  }

  lemma SelectQueriesSelected(cfg: Config)
    ensures Selected(cfg, SelectQueries(cfg))
  {
  }

  /** With the selected queries and a truthy id, the derivation succeeds
      exactly when every enabled query stat's rows convert. */
  lemma ProcessSelectedFails(cfg: Config, profile: Option<Profile>, queries: map<Stat, Query>, db: Database)
    requires Selected(cfg, queries) && IdTruthy(db) && |queries| > 0
    ensures ProcessResult(cfg, profile, queries, db).Ok? <==>
      forall s :: s in queries ==> Derive(s, db.run(queries[s], db.idRow.value[0]), LangOf(cfg)).Ok?
  {
    var lang := LangOf(cfg);
    var base := if profile.Some? then ProfileValues(cfg, profile.value, lang) else map[];
    QueryOrderComplete();
    DeriveFromResult(QueryOrder, cfg, QueryResults(queries, db, db.idRow.value[0]), lang, base);
  }

  /** With the selected queries, a successful derivation stores a value for
      exactly the enabled profile stats (when the profile is there) and the
      enabled query stats (when the id is truthy). */
  lemma ProcessSelectedKeys(cfg: Config, profile: Option<Profile>, queries: map<Stat, Query>, db: Database)
    requires Selected(cfg, queries)
    requires ProcessResult(cfg, profile, queries, db).Ok?
    ensures forall s :: s in ProcessResult(cfg, profile, queries, db).value <==>
      s in cfg.enabled && ((IsProfileStat(s) && profile.Some?) || (IsQueryStat(s) && IdTruthy(db)))
  {
    var lang := LangOf(cfg);
    var base := if profile.Some? then ProfileValues(cfg, profile.value, lang) else map[];
    if IdTruthy(db) && |queries| > 0 {
      QueryOrderComplete();
      DeriveFromResult(QueryOrder, cfg, QueryResults(queries, db, db.idRow.value[0]), lang, base);
    } else if IdTruthy(db) {
      assert queries.Keys == {};
    }
  }

  /** With the selected queries and a truthy id, each stored query stat holds
      the value derived from the rows of its own query. */
  lemma ProcessSelectedValues(cfg: Config, profile: Option<Profile>, queries: map<Stat, Query>, db: Database, vars: map<Stat, Value>, s: Stat)
    requires Selected(cfg, queries) && IdTruthy(db) && s in queries && IsQueryStat(s)
    requires ProcessResult(cfg, profile, queries, db) == Ok(vars)
    ensures var derived := Derive(s, db.run(queries[s], db.idRow.value[0]), LangOf(cfg));
      derived.Ok? && s in vars && vars[s] == derived.value
  {
    var lang := LangOf(cfg);
    var base := if profile.Some? then ProfileValues(cfg, profile.value, lang) else map[];
    QueryOrderComplete();
    DeriveFromResult(QueryOrder, cfg, QueryResults(queries, db, db.idRow.value[0]), lang, base);
  }

  /** A successful derivation keeps every enabled profile stat's value as
      the profile gave it. */
  lemma ProcessKeepsProfileValues(cfg: Config, profile: Option<Profile>, queries: map<Stat, Query>, db: Database, s: Stat)
    requires ProcessResult(cfg, profile, queries, db).Ok?
    requires profile.Some? && s in cfg.enabled && IsProfileStat(s)
    ensures var vars := ProcessResult(cfg, profile, queries, db).value;
      s in vars && vars[s] == ProfileValue(s, profile.value, LangOf(cfg), cfg.displaySecs)
  {
    var lang := LangOf(cfg);
    var base := ProfileValues(cfg, profile.value, lang);
    if |queries| > 0 && IdTruthy(db) {
      QueryOrderComplete();
      DeriveFromResult(QueryOrder, cfg, QueryResults(queries, db, db.idRow.value[0]), lang, base);
    }
  }

  /** The top-3 text splits back at its line breaks into one line per row,
      when no line holds a line break itself. */
  lemma TopTextLines(rows: seq<Row>, games: Option<string>)
    requires |rows| > 0 && TopLines(rows, games).Ok?
    requires forall i :: 0 <= i < |rows| ==> Free(TopLine(rows[i], games).value, '\n')
    ensures var lines := TopLines(rows, games).value;
      Split(Join("\n", lines), '\n') == lines
  {
    var lines := TopLines(rows, games).value;
    assert "\n" == ['\n'];
    SplitJoin(lines, '\n');
  }

  /** A victims row and a weapons row as they are printed. */
  lemma TopLineExamples()
    ensures VictimLine([Str("Bob"), Int(12), Int(3)], "games") == Ok("Bob : 12 (3 games)")
    ensures WeaponLine([Str("MP40"), Int(7)]) == Ok("MP40 (7 kills)")
    ensures VictimLine([Str("Bob"), Int(12)], "games") == Err(IndexOutOfRange)
  {
    assert CellText(Int(12)) == "12" by {
      assert NatToString(1) == "1";
      assert NatToString(12) == NatToString(1) + [DigitChar(2)];
    }
    assert CellText(Int(3)) == "3" && CellText(Int(7)) == "7";
    assert CellText(Str("Bob")) == "Bob" && CellText(Str("MP40")) == "MP40";
    assert VictimLine([Str("Bob"), Int(12), Int(3)], "games") == Ok("Bob" + " : " + "12" + " (" + "3" + " " + "games" + ")");
    assert "Bob" + " : " + "12" + " (" + "3" + " " + "games" + ")" == "Bob : 12 (3 games)";
    assert WeaponLine([Str("MP40"), Int(7)]) == Ok("MP40" + " (" + "7" + " kills)");
    assert "MP40" + " (" + "7" + " kills)" == "MP40 (7 kills)";
  }

  /** A numeric cell prints as itself in a top-3 line but as a float once
      `float()` has converted it: the same count 7 reads "7" in the weapons
      list and "7.0" as an average. */
  lemma DecimalCellExamples()
    ensures WeaponLine([Str("MP40"), Dec(7, false, "7.0", "7")]) == Ok("MP40 (7 kills)")
    ensures FloatOf(Dec(7, false, "7.0", "7")) == Ok(VFloat(false, "7.0"))
    ensures IntOf(Dec(7, false, "7.0", "7")) == Ok(7)
  {
    assert WeaponLine([Str("MP40"), Dec(7, false, "7.0", "7")]) == Ok("MP40" + " (" + "7" + " kills)");
    assert "MP40" + " (" + "7" + " kills)" == "MP40 (7 kills)";
  }
}
