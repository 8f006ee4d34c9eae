/** The pure part of `define_stats_to_display`: whether the player profile
    has to be fetched, and which aggregate queries have to run. */
module Selector {

  import opened Wrappers
  import opened Domain

  /** The stats derived from the player profile. */
  predicate IsProfileStat(s: Stat) {
    s in {FirstTimeHere, TotSessions, CumulatedPlaytime, AvgSessionTime, TotPunishments}
  }

  /** The stats derived from a database query. */
  predicate IsQueryStat(s: Stat) {
    !(s == PlayerName || IsProfileStat(s))
  }

  /** The stats whose query yields a float. */
  predicate IsFloatStat(s: Stat) {
    s in {AvgCombat, AvgOffense, AvgDefense, AvgSupport, KdRatio}
  }

  /** The stats whose query yields a top-3 list. */
  predicate IsTopStat(s: Stat) {
    s in {MostKilled, MostDeathBy, MostUsedWeapons}
  }

  /** The query stats in the order the plugin derives them. */
  const QueryOrder: seq<Stat> := [
    TotPlayedGames, AvgCombat, AvgOffense, AvgDefense, AvgSupport,
    TotKills, TotTeamkills, TotDeaths, TotDeathsByTk, KdRatio,
    MostKilled, MostDeathBy, MostUsedWeapons]

  /** The order lists every query stat once and nothing else. */
  lemma QueryOrderComplete()
    ensures forall s :: s in QueryOrder <==> IsQueryStat(s)
    ensures forall i, j :: 0 <= i < j < |QueryOrder| ==> QueryOrder[i] != QueryOrder[j]
  {
  }

  /** The prepared statement of one query stat. */
  datatype Query = Query(stat: Stat)

  /** How every scalar statement ends. */
  const ScalarTail := "WHERE playersteamid_id = :db_player_id"

  /** How a statement ends: a scalar one filters on the player's id, a top-3
      one keeps three rows. */
  function StatementEnd(s: Stat): string {
    if IsTopStat(s) then " LIMIT 3" else ScalarTail
  }

  /** The part of a statement between "SELECT " and its end. */
  function StatementBody(s: Stat): string
    requires IsQueryStat(s)
  {
    match s
    case TotPlayedGames => "COUNT(*) FROM public.player_stats "
    case AvgCombat => "ROUND(AVG(combat), 2) AS avg_combat FROM public.player_stats "
    case AvgOffense => "ROUND(AVG(offense), 2) AS avg_offense FROM public.player_stats "
    case AvgDefense => "ROUND(AVG(defense), 2) AS avg_defense FROM public.player_stats "
    case AvgSupport => "ROUND(AVG(support), 2) AS avg_support FROM public.player_stats "
    case TotKills => "SUM(kills) FROM public.player_stats "
    case TotTeamkills => "SUM(teamkills) FROM public.player_stats "
    case TotDeaths => "SUM(deaths) FROM public.player_stats "
    case TotDeathsByTk => "SUM(deaths_by_tk) FROM public.player_stats "
    case KdRatio => "ROUND((SUM(kills) - SUM(teamkills))::numeric / CASE WHEN (SUM(deaths) - SUM(deaths_by_tk)) = 0 THEN 1 ELSE (SUM(deaths) - SUM(deaths_by_tk)) END, 2) AS ratio FROM public.player_stats "
    case MostKilled => "key AS player_name, SUM(value::int) AS total_kills, count(*) FROM public.player_stats, jsonb_each_text(most_killed::jsonb) WHERE playersteamid_id = :db_player_id GROUP BY key ORDER BY total_kills DESC"
    case MostDeathBy => "key AS player_name, SUM(value::int) AS total_kills, count(*) FROM public.player_stats, jsonb_each_text(death_by::jsonb) WHERE playersteamid_id = :db_player_id GROUP BY key ORDER BY total_kills DESC"
    case MostUsedWeapons => "weapon, SUM(usage_count) AS total_usage FROM (SELECT playersteamid_id, weapon_data.key AS weapon, (weapon_data.value::text)::int AS usage_count FROM public.player_stats, jsonb_each(weapons::jsonb) AS weapon_data WHERE playersteamid_id = :db_player_id) AS weapon_usage GROUP BY weapon ORDER BY total_usage DESC"
  }

  /** The text of a statement; `:db_player_id` is bound to the player's
      database id when it runs.  Every statement only reads; a scalar one
      filters on the player's id, and a top-3 one returns at most three rows. */
  function SqlText(q: Query): (r: string)
    requires IsQueryStat(q.stat)
    ensures |r| > 7 && r[..7] == "SELECT "
    ensures !IsTopStat(q.stat) ==> |r| > |ScalarTail| && r[|r| - |ScalarTail|..] == ScalarTail
    ensures IsTopStat(q.stat) ==> |r| > 8 && r[|r| - 8..] == " LIMIT 3"
  {
    var head, body, end := "SELECT ", StatementBody(q.stat), StatementEnd(q.stat);
    var r := head + body + end;
    ThreeParts(head, body, end);
    assert r[..7] == head && |r| > 7;
    assert |r| == |head + body| + |end| && r[|r| - |end|..] == end;
    r
  }

  lemma ThreeParts(a: string, b: string, c: string)
    ensures (a + b + c)[..|a|] == a && (a + b + c)[|a + b|..] == c
  {
  }

  /** `needs_player_profile`: some profile stat is enabled. */
  function NeedsProfile(cfg: Config): (b: bool)
    ensures b <==> exists s :: s in cfg.enabled && IsProfileStat(s)
  {
    var any := FirstTimeHere in cfg.enabled || TotSessions in cfg.enabled
      || CumulatedPlaytime in cfg.enabled || AvgSessionTime in cfg.enabled
      || TotPunishments in cfg.enabled;
    assert any ==> exists s :: s in cfg.enabled && IsProfileStat(s);
    any
  }

  /** `queries_to_execute`: the statement of every enabled query stat. */
  function SelectQueries(cfg: Config): (q: map<Stat, Query>)
    ensures forall s :: s in q <==> s in cfg.enabled && IsQueryStat(s)
    ensures forall s :: s in q ==> q[s] == Query(s)
  {
    map s | s in cfg.enabled && IsQueryStat(s) :: Query(s)
  }

  /** What `define_stats_to_display` hands on: the profile when it is needed
      and its lookup succeeded, and the queries to run.  `lookup` is what the
      profile lookup would yield (None when it raised). */
  function DefineStats(cfg: Config, lookup: Option<Profile>): (r: (Option<Profile>, map<Stat, Query>))
    ensures r.0.Some? <==> NeedsProfile(cfg) && lookup.Some?
    ensures r.0.Some? ==> r.0 == lookup
    ensures r.1 == SelectQueries(cfg)
  {
    (if NeedsProfile(cfg) then lookup else None, SelectQueries(cfg))
  }

  /** The query map never holds the player name or a profile stat. */
  lemma QueriesExcludeProfile(cfg: Config)
    ensures PlayerName !in SelectQueries(cfg)
    ensures forall s :: IsProfileStat(s) ==> s !in SelectQueries(cfg)
  {
  }

  /** No query runs exactly when no query stat is enabled. */
  lemma QueriesEmptyIff(cfg: Config)
    ensures |SelectQueries(cfg)| == 0 <==> forall s :: s in cfg.enabled ==> !IsQueryStat(s)
  {
    var q := SelectQueries(cfg);
    if exists s :: s in cfg.enabled && IsQueryStat(s) {
      var s :| s in cfg.enabled && IsQueryStat(s);
      assert s in q.Keys;
    }
  }

  /** The shipped configuration needs the profile and runs all thirteen
      queries. */
  lemma ShippedSelection()
    ensures NeedsProfile(ShippedConfig)
    ensures forall s :: s in SelectQueries(ShippedConfig) <==> IsQueryStat(s)
  {
    assert FirstTimeHere in ShippedConfig.enabled;
  }
}
