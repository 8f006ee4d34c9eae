# All-time stats plugin, modelled in Dafny

This project models the HLL CRCON plugin `all_time_stats`. When a player
connects, or types a chat command such as `!me`, the plugin sends that player
a private message with their all-time statistics. The statistics come from
three sources:

- the player profile: first time seen, game sessions, cumulated and average
  play time, and punishments;
- thirteen aggregate SQL queries over the per-match statistics table;
- a fixed report layout, translated into one of four languages.

The model follows the plugin's stages, one module each:

| module | file | models |
|---|---|---|
| `Wrappers` | wrappers.dfy | `Option` and `Result`, the error channel of every stage |
| `Text` | text.dfy | decimal rendering, `:02d` padding, `"sep".join`, splitting, ASCII lower-casing |
| `Locale` | locale.dfy | the `TRANSL` table and the `LANG` clamp |
| `Domain` | domain.dfy | the stats (`STATS_TO_DISPLAY` keys), the configuration, the profile, query cells and stored values |
| `Duration` | duration.dfy | `format_to_hms` and `readable_duration`, with a parser that reads the text back |
| `Penalties` | penalties.dfy | `get_penalties_message` |
| `Selector` | selector.dfy | `define_stats_to_display` and the `AVAILABLE_QUERIES` statements |
| `Aggregate` | aggregate.dfy | `process_stats_to_display` |
| `Compose` | compose.dfy | `construct_message` |
| `Dispatch` | dispatch.dfy | `all_time_stats` and its two hooks |

Where the source changes things step by step, the model does too, and each
such method is proved equal to a specification function. This covers
`readable_duration`'s list of parts, the `+=` steps of
`get_penalties_message` and `construct_message`, the dictionary
`process_stats_to_display` fills, and the membership test over the chat
commands. The properties are proved about those functions.

Behaviour of the code that the model keeps on purpose:

- A duration never ends in a bare `m` when seconds are hidden: `1h30`, not
  `1h30m`.
- `readable_duration` never shows more than 23 hours, because days are split
  off first.
- The punishment summary breaks its line before the tempbans exactly when
  punishes, kicks and tempbans are all positive.
- A missing `message_vars` key is a `KeyError`, which the caller swallows, so
  no message is sent. It can only happen when some stored value is truthy
  (for instance when "first time here" is enabled and the profile is at
  hand); otherwise the "no stats" sentinel of lines 361-362 is sent before any
  key is read (`Compose.SentinelIff`). Given a truthy stored value, a key goes
  missing in two ways. A profile stat is enabled but the profile lookup
  failed (`Dispatch.ProfileFailureSendsAtMostSentinel`). Or a query stat is
  enabled and the player's database id is falsy: the early return of
  `process_stats_to_display` leaves every query value missing. With the
  profile at hand and "first time here" enabled, this second case sends
  nothing, although the early return at lines 292-294, logged as "No
  database data have been processed", evidently means to go on with the
  profile values alone (`Dispatch.FalsyIdWithProfileSendsNothing`). The shipped configuration
  enables "first time here" and query stats, so it reaches this case.
- A missing database id row (`fetchone()` returning `None`) raises too, so
  nothing is sent.

## Model

| member | source | states |
|---|---|---|
| `Locale.ClampLang` | hll_rcon_tool/custom_tools/all_time_stats.py:126-127 | a language index inside the table is kept; any other index falls back to English (0) |
| `Domain.LangOf` | hll_rcon_tool/custom_tools/all_time_stats.py:38 | the language the plugin uses is the configured index when it is in range, otherwise 0 |
| `Locale.Translations` | hll_rcon_tool/custom_tools/all_time_stats.py:75-103 | every phrase has exactly one entry per language |
| `Locale.UnitWordsDistinct` | hll_rcon_tool/custom_tools/all_time_stats.py:76-78 | in every language the words for years, months and days start with pairwise distinct letters, so a clause names its unit unambiguously |
| `Locale.NoPunishOneLine` | hll_rcon_tool/custom_tools/all_time_stats.py:88 | the "no punishment" phrase holds no line break in any language |
| `Text.NatToStringValue` | hll_rcon_tool/custom_tools/all_time_stats.py:135 | the decimal text of a number reads back to that number |
| `Text.ZeroPad2Value` | hll_rcon_tool/custom_tools/all_time_stats.py:135-136 | the digits of the `:02d` text of a number read back to that number |
| `Text.SplitJoin` | hll_rcon_tool/custom_tools/all_time_stats.py:336-339 | splitting a `"\n".join` at the separator gives the parts back when no part holds the separator |
| `Text.AsciiLower` | hll_rcon_tool/custom_tools/all_time_stats.py:504 | lower-casing keeps the length and lowers each letter A-Z in place |
| `Duration.Breakdown` | hll_rcon_tool/custom_tools/all_time_stats.py:144-149 | the divmod chain splits a duration into parts that add back up to it, with months <= 12, days < 30, hours < 24, minutes and seconds < 60 |
| `Duration.FormatToHms` | hll_rcon_tool/custom_tools/all_time_stats.py:130-136 | the clause opens with a digit of the hours; with seconds it ends in `s`, without them it ends on a digit of the minutes, never on a bare `m` |
| `Duration.HmsTokenOf` | hll_rcon_tool/custom_tools/all_time_stats.py:130-136 | the `XhMM` / `XhMMmSSs` clause reads back to the hours, minutes and (when shown) seconds it was built from |
| `Duration.ReadableDuration` | hll_rcon_tool/custom_tools/all_time_stats.py:139-164 | the list of parts the method builds and joins is the duration text |
| `Duration.DurationText` | hll_rcon_tool/custom_tools/all_time_stats.py:151-164 | the duration text is never empty |
| `Duration.ParseDurationText` | hll_rcon_tool/custom_tools/all_time_stats.py:139-164 | round trip: reading the text back with the language's unit words gives the duration exactly when seconds are shown, and the duration less its seconds when they are hidden |
| `Duration.DurationTextInjective` | hll_rcon_tool/custom_tools/all_time_stats.py:139-164 | with seconds shown, two durations with the same text are equal |
| `Duration.DurationUnderADay` | hll_rcon_tool/custom_tools/all_time_stats.py:152-162 | below a day no years, months or days clause appears: the text is the hours clause of n / 3600, n % 3600 / 60 and n % 60 |
| `Duration.DurationZero` | hll_rcon_tool/custom_tools/all_time_stats.py:130-162 | zero seconds renders as `0h00`, or `0h00m00s` with seconds shown |
| `Duration.DurationExamples` | hll_rcon_tool/custom_tools/all_time_stats.py:139-164 | 3661 s with seconds is `1h01m01s`, 90061 s without is `1 days, 1h01`, 5400 s without is `1h30` |
| `Penalties.CountsOf` | hll_rcon_tool/custom_tools/all_time_stats.py:171-174 | each counter is the "penalty_count" entry for its key, and 0 when the key or the whole entry is missing |
| `Penalties.GetPenaltiesMessage` | hll_rcon_tool/custom_tools/all_time_stats.py:167-197 | the `+=` steps build the punishment summary: positive counters in the order punishes, kicks, tempbans, permabans, separated by ", " |
| `Penalties.PenaltiesNoPunishIff` | hll_rcon_tool/custom_tools/all_time_stats.py:177-178 | the summary is the "no punishment" phrase exactly when all four counters are zero |
| `Penalties.PenaltiesLineBreak` | hll_rcon_tool/custom_tools/all_time_stats.py:186-191 | the summary holds a line break exactly when punishes, kicks and tempbans are all positive |
| `Penalties.PenaltiesText` | hll_rcon_tool/custom_tools/all_time_stats.py:176-197 | a summary listing some category opens with a digit; counters that are all non-positive, not all zero, give the empty text |
| `Penalties.FirstItemDigit` | hll_rcon_tool/custom_tools/all_time_stats.py:180-195 | some category is listed exactly when some counter is positive, and the first listed one opens with a digit (the line break only comes after two others) |
| `Penalties.ItemsStart` | hll_rcon_tool/custom_tools/all_time_stats.py:180-195 | every listed category opens with a digit or with the line break before the tempbans |
| `Penalties.PenaltiesExampleKicks` | hll_rcon_tool/custom_tools/all_time_stats.py:171-195 | a profile with 2 kicks and 1 tempban reads `2 kicks, 1 tempbans` |
| `Penalties.PenaltiesExampleBreak` | hll_rcon_tool/custom_tools/all_time_stats.py:180-191 | one punish, one kick and one tempban give `1 punishes, 1 kicks, ` and a line break before `1 tempbans` |
| `Selector.QueryOrderComplete` | hll_rcon_tool/custom_tools/all_time_stats.py:225-239 | the list of query stats holds each of the thirteen query stats once and nothing else |
| `Selector.NeedsProfile` | hll_rcon_tool/custom_tools/all_time_stats.py:205-212 | the profile is needed exactly when some profile stat is enabled |
| `Selector.SqlText` | hll_rcon_tool/custom_tools/all_time_stats.py:109-123 | every statement is a `SELECT`; each scalar statement ends by filtering on `playersteamid_id = :db_player_id`, and each top-3 statement ends in `LIMIT 3` |
| `Selector.SelectQueries` | hll_rcon_tool/custom_tools/all_time_stats.py:240-248 | exactly the enabled query stats get a statement, each its own one |
| `Selector.DefineStats` | hll_rcon_tool/custom_tools/all_time_stats.py:200-248 | the profile is handed on exactly when it is needed and its lookup succeeded, together with the selected statements |
| `Selector.QueriesExcludeProfile` | hll_rcon_tool/custom_tools/all_time_stats.py:225-242 | neither the player name nor a profile stat ever gets a statement |
| `Selector.QueriesEmptyIff` | hll_rcon_tool/custom_tools/all_time_stats.py:244-246 | no statement is selected exactly when no query stat is enabled |
| `Selector.ShippedSelection` | hll_rcon_tool/custom_tools/all_time_stats.py:44-66 | the shipped configuration needs the profile and runs all thirteen queries |
| `Aggregate.AverageSession` | hll_rcon_tool/custom_tools/all_time_stats.py:273-276 | the average session is the play time divided by max(1, sessions), rounded down |
| `Aggregate.ProfileValues` | hll_rcon_tool/custom_tools/all_time_stats.py:261-280 | exactly the enabled profile stats get a value, each derived from the profile |
| `Aggregate.ProfileStage` | hll_rcon_tool/custom_tools/all_time_stats.py:258-280 | the five guarded stores leave exactly the profile values in the dictionary |
| `Aggregate.ProfileDefaults` | hll_rcon_tool/custom_tools/all_time_stats.py:267-276 | a profile without sessions or play time shows "1" session and `1h30` cumulated and average play time |
| `Aggregate.PunishmentsDefault` | hll_rcon_tool/custom_tools/all_time_stats.py:171-178 | a profile without "penalty_count" shows the "no punishment" phrase |
| `Aggregate.Derive` | hll_rcon_tool/custom_tools/all_time_stats.py:302-352 | an average or the ratio stores a float, a top-3 list a text, every other query stat an integer; a scalar stat without a first cell raises `IndexError`; a list succeeds exactly when every row has the columns its line prints (three, two for the weapons) |
| `Aggregate.ScalarCell` | hll_rcon_tool/custom_tools/all_time_stats.py:303 | `[0][0]` succeeds exactly when there is a first row with a first cell, and yields that cell |
| `Aggregate.IntOf` | hll_rcon_tool/custom_tools/all_time_stats.py:303 | `int(x or 0)` is 0 for every falsy cell, the integer itself for an integer cell, the truncated value for a non-zero decimal, and `NotANumber` for non-empty text |
| `Aggregate.FloatOf` | hll_rcon_tool/custom_tools/all_time_stats.py:307 | `float(x or 0)` is `0.0` for every falsy cell, and a float is zero exactly when its cell is falsy |
| `Aggregate.TopLines` | hll_rcon_tool/custom_tools/all_time_stats.py:335-352 | formatting the rows succeeds exactly when every row formats, with one line per row, in order |
| `Aggregate.TopTextLines` | hll_rcon_tool/custom_tools/all_time_stats.py:336-339 | the joined top-3 text splits back at its line breaks into one line per row |
| `Aggregate.TopLineExamples` | hll_rcon_tool/custom_tools/all_time_stats.py:337-349 | `Bob : 12 (3 games)` and `MP40 (7 kills)`; a row too short for `row[2]` raises |
| `Aggregate.DecimalCellExamples` | hll_rcon_tool/custom_tools/all_time_stats.py:307-349 | a numeric cell 7 prints `7` inside a top-3 line, `7.0` once `float()` converted it, and `int()` gives 7 |
| `Aggregate.FalsyScalarIsZero` | hll_rcon_tool/custom_tools/all_time_stats.py:302-333 | a NULL, zero or empty scalar result stores 0, or 0.0 for the averages and the ratio |
| `Aggregate.ProcessStats` | hll_rcon_tool/custom_tools/all_time_stats.py:251-354 | the profile stage, the id lookup, the statement loop and the derivation in the plugin's order produce the specified dictionary or error |
| `Aggregate.RunQueries` | hll_rcon_tool/custom_tools/all_time_stats.py:297-300 | the loop stores, for every selected stat, the rows of its statement run for the database id |
| `Aggregate.DeriveAll` | hll_rcon_tool/custom_tools/all_time_stats.py:302-352 | the guarded conversions, in source order, stop at the first one that raises |
| `Aggregate.DeriveFromResult` | hll_rcon_tool/custom_tools/all_time_stats.py:302-352 | the derivation succeeds exactly when every enabled query stat has rows that convert; it then adds exactly those stats, each with its derived value, and keeps the rest |
| `Aggregate.FalsyIdKeepsProfileOnly` | hll_rcon_tool/custom_tools/all_time_stats.py:289-294 | a falsy database id returns the profile values only, whatever the queries |
| `Aggregate.ProcessSelectedFails` | hll_rcon_tool/custom_tools/all_time_stats.py:296-352 | with the selected statements and a truthy id, processing succeeds exactly when every selected stat's rows convert |
| `Aggregate.ProcessSelectedKeys` | hll_rcon_tool/custom_tools/all_time_stats.py:255-354 | a successful run stores exactly the enabled profile stats (when there is a profile) and the enabled query stats (when the id is truthy) |
| `Aggregate.ProcessSelectedValues` | hll_rcon_tool/custom_tools/all_time_stats.py:298-352 | each stored query stat holds the value derived from the rows of its own statement |
| `Aggregate.ProcessKeepsProfileValues` | hll_rcon_tool/custom_tools/all_time_stats.py:261-280 | the query stage never overwrites a profile value |
| `Compose.ConstructMessage` | hll_rcon_tool/custom_tools/all_time_stats.py:357-454 | the message is the sentinel when nothing stored is truthy, a missing-key error when an enabled stat has no value, and otherwise the report of the enabled blocks in order |
| `Compose.AppendProfileLines` | hll_rcon_tool/custom_tools/all_time_stats.py:366-379 | the name and profile-style `+=` steps append the profile section |
| `Compose.AppendAverages` | hll_rcon_tool/custom_tools/all_time_stats.py:381-416 | the averages `+=` steps, with their separator choices, append the averages section |
| `Compose.AppendTotals` | hll_rcon_tool/custom_tools/all_time_stats.py:418-443 | the totals `+=` steps, with their bracketed team-kill counts, append the totals section |
| `Compose.AppendLists` | hll_rcon_tool/custom_tools/all_time_stats.py:444-452 | the ratio and the three top-3 blocks append the lists section |
| `Compose.SentinelIff` | hll_rcon_tool/custom_tools/all_time_stats.py:361-362 | the message reads "No stats to display" exactly when no stored value is truthy; a report never reads like it |
| `Compose.Block` | hll_rcon_tool/custom_tools/all_time_stats.py:366-452 | a stat's block is empty exactly when the stat is disabled |
| `Compose.BlockEndsOpen` | hll_rcon_tool/custom_tools/all_time_stats.py:389-443 | every block is empty or ends at a line break or a separator space, unless it is a kills or deaths count whose team-kill count follows on the same line |
| `Compose.ReportOnlyEnabled` | hll_rcon_tool/custom_tools/all_time_stats.py:366-452 | the report depends on the stored values of enabled stats only |
| `Compose.ReportStartsWithName` | hll_rcon_tool/custom_tools/all_time_stats.py:366-367 | with the name enabled the report opens with the name and a blank line |
| `Compose.AveragesIff` | hll_rcon_tool/custom_tools/all_time_stats.py:381-416 | the averages section is empty exactly when no average is enabled, and otherwise opens with its heading |
| `Compose.TotalsIff` | hll_rcon_tool/custom_tools/all_time_stats.py:418-443 | the totals section is empty exactly when no total is enabled, and otherwise opens with its heading |
| `Compose.AveragesAllFour` | hll_rcon_tool/custom_tools/all_time_stats.py:389-416 | all four averages print as two lines, combat ; offense, then defense ; support |
| `Compose.DefenseAlone` | hll_rcon_tool/custom_tools/all_time_stats.py:405-414 | the defense average alone ends its own line |
| `Compose.TotalsAllFour` | hll_rcon_tool/custom_tools/all_time_stats.py:426-443 | all four totals print as a kills line and a deaths line, each with its team-kill count in brackets |
| `Compose.TeamkillsAlone` | hll_rcon_tool/custom_tools/all_time_stats.py:430-434 | a team-kill count without the kill count gets a `kills (TKs) : n` line of its own |
| `Dispatch.Send` | hll_rcon_tool/custom_tools/all_time_stats.py:457-485 | a message is sent only with a non-empty player id and name, exactly when no stage raised; it goes to that player, is signed "all_time_stats" and is not saved |
| `Dispatch.AllTimeStats` | hll_rcon_tool/custom_tools/all_time_stats.py:457-485 | the early return, the three stages and the swallowed exceptions send what is specified |
| `Dispatch.AllTimeStatsOnConnected` | hll_rcon_tool/custom_tools/all_time_stats.py:488-493 | on connection the pipeline runs exactly when showing stats on connect is configured |
| `Dispatch.MatchesCommand` | hll_rcon_tool/custom_tools/all_time_stats.py:504 | the loop finds the chat message among the configured commands, both lower-cased |
| `Dispatch.AllTimeStatsOnChatCommand` | hll_rcon_tool/custom_tools/all_time_stats.py:496-505 | an absent or empty chat message sends nothing; a command runs the pipeline; any other message sends nothing |
| `Dispatch.ChatCaseInsensitive` | hll_rcon_tool/custom_tools/all_time_stats.py:504 | two chat messages that agree once lower-cased get the same answer |
| `Dispatch.ChatNeedsCommand` | hll_rcon_tool/custom_tools/all_time_stats.py:500-505 | a reply to a chat message always answers a configured command, and a configured command gets what the pipeline sends |
| `Dispatch.ShippedCommands` | hll_rcon_tool/custom_tools/all_time_stats.py:33-34 | `!me`, `!ME` and `!Me` ask for the stats; `!me ` and `me` do not |
| `Dispatch.FalsyIdWithProfileSendsNothing` | hll_rcon_tool/custom_tools/all_time_stats.py:289-294 | with the profile, "first time here" and a query stat enabled and a falsy database id, the query value is missing when the report reads it, so nothing is sent |
| `Dispatch.NoProfileFalsyIdSendsSentinel` | hll_rcon_tool/custom_tools/all_time_stats.py:289-294 | with no profile and a falsy database id the player gets "No stats to display" |
| `Dispatch.NoIdRowSendsNothing` | hll_rcon_tool/custom_tools/all_time_stats.py:289-290 | with a query stat enabled and no id row for the player nothing is sent |
| `Dispatch.ProfileFailureSendsAtMostSentinel` | hll_rcon_tool/custom_tools/all_time_stats.py:217-220 | when a profile stat is enabled but the profile lookup failed, at most the sentinel is sent |
| `Dispatch.FullReportSent` | hll_rcon_tool/custom_tools/all_time_stats.py:468-478 | with a profile, a truthy database id, convertible rows and "first time here" enabled, the player gets the full report of the stored values |

## Left out

- Talking to the game server and the database: the profile lookup is an input (`None` when it raised), the database is a value (the id row and a function from statement and id to rows), and sending is the `Outgoing` value the entry points return.
- The clock: the seconds since the profile was created are part of the profile value; how `datetime.fromisoformat` parses the "created" entry, and its default date, are not modelled.
- Logging: every `logger` call is dropped; the `try`/`except` of `all_time_stats` becomes the `Result` each stage returns.
- Floating point: a numeric cell carries the integer `int()` truncates it to, whether it is zero, the text `float()` of it prints as, and the text it prints as itself. `ROUND(..., 2)` and actual float formatting are not computed.
- Aggregate.AverageSession: `int(a / b)` is modelled as floor division a // b. The two agree for non-negative integers a and b below 2^53; for larger ones the rounding of Python's float division can differ, and the model does not follow it.
- Aggregate.FloatOf: a text cell that is not empty gives `NotANumber`, where Python's `float()` would parse numeric text (so `"0"` would give a zero float from a truthy cell); the statements only return numbers in those columns. An integer cell prints as its digits and ".0", which is what Python prints for every integer a float holds exactly, below 10^16; other integers are rounded by `float()`, and from 10^16 on Python prints an exponent.
- Aggregate.IntOf: a text cell that is not empty gives `NotANumber`, where Python's `int()` would parse a numeric string; the statements only return numbers in those columns.
- Text.AsciiLower: `str.lower()` is modelled for ASCII letters only; other Unicode case mappings are not.
- Duration.ReadableDuration: durations are natural numbers; a negative elapsed time (a "created" date in the future) is not modelled.
- Compose.ConstructMessage: the source raises `KeyError` at the first enabled stat without a value, after part of the message is built. The model checks for a missing value before building. The partial message is thrown away either way, so the outcome is the same.
- Aggregate.DeriveAll: the thirteen guarded blocks appear as one loop over the query stats in source order, each step doing what its block does.
- `STATS_TO_DISPLAY` is a set of enabled stats. This makes the dictionary total: a missing configuration key cannot arise.
- The SQL statements are constants (`Selector.SqlText`). The database is modelled by what each one returns, not by executing SQL.
- `get_player_profile`, `enter_session` and `Rcon.message_player` belong to the host application; they are not part of this model.
