/** The entities the plugin passes between its stages: the configurable
    stats, the configuration itself, the cells of a query result and the
    values stored for the message. */
module Domain {

  import opened Wrappers
  import opened Text
  import opened Locale

  /** The keys of the stats table, in the order the configuration lists
      them. */
  datatype Stat =
    | PlayerName | FirstTimeHere | TotSessions | TotPlayedGames
    | CumulatedPlaytime | AvgSessionTime | TotPunishments
    | AvgCombat | AvgOffense | AvgDefense | AvgSupport
    | TotKills | TotTeamkills | TotDeaths | TotDeathsByTk | KdRatio
    | MostKilled | MostDeathBy | MostUsedWeapons

  /** The configuration block at the top of the plugin: which stats are
      shown, the language index as configured (clamped where it is used),
      whether durations show seconds, whether stats are shown on connect,
      and the chat commands that ask for them. */
  datatype Config = Config(
    enabled: set<Stat>,
    lang: int,
    displaySecs: bool,
    displayOnConnect: bool,
    chatCommands: seq<string>)

  /** The language the plugin actually uses. */
  function LangOf(cfg: Config): (l: Lang)
    ensures 0 <= cfg.lang < LanguageCount ==> l == cfg.lang
    ensures !(0 <= cfg.lang < LanguageCount) ==> l == 0
  {
    ClampLang(cfg.lang)
  }

  /** The configuration as shipped: every stat shown, English, no seconds,
      shown on connect and on "!me". */
  const ShippedConfig := Config(
    {PlayerName, FirstTimeHere, TotSessions, TotPlayedGames, CumulatedPlaytime,
     AvgSessionTime, TotPunishments, AvgCombat, AvgOffense, AvgDefense, AvgSupport,
     TotKills, TotTeamkills, TotDeaths, TotDeathsByTk, KdRatio,
     MostKilled, MostDeathBy, MostUsedWeapons},
    0, false, true, ["!me"])

  /** The player profile as far as the plugin reads it: the whole seconds
      elapsed since the profile was created (read off the clock), and the
      "sessions_count", "total_playtime_seconds" and "penalty_count" entries,
      each possibly absent. */
  datatype Profile = Profile(
    elapsedSeconds: nat,
    sessionsCount: Option<int>,
    totalPlaytimeSeconds: Option<nat>,
    penaltyCount: Option<map<string, int>>)

  /** One cell of a database row: SQL NULL, an integer, a numeric value, or
      text.  A numeric value carries the integer `int()` truncates it to,
      whether it is zero, the text of `float()` of it, and the text the value
      itself prints as inside an f-string. */
  datatype Cell =
    | Null
    | Int(i: int)
    | Dec(trunc: int, zero: bool, asFloat: string, asText: string)
    | Str(s: string)

  type Row = seq<Cell>

  /** Python truthiness of a cell. */
  predicate CellTruthy(c: Cell) {
    match c
    case Null => false
    case Int(i) => i != 0
    case Dec(_, zero, _, _) => !zero
    case Str(s) => |s| > 0
  }

  /** How a cell prints inside an f-string. */
  function CellText(c: Cell): string {
    match c
    case Null => "None"
    case Int(i) => IntToString(i)
    case Dec(_, _, _, asText) => asText
    case Str(s) => s
  }

  /** A value stored for the message: an integer, a float (whether it is
      zero, and how it prints) or text. */
  datatype Value =
    | VInt(i: int)
    | VFloat(zero: bool, shown: string)
    | VText(s: string)

  /** Python truthiness of a stored value. */
  predicate Truthy(v: Value) {
    match v
    case VInt(i) => i != 0
    case VFloat(zero, _) => !zero
    case VText(s) => |s| > 0
  }

  /** How a stored value prints inside an f-string. */
  function ValueText(v: Value): string {
    match v
    case VInt(i) => IntToString(i)
    case VFloat(_, shown) => shown
    case VText(s) => s
  }

  /** The exceptions the pipeline can raise; the caller swallows them all. */
  datatype Error = MissingKey | IndexOutOfRange | NotANumber | NoneResult
}
