/** `construct_message`: the chat report assembled from the stored values. */
module Compose {

  import opened Wrappers
  import opened Text
  import opened Locale
  import opened Domain

  /** The phrases of the translation table the report uses, in one
      language. */
  datatype Words = Words(
    firstTimeHere: string, sessions: string, playedGames: string,
    cumulatedPlaytime: string, avgSession: string, punishments: string,
    averages: string, combat: string, offense: string, defense: string,
    support: string, totals: string, kills: string, tks: string,
    deaths: string, ratio: string, victims: string, nemesis: string,
    favoriteWeapons: string)

  /** The row of each phrase in language `l`. */
  function WordsOf(l: Lang): Words
  {
    Words(Tr(FirstTimeHereLabel, l),
      Tr(TotSessionsLabel, l),
      Tr(PlayedGamesLabel, l),
      Tr(CumulatedPlaytimeLabel, l),
      Tr(AvgSessionTimeLabel, l),
      Tr(TotPunishmentsLabel, l),
      Tr(AveragesHeader, l),
      Tr(CombatWord, l),
      Tr(OffenseWord, l),
      Tr(DefenseWord, l),
      Tr(SupportWord, l),
      Tr(TotalsHeader, l),
      Tr(KillsWord, l),
      Tr(TksWord, l),
      Tr(DeathsWord, l),
      Tr(RatioWord, l),
      Tr(VictimsHeader, l),
      Tr(NemesisHeader, l),
      Tr(FavoriteWeaponsHeader, l))
  }

  /** The report sent when nothing truthy was stored. */
  const NoStats := "No stats to display"

  /** `any(message_vars.values())`. */
  predicate AnyTruthy(vars: map<Stat, Value>) {
    exists s :: s in vars && Truthy(vars[s])
  }

  /** Every enabled stat the report reads has a stored value (the player name
      comes from the log line instead). */
  predicate Complete(cfg: Config, vars: map<Stat, Value>) {
    forall s :: s in cfg.enabled && s != PlayerName ==> s in vars
  }

  /** The stored value of a stat as it prints. */
  function Shown(vars: map<Stat, Value>, s: Stat): string {
    if s in vars then ValueText(vars[s]) else ""
  }

  predicate AnyAverage(cfg: Config) {
    AvgCombat in cfg.enabled || AvgOffense in cfg.enabled
    || AvgDefense in cfg.enabled || AvgSupport in cfg.enabled
  }

  predicate AnyTotal(cfg: Config) {
    TotKills in cfg.enabled || TotTeamkills in cfg.enabled
    || TotDeaths in cfg.enabled || TotDeathsByTk in cfg.enabled
  }

  /** The block one stat contributes to the report: nothing when the stat is
      disabled, some text whenever it is enabled.  The separators of the
      averages and totals depend on which of their neighbours are enabled. */
  function Block(s: Stat, cfg: Config, v: string, w: Words): (r: string)
    ensures r == "" <==> s !in cfg.enabled
  {
    var on := cfg.enabled;
    if s !in on then ""
    else match s
      case PlayerName => v + "\n\n"
      case FirstTimeHere => w.firstTimeHere + " :\n" + v + "\n"
      case TotSessions => w.sessions + " : " + v + "\n"
      case TotPlayedGames => w.playedGames + " : " + v + "\n"
      case CumulatedPlaytime => w.cumulatedPlaytime + " :\n" + v + "\n"
      case AvgSessionTime => w.avgSession + " : " + v + "\n"
      case TotPunishments => "\n" + w.punishments + "\n" + v + "\n"
      case AvgCombat =>
        w.combat + " : " + v
        + (if AvgOffense !in on && AvgDefense !in on && AvgSupport !in on then "\n" else " ; ")
      case AvgOffense =>
        w.offense + " : " + v + (if AvgCombat !in on then " ; " else "\n")
      case AvgDefense =>
        w.defense + " : " + v
        + (if AvgCombat !in on && AvgOffense !in on && AvgSupport !in on then "\n" else " ; ")
      case AvgSupport => w.support + " " + v + "\n"
      case TotKills => w.kills + " : " + v + (if TotTeamkills !in on then "\n" else "")
      case TotTeamkills =>
        if TotKills in on then " (" + v + " " + w.tks + ")\n"
        else w.kills + " (" + w.tks + ") : " + v + "\n"
      case TotDeaths => w.deaths + " : " + v + (if TotDeathsByTk !in on then "\n" else "")
      case TotDeathsByTk =>
        if TotDeaths in on then " (" + v + " " + w.tks + ")\n"
        else w.deaths + " (" + w.tks + ") : " + v + "\n"
      case KdRatio => w.ratio + " " + w.kills + "/" + w.deaths + " : " + v + "\n"
      case MostKilled => "\n" + w.victims + "\n" + v + "\n"
      case MostDeathBy => "\n" + w.nemesis + "\n" + v + "\n"
      case MostUsedWeapons => "\n" + w.favoriteWeapons + "\n" + v + "\n"
  }

  function AveragesHeading(cfg: Config, w: Words): string {
    if AnyAverage(cfg) then "\n" + w.averages + "\n" else ""
  }

  function TotalsHeading(cfg: Config, w: Words): string {
    if AnyTotal(cfg) then "\n" + w.totals + "\n" else ""
  }

  /** The name and the profile-style lines. */
  function ProfileSection(cfg: Config, name: string, vars: map<Stat, Value>, w: Words): string {
    Block(PlayerName, cfg, name, w) + Block(FirstTimeHere, cfg, Shown(vars, FirstTimeHere), w)
    + Block(TotSessions, cfg, Shown(vars, TotSessions), w) + Block(TotPlayedGames, cfg, Shown(vars, TotPlayedGames), w)
    + Block(CumulatedPlaytime, cfg, Shown(vars, CumulatedPlaytime), w) + Block(AvgSessionTime, cfg, Shown(vars, AvgSessionTime), w)
    + Block(TotPunishments, cfg, Shown(vars, TotPunishments), w)
  }

  /** The averages heading and the two lines of averages. */
  function AveragesSection(cfg: Config, vars: map<Stat, Value>, w: Words): string {
    AveragesHeading(cfg, w)
    + Block(AvgCombat, cfg, Shown(vars, AvgCombat), w) + Block(AvgOffense, cfg, Shown(vars, AvgOffense), w)
    + Block(AvgDefense, cfg, Shown(vars, AvgDefense), w) + Block(AvgSupport, cfg, Shown(vars, AvgSupport), w)
  }

  /** The totals heading, the kills line and the deaths line. */
  function TotalsSection(cfg: Config, vars: map<Stat, Value>, w: Words): string {
    TotalsHeading(cfg, w)
    + Block(TotKills, cfg, Shown(vars, TotKills), w) + Block(TotTeamkills, cfg, Shown(vars, TotTeamkills), w)
    + Block(TotDeaths, cfg, Shown(vars, TotDeaths), w) + Block(TotDeathsByTk, cfg, Shown(vars, TotDeathsByTk), w)
  }

  /** The ratio line and the three top-3 lists. */
  function ListsSection(cfg: Config, vars: map<Stat, Value>, w: Words): string {
    Block(KdRatio, cfg, Shown(vars, KdRatio), w) + Block(MostKilled, cfg, Shown(vars, MostKilled), w)
    + Block(MostDeathBy, cfg, Shown(vars, MostDeathBy), w) + Block(MostUsedWeapons, cfg, Shown(vars, MostUsedWeapons), w)
  }

  /** The report: every enabled block, in the fixed order. */
  function Report(cfg: Config, name: string, vars: map<Stat, Value>): string {
    var w := WordsOf(LangOf(cfg));
    ProfileSection(cfg, name, vars, w) + AveragesSection(cfg, vars, w)
    + TotalsSection(cfg, vars, w) + ListsSection(cfg, vars, w)
  }

  /** What `construct_message` yields: the sentinel when nothing truthy was
      stored, a missing-key error when an enabled stat has no value, the
      report otherwise. */
  function ConstructResult(cfg: Config, name: string, vars: map<Stat, Value>): Result<string, Error> {
    if !AnyTruthy(vars) then Ok(NoStats)
    else if !Complete(cfg, vars) then Err(MissingKey)
    else Ok(Report(cfg, name, vars))
  }

  /** `construct_message`.  The direct indexing of the stored values raises on
      the first enabled stat without one; the partial message is then lost,
      so the presence of every value is checked before the message grows. */
  method ConstructMessage(cfg: Config, playerName: string, vars: map<Stat, Value>) returns (r: Result<string, Error>)
    ensures r == ConstructResult(cfg, playerName, vars)
  {
    if !AnyTruthy(vars) {
      return Ok(NoStats);
    }
    if !Complete(cfg, vars) {
      return Err(MissingKey);
    }
    var w := WordsOf(LangOf(cfg));
    var message := AppendProfileLines(cfg, playerName, vars, w, "");
    message := AppendAverages(cfg, vars, w, message);
    message := AppendTotals(cfg, vars, w, message);
    message := AppendLists(cfg, vars, w, message);
    var report := ProfileSection(cfg, playerName, vars, w) + AveragesSection(cfg, vars, w)
      + TotalsSection(cfg, vars, w) + ListsSection(cfg, vars, w);
    Assoc4("", ProfileSection(cfg, playerName, vars, w), AveragesSection(cfg, vars, w),
      TotalsSection(cfg, vars, w), ListsSection(cfg, vars, w));
    assert "" + report == report;
    assert report == Report(cfg, playerName, vars);
    return Ok(message);
  }

  lemma Assoc4(m: string, a: string, b: string, c: string, d: string)
    ensures m + a + b + c + d == m + (a + b + c + d)
  {
  }

  lemma Assoc7(m: string, a: string, b: string, c: string, d: string, e: string, f: string, g: string)
    ensures m + a + b + c + d + e + f + g == m + (a + b + c + d + e + f + g)
  {
    Assoc4(m, a, b, c, d);
    Assoc4(m + (a + b + c + d), e, f, g, "");
    Assoc4(a + b + c + d, e, f, g, "");
  }

  method AppendProfileLines(cfg: Config, playerName: string, vars: map<Stat, Value>, w: Words, message: string) returns (out: string)
    requires Complete(cfg, vars)
    ensures out == message + ProfileSection(cfg, playerName, vars, w)
  {
    var on := cfg.enabled;
    var p1, p2, p3, p4, p5, p6, p7 := "", "", "", "", "", "", "";
    if PlayerName in on {
      p1 := playerName + "\n\n";
    }
    assert p1 == Block(PlayerName, cfg, playerName, w);
    if FirstTimeHere in on {
      p2 := w.firstTimeHere + " :\n" + ValueText(vars[FirstTimeHere]) + "\n";
    }
    assert p2 == Block(FirstTimeHere, cfg, Shown(vars, FirstTimeHere), w);
    if TotSessions in on {
      p3 := w.sessions + " : " + ValueText(vars[TotSessions]) + "\n";
    }
    assert p3 == Block(TotSessions, cfg, Shown(vars, TotSessions), w);
    if TotPlayedGames in on {
      p4 := w.playedGames + " : " + ValueText(vars[TotPlayedGames]) + "\n";
    }
    assert p4 == Block(TotPlayedGames, cfg, Shown(vars, TotPlayedGames), w);
    if CumulatedPlaytime in on {
      p5 := w.cumulatedPlaytime + " :\n" + ValueText(vars[CumulatedPlaytime]) + "\n";
    }
    assert p5 == Block(CumulatedPlaytime, cfg, Shown(vars, CumulatedPlaytime), w);
    if AvgSessionTime in on {
      p6 := w.avgSession + " : " + ValueText(vars[AvgSessionTime]) + "\n";
    }
    assert p6 == Block(AvgSessionTime, cfg, Shown(vars, AvgSessionTime), w);
    if TotPunishments in on {
      p7 := "\n" + w.punishments + "\n" + ValueText(vars[TotPunishments]) + "\n";
    }
    assert p7 == Block(TotPunishments, cfg, Shown(vars, TotPunishments), w);
    out := message + p1 + p2 + p3 + p4 + p5 + p6 + p7;
    Assoc7(message, p1, p2, p3, p4, p5, p6, p7);
  }

  method AppendAverages(cfg: Config, vars: map<Stat, Value>, w: Words, message: string) returns (out: string)
    requires Complete(cfg, vars)
    ensures out == message + AveragesSection(cfg, vars, w)
  {
    var on := cfg.enabled;
    var h, p1, p2, p3, p4 := "", "", "", "", "";
    if AvgCombat in on || AvgOffense in on || AvgDefense in on || AvgSupport in on {
      h := "\n" + w.averages + "\n";
    }
    assert h == AveragesHeading(cfg, w);
    if AvgCombat in on {
      p1 := w.combat + " : " + ValueText(vars[AvgCombat]);
      if AvgOffense !in on && AvgDefense !in on && AvgSupport !in on {
        p1 := p1 + "\n";
      } else {
        p1 := p1 + " ; ";
      }
    }
    assert p1 == Block(AvgCombat, cfg, Shown(vars, AvgCombat), w);
    if AvgOffense in on {
      p2 := w.offense + " : " + ValueText(vars[AvgOffense]);
      if AvgCombat !in on {
        p2 := p2 + " ; ";
      } else {
        p2 := p2 + "\n";
      }
    }
    assert p2 == Block(AvgOffense, cfg, Shown(vars, AvgOffense), w);
    if AvgDefense in on {
      p3 := w.defense + " : " + ValueText(vars[AvgDefense]);
      if AvgCombat !in on && AvgOffense !in on && AvgSupport !in on {
        p3 := p3 + "\n";
      } else {
        p3 := p3 + " ; ";
      }
    }
    assert p3 == Block(AvgDefense, cfg, Shown(vars, AvgDefense), w);
    if AvgSupport in on {
      p4 := w.support + " " + ValueText(vars[AvgSupport]) + "\n";
    }
    assert p4 == Block(AvgSupport, cfg, Shown(vars, AvgSupport), w);
    out := message + h + p1 + p2 + p3 + p4;
    Assoc4(message + h, p1, p2, p3, p4);
    Assoc4(message, h, p1 + p2 + p3, p4, "");
    Assoc4(h, p1, p2, p3, p4);
  }

  method AppendTotals(cfg: Config, vars: map<Stat, Value>, w: Words, message: string) returns (out: string)
    requires Complete(cfg, vars)
    ensures out == message + TotalsSection(cfg, vars, w)
  {
    var on := cfg.enabled;
    var h, p1, p2, p3, p4 := "", "", "", "", "";
    if TotKills in on || TotTeamkills in on || TotDeaths in on || TotDeathsByTk in on {
      h := "\n" + w.totals + "\n";
    }
    assert h == TotalsHeading(cfg, w);
    if TotKills in on {
      p1 := w.kills + " : " + ValueText(vars[TotKills]);
      if TotTeamkills !in on {
        p1 := p1 + "\n";
      }
    }
    assert p1 == Block(TotKills, cfg, Shown(vars, TotKills), w);
    if TotTeamkills in on {
      if TotKills in on {
        p2 := " (" + ValueText(vars[TotTeamkills]) + " " + w.tks + ")\n";
      } else {
        p2 := w.kills + " (" + w.tks + ") : " + ValueText(vars[TotTeamkills]) + "\n";
      }
    }
    assert p2 == Block(TotTeamkills, cfg, Shown(vars, TotTeamkills), w);
    if TotDeaths in on {
      p3 := w.deaths + " : " + ValueText(vars[TotDeaths]);
      if TotDeathsByTk !in on {
        p3 := p3 + "\n";
      }
    }
    assert p3 == Block(TotDeaths, cfg, Shown(vars, TotDeaths), w);
    if TotDeathsByTk in on {
      if TotDeaths in on {
        p4 := " (" + ValueText(vars[TotDeathsByTk]) + " " + w.tks + ")\n";
      } else {
        p4 := w.deaths + " (" + w.tks + ") : " + ValueText(vars[TotDeathsByTk]) + "\n";
      }
    }
    assert p4 == Block(TotDeathsByTk, cfg, Shown(vars, TotDeathsByTk), w);
    out := message + h + p1 + p2 + p3 + p4;
    Assoc4(message + h, p1, p2, p3, p4);
    Assoc4(message, h, p1 + p2 + p3, p4, "");
    Assoc4(h, p1, p2, p3, p4);
  }

  method AppendLists(cfg: Config, vars: map<Stat, Value>, w: Words, message: string) returns (out: string)
    requires Complete(cfg, vars)
    ensures out == message + ListsSection(cfg, vars, w)
  {
    var on := cfg.enabled;
    var p1, p2, p3, p4 := "", "", "", "";
    if KdRatio in on {
      p1 := w.ratio + " " + w.kills + "/" + w.deaths + " : " + ValueText(vars[KdRatio]) + "\n";
    }
    assert p1 == Block(KdRatio, cfg, Shown(vars, KdRatio), w);
    if MostKilled in on {
      p2 := "\n" + w.victims + "\n" + ValueText(vars[MostKilled]) + "\n";
    }
    assert p2 == Block(MostKilled, cfg, Shown(vars, MostKilled), w);
    if MostDeathBy in on {
      p3 := "\n" + w.nemesis + "\n" + ValueText(vars[MostDeathBy]) + "\n";
    }
    assert p3 == Block(MostDeathBy, cfg, Shown(vars, MostDeathBy), w);
    if MostUsedWeapons in on {
      p4 := "\n" + w.favoriteWeapons + "\n" + ValueText(vars[MostUsedWeapons]) + "\n";
    }
    assert p4 == Block(MostUsedWeapons, cfg, Shown(vars, MostUsedWeapons), w);
    out := message + p1 + p2 + p3 + p4;
    Assoc4(message, p1, p2, p3, p4);
  }

  /** A block prints the same for two stores that agree on its stat, when
      the stat is enabled. */
  lemma BlockAgrees(s: Stat, cfg: Config, vars: map<Stat, Value>, vars': map<Stat, Value>, w: Words)
    requires s in cfg.enabled ==> (s in vars <==> s in vars')
    requires s in cfg.enabled && s in vars ==> vars[s] == vars'[s]
    ensures Block(s, cfg, Shown(vars, s), w) == Block(s, cfg, Shown(vars', s), w)
  {
    if s in cfg.enabled {
      assert Shown(vars, s) == Shown(vars', s);
    }
  }

  /** The report reads the stored values of enabled stats only. */
  lemma ReportOnlyEnabled(cfg: Config, name: string, vars: map<Stat, Value>, vars': map<Stat, Value>)
    requires forall s :: s in cfg.enabled ==> (s in vars <==> s in vars')
    requires forall s :: s in cfg.enabled && s in vars ==> vars[s] == vars'[s]
    ensures Report(cfg, name, vars) == Report(cfg, name, vars')
  {
    var w := WordsOf(LangOf(cfg));
    BlockAgrees(FirstTimeHere, cfg, vars, vars', w);
    BlockAgrees(TotSessions, cfg, vars, vars', w);
    BlockAgrees(TotPlayedGames, cfg, vars, vars', w);
    BlockAgrees(CumulatedPlaytime, cfg, vars, vars', w);
    BlockAgrees(AvgSessionTime, cfg, vars, vars', w);
    BlockAgrees(TotPunishments, cfg, vars, vars', w);
    BlockAgrees(AvgCombat, cfg, vars, vars', w);
    BlockAgrees(AvgOffense, cfg, vars, vars', w);
    BlockAgrees(AvgDefense, cfg, vars, vars', w);
    BlockAgrees(AvgSupport, cfg, vars, vars', w);
    BlockAgrees(TotKills, cfg, vars, vars', w);
    BlockAgrees(TotTeamkills, cfg, vars, vars', w);
    BlockAgrees(TotDeaths, cfg, vars, vars', w);
    BlockAgrees(TotDeathsByTk, cfg, vars, vars', w);
    BlockAgrees(KdRatio, cfg, vars, vars', w);
    BlockAgrees(MostKilled, cfg, vars, vars', w);
    BlockAgrees(MostDeathBy, cfg, vars, vars', w);
    BlockAgrees(MostUsedWeapons, cfg, vars, vars', w);
  }

  /** The averages heading and lines appear exactly when an average is
      enabled, and the heading comes first. */
  lemma AveragesIff(cfg: Config, vars: map<Stat, Value>, w: Words)
    ensures AveragesSection(cfg, vars, w) == "" <==> !AnyAverage(cfg)
    ensures AnyAverage(cfg) ==> "\n" + w.averages + "\n" <= AveragesSection(cfg, vars, w)
  {
    var rest := Block(AvgCombat, cfg, Shown(vars, AvgCombat), w) + Block(AvgOffense, cfg, Shown(vars, AvgOffense), w)
      + Block(AvgDefense, cfg, Shown(vars, AvgDefense), w) + Block(AvgSupport, cfg, Shown(vars, AvgSupport), w);
    Assoc4(AveragesHeading(cfg, w), Block(AvgCombat, cfg, Shown(vars, AvgCombat), w), Block(AvgOffense, cfg, Shown(vars, AvgOffense), w),
      Block(AvgDefense, cfg, Shown(vars, AvgDefense), w), Block(AvgSupport, cfg, Shown(vars, AvgSupport), w));
    assert AveragesSection(cfg, vars, w) == AveragesHeading(cfg, w) + rest;
    if !AnyAverage(cfg) {
      assert rest == "";
    }
  }

  /** The totals heading and lines appear exactly when a total is enabled,
      and the heading comes first. */
  lemma TotalsIff(cfg: Config, vars: map<Stat, Value>, w: Words)
    ensures TotalsSection(cfg, vars, w) == "" <==> !AnyTotal(cfg)
    ensures AnyTotal(cfg) ==> "\n" + w.totals + "\n" <= TotalsSection(cfg, vars, w)
  {
    var rest := Block(TotKills, cfg, Shown(vars, TotKills), w) + Block(TotTeamkills, cfg, Shown(vars, TotTeamkills), w)
      + Block(TotDeaths, cfg, Shown(vars, TotDeaths), w) + Block(TotDeathsByTk, cfg, Shown(vars, TotDeathsByTk), w);
    Assoc4(TotalsHeading(cfg, w), Block(TotKills, cfg, Shown(vars, TotKills), w), Block(TotTeamkills, cfg, Shown(vars, TotTeamkills), w),
      Block(TotDeaths, cfg, Shown(vars, TotDeaths), w), Block(TotDeathsByTk, cfg, Shown(vars, TotDeathsByTk), w));
    assert TotalsSection(cfg, vars, w) == TotalsHeading(cfg, w) + rest;
    if !AnyTotal(cfg) {
      assert rest == "";
    }
  }

  /** With all four averages enabled they print as two lines: combat and
      attack, then defense and support. */
  lemma AveragesAllFour(cfg: Config, vars: map<Stat, Value>, w: Words)
    requires AvgCombat in cfg.enabled && AvgOffense in cfg.enabled
    requires AvgDefense in cfg.enabled && AvgSupport in cfg.enabled
    ensures AveragesSection(cfg, vars, w) ==
      ("\n" + w.averages + "\n")
      + ((w.combat + " : " + Shown(vars, AvgCombat) + " ; ") + (w.offense + " : " + Shown(vars, AvgOffense) + "\n"))
      + ((w.defense + " : " + Shown(vars, AvgDefense) + " ; ") + (w.support + " " + Shown(vars, AvgSupport) + "\n"))
  {
    var b1, b2 := Block(AvgCombat, cfg, Shown(vars, AvgCombat), w), Block(AvgOffense, cfg, Shown(vars, AvgOffense), w);
    var b3, b4 := Block(AvgDefense, cfg, Shown(vars, AvgDefense), w), Block(AvgSupport, cfg, Shown(vars, AvgSupport), w);
    var h := AveragesHeading(cfg, w);
    assert h + b1 + b2 == h + (b1 + b2);
    assert h + (b1 + b2) + b3 + b4 == h + (b1 + b2) + (b3 + b4);
  }

  /** The defense average alone ends its line. */
  lemma DefenseAlone(cfg: Config, vars: map<Stat, Value>, w: Words)
    requires AvgDefense in cfg.enabled
    requires AvgCombat !in cfg.enabled && AvgOffense !in cfg.enabled && AvgSupport !in cfg.enabled
    ensures AveragesSection(cfg, vars, w) == "\n" + w.averages + "\n" + w.defense + " : " + Shown(vars, AvgDefense) + "\n"
  {
  }

  /** With all four totals enabled they print as a kills line and a deaths
      line, each with its team-kill count in brackets. */
  lemma TotalsAllFour(cfg: Config, vars: map<Stat, Value>, w: Words)
    requires TotKills in cfg.enabled && TotTeamkills in cfg.enabled
    requires TotDeaths in cfg.enabled && TotDeathsByTk in cfg.enabled
    ensures TotalsSection(cfg, vars, w) ==
      ("\n" + w.totals + "\n")
      + ((w.kills + " : " + Shown(vars, TotKills)) + (" (" + Shown(vars, TotTeamkills) + " " + w.tks + ")\n"))
      + ((w.deaths + " : " + Shown(vars, TotDeaths)) + (" (" + Shown(vars, TotDeathsByTk) + " " + w.tks + ")\n"))
  {
    var k, t := Shown(vars, TotKills), Shown(vars, TotTeamkills);
    var d, dt := Shown(vars, TotDeaths), Shown(vars, TotDeathsByTk);
    var b1, b2 := Block(TotKills, cfg, k, w), Block(TotTeamkills, cfg, t, w);
    var b3, b4 := Block(TotDeaths, cfg, d, w), Block(TotDeathsByTk, cfg, dt, w);
    assert b1 == w.kills + " : " + k;
    assert b2 == " (" + t + " " + w.tks + ")\n";
    assert b3 == w.deaths + " : " + d;
    assert b4 == " (" + dt + " " + w.tks + ")\n";
    var h := TotalsHeading(cfg, w);
    assert h == "\n" + w.totals + "\n";
    assert TotalsSection(cfg, vars, w) == h + b1 + b2 + b3 + b4;
    assert h + b1 + b2 == h + (b1 + b2);
    assert h + (b1 + b2) + b3 + b4 == h + (b1 + b2) + (b3 + b4);
  }

  /** A team-kill count without its kill count gets a line of its own. */
  lemma TeamkillsAlone(cfg: Config, vars: map<Stat, Value>, w: Words)
    requires TotTeamkills in cfg.enabled && TotKills !in cfg.enabled
    ensures Block(TotTeamkills, cfg, Shown(vars, TotTeamkills), w) == w.kills + " (" + w.tks + ") : " + Shown(vars, TotTeamkills) + "\n"
    ensures Block(TotKills, cfg, Shown(vars, TotKills), w) == ""
  {
  }

  /** The report opens with the player name and a blank line when the name
      is enabled. */
  lemma ReportStartsWithName(cfg: Config, name: string, vars: map<Stat, Value>)
    requires PlayerName in cfg.enabled
    ensures name + "\n\n" <= Report(cfg, name, vars)
  {
    var w := WordsOf(LangOf(cfg));
    var b := Block(PlayerName, cfg, name, w);
    var p := ProfileSection(cfg, name, vars, w);
    assert b == name + "\n\n";
    assert b <= p by {
      Assoc7(b, Block(FirstTimeHere, cfg, Shown(vars, FirstTimeHere), w), Block(TotSessions, cfg, Shown(vars, TotSessions), w),
        Block(TotPlayedGames, cfg, Shown(vars, TotPlayedGames), w), Block(CumulatedPlaytime, cfg, Shown(vars, CumulatedPlaytime), w),
        Block(AvgSessionTime, cfg, Shown(vars, AvgSessionTime), w), Block(TotPunishments, cfg, Shown(vars, TotPunishments), w), "");
    }
    Assoc4(p, AveragesSection(cfg, vars, w), TotalsSection(cfg, vars, w), ListsSection(cfg, vars, w), "");
  }

  /** Empty, or ending with a line break or a blank. */
  predicate EndsOpen(s: string) {
    |s| == 0 || s[|s| - 1] == '\n' || s[|s| - 1] == ' '
  }

  lemma EndsOpenConcat(a: string, b: string)
    requires EndsOpen(b) && (|b| > 0 || EndsOpen(a))
    ensures EndsOpen(a + b)
  {
    if |b| == 0 {
      assert a + b == a;
    } else {
      assert (a + b)[|a + b| - 1] == b[|b| - 1];
    }
  }

  /** Every block ends open, except a kills or deaths count followed by its
      team-kill count. */
  lemma BlockEndsOpen(s: Stat, cfg: Config, v: string, w: Words)
    requires s == TotKills ==> TotTeamkills !in cfg.enabled
    requires s == TotDeaths ==> TotDeathsByTk !in cfg.enabled
    ensures EndsOpen(Block(s, cfg, v, w))
  {
  }

  lemma ProfileEndsOpen(cfg: Config, name: string, vars: map<Stat, Value>, w: Words)
    ensures EndsOpen(ProfileSection(cfg, name, vars, w))
  {
    var b1, b2 := Block(PlayerName, cfg, name, w), Block(FirstTimeHere, cfg, Shown(vars, FirstTimeHere), w);
    var b3, b4 := Block(TotSessions, cfg, Shown(vars, TotSessions), w), Block(TotPlayedGames, cfg, Shown(vars, TotPlayedGames), w);
    var b5, b6 := Block(CumulatedPlaytime, cfg, Shown(vars, CumulatedPlaytime), w), Block(AvgSessionTime, cfg, Shown(vars, AvgSessionTime), w);
    var b7 := Block(TotPunishments, cfg, Shown(vars, TotPunishments), w);
    BlockEndsOpen(PlayerName, cfg, name, w);
    BlockEndsOpen(FirstTimeHere, cfg, Shown(vars, FirstTimeHere), w);
    BlockEndsOpen(TotSessions, cfg, Shown(vars, TotSessions), w);
    BlockEndsOpen(TotPlayedGames, cfg, Shown(vars, TotPlayedGames), w);
    BlockEndsOpen(CumulatedPlaytime, cfg, Shown(vars, CumulatedPlaytime), w);
    BlockEndsOpen(AvgSessionTime, cfg, Shown(vars, AvgSessionTime), w);
    BlockEndsOpen(TotPunishments, cfg, Shown(vars, TotPunishments), w);
    EndsOpenConcat(b1, b2);
    EndsOpenConcat(b1 + b2, b3);
    EndsOpenConcat(b1 + b2 + b3, b4);
    EndsOpenConcat(b1 + b2 + b3 + b4, b5);
    EndsOpenConcat(b1 + b2 + b3 + b4 + b5, b6);
    EndsOpenConcat(b1 + b2 + b3 + b4 + b5 + b6, b7);
  }

  lemma AveragesEndsOpen(cfg: Config, vars: map<Stat, Value>, w: Words)
    ensures EndsOpen(AveragesSection(cfg, vars, w))
  {
    var h := AveragesHeading(cfg, w);
    var b1, b2 := Block(AvgCombat, cfg, Shown(vars, AvgCombat), w), Block(AvgOffense, cfg, Shown(vars, AvgOffense), w);
    var b3, b4 := Block(AvgDefense, cfg, Shown(vars, AvgDefense), w), Block(AvgSupport, cfg, Shown(vars, AvgSupport), w);
    BlockEndsOpen(AvgCombat, cfg, Shown(vars, AvgCombat), w);
    BlockEndsOpen(AvgOffense, cfg, Shown(vars, AvgOffense), w);
    BlockEndsOpen(AvgDefense, cfg, Shown(vars, AvgDefense), w);
    BlockEndsOpen(AvgSupport, cfg, Shown(vars, AvgSupport), w);
    EndsOpenConcat(h, b1);
    EndsOpenConcat(h + b1, b2);
    EndsOpenConcat(h + b1 + b2, b3);
    EndsOpenConcat(h + b1 + b2 + b3, b4);
  }

  /** A count and its team-kill count together end open. */
  lemma PairEndsOpen(a: string, b1: string, b2: string)
    requires EndsOpen(a)
    requires |b2| > 0 ==> EndsOpen(b2)
    requires |b2| == 0 ==> EndsOpen(b1)
    ensures EndsOpen(a + b1 + b2)
  {
    if |b2| > 0 {
      EndsOpenConcat(a + b1, b2);
    } else {
      EndsOpenConcat(a, b1);
      EndsOpenConcat(a + b1, b2);
    }
  }

  lemma TotalsEndsOpen(cfg: Config, vars: map<Stat, Value>, w: Words)
    ensures EndsOpen(TotalsSection(cfg, vars, w))
  {
    var on := cfg.enabled;
    var h := TotalsHeading(cfg, w);
    var b1, b2 := Block(TotKills, cfg, Shown(vars, TotKills), w), Block(TotTeamkills, cfg, Shown(vars, TotTeamkills), w);
    var b3, b4 := Block(TotDeaths, cfg, Shown(vars, TotDeaths), w), Block(TotDeathsByTk, cfg, Shown(vars, TotDeathsByTk), w);
    BlockEndsOpen(TotTeamkills, cfg, Shown(vars, TotTeamkills), w);
    BlockEndsOpen(TotDeathsByTk, cfg, Shown(vars, TotDeathsByTk), w);
    if TotTeamkills !in on {
      BlockEndsOpen(TotKills, cfg, Shown(vars, TotKills), w);
    }
    if TotDeathsByTk !in on {
      BlockEndsOpen(TotDeaths, cfg, Shown(vars, TotDeaths), w);
    }
    PairEndsOpen(h, b1, b2);
    PairEndsOpen(h + b1 + b2, b3, b4);
  }

  lemma ListsEndsOpen(cfg: Config, vars: map<Stat, Value>, w: Words)
    ensures EndsOpen(ListsSection(cfg, vars, w))
  {
    var b1, b2 := Block(KdRatio, cfg, Shown(vars, KdRatio), w), Block(MostKilled, cfg, Shown(vars, MostKilled), w);
    var b3, b4 := Block(MostDeathBy, cfg, Shown(vars, MostDeathBy), w), Block(MostUsedWeapons, cfg, Shown(vars, MostUsedWeapons), w);
    BlockEndsOpen(KdRatio, cfg, Shown(vars, KdRatio), w);
    BlockEndsOpen(MostKilled, cfg, Shown(vars, MostKilled), w);
    BlockEndsOpen(MostDeathBy, cfg, Shown(vars, MostDeathBy), w);
    BlockEndsOpen(MostUsedWeapons, cfg, Shown(vars, MostUsedWeapons), w);
    EndsOpenConcat(b1, b2);
    EndsOpenConcat(b1 + b2, b3);
    EndsOpenConcat(b1 + b2 + b3, b4);
  }

  /** The report never reads "No stats to display", so the sentinel is sent
      exactly when no stored value is truthy. */
  lemma SentinelIff(cfg: Config, name: string, vars: map<Stat, Value>)
    ensures ConstructResult(cfg, name, vars) == Ok(NoStats) <==> !AnyTruthy(vars)
  {
    if AnyTruthy(vars) && Complete(cfg, vars) {
      var w := WordsOf(LangOf(cfg));
      var p, a := ProfileSection(cfg, name, vars, w), AveragesSection(cfg, vars, w);
      var t, l := TotalsSection(cfg, vars, w), ListsSection(cfg, vars, w);
      ProfileEndsOpen(cfg, name, vars, w);
      AveragesEndsOpen(cfg, vars, w);
      TotalsEndsOpen(cfg, vars, w);
      ListsEndsOpen(cfg, vars, w);
      EndsOpenConcat(p, a);
      EndsOpenConcat(p + a, t);
      EndsOpenConcat(p + a + t, l);
      assert Report(cfg, name, vars) == p + a + t + l;
      assert NoStats[|NoStats| - 1] == 'y';
    }
  }
}
