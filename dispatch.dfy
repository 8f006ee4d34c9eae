/** The entry points: the connect hook, the chat-command hook and the
    pipeline they share, from the log line to the private message. */
module Dispatch {

  import opened Wrappers
  import opened Text
  import opened Domain
  import opened Selector
  import opened Aggregate
  import opened Compose

  /** The entries of a structured log line the plugin reads:
      "player_id_1", "player_name_1" and "sub_content", each possibly
      absent. */
  datatype LogLine = LogLine(playerId: Option<string>, playerName: Option<string>, subContent: Option<string>)

  /** Python truthiness of a looked-up string: present and not empty. */
  predicate Filled(o: Option<string>) {
    o.Some? && |o.value| > 0
  }

  /** The private message handed to the game server. */
  datatype Outgoing = Outgoing(playerName: string, playerId: string, message: string, signedBy: string, saveMessage: bool)

  /** What the plugin reads outside itself, per player id: the outcome of
      the profile lookup (None when it raised) and the database. */
  datatype World = World(profile: string -> Option<Profile>, database: string -> Database)

  /** The three stages of `all_time_stats` for one player: select, derive,
      compose.  Any error stops the pipeline. */
  function Pipeline(cfg: Config, name: string, lookup: Option<Profile>, db: Database): Result<string, Error> {
    var selection := DefineStats(cfg, lookup);
    var vars :- ProcessResult(cfg, selection.0, selection.1, db);
    ConstructResult(cfg, name, vars)
  }

  /** What `all_time_stats` sends: nothing without a player id and name or
      when a stage raised, otherwise the composed message to that player,
      signed "all_time_stats" and not saved. */
  function Send(cfg: Config, log: LogLine, world: World): (r: Option<Outgoing>)
    ensures r.Some? ==> Filled(log.playerId) && Filled(log.playerName)
    ensures r.Some? ==> r.value.playerId == log.playerId.value && r.value.playerName == log.playerName.value
    ensures r.Some? ==> r.value.signedBy == "all_time_stats" && !r.value.saveMessage
    ensures Filled(log.playerId) && Filled(log.playerName) ==>
      var p := Pipeline(cfg, log.playerName.value, world.profile(log.playerId.value), world.database(log.playerId.value));
      (r.Some? <==> p.Ok?) && (r.Some? ==> r.value.message == p.value)
  {
    if !Filled(log.playerId) || !Filled(log.playerName) then None
    else
      var id, name := log.playerId.value, log.playerName.value;
      match Pipeline(cfg, name, world.profile(id), world.database(id))
      case Ok(message) => Some(Outgoing(name, id, message, "all_time_stats", false))
      case Err(_) => None
  }

  /** `all_time_stats`. */
  method AllTimeStats(cfg: Config, log: LogLine, world: World) returns (sent: Option<Outgoing>)
    ensures sent == Send(cfg, log, world)
  {
    if !Filled(log.playerId) || !Filled(log.playerName) {
      return None;
    }
    var id, name := log.playerId.value, log.playerName.value;
    var selection := DefineStats(cfg, world.profile(id));
    var vars := ProcessStats(cfg, selection.0, selection.1, world.database(id));
    if vars.Err? {
      return None;
    }
    var message := ConstructMessage(cfg, name, vars.value);
    if message.Err? {
      return None;
    }
    return Some(Outgoing(name, id, message.value, "all_time_stats", false));
  }

  /** `all_time_stats_on_connected`: the pipeline runs on connection only
      when the configuration asks for it. */
  method AllTimeStatsOnConnected(cfg: Config, log: LogLine, world: World) returns (sent: Option<Outgoing>)
    ensures cfg.displayOnConnect ==> sent == Send(cfg, log, world)
    ensures !cfg.displayOnConnect ==> sent == None
  {
    sent := None;
    if cfg.displayOnConnect {
      sent := AllTimeStats(cfg, log, world);
    }
  }

  /** A chat message asks for the stats when it equals one of the configured
      commands up to case. */
  predicate IsCommand(cfg: Config, message: string) {
    exists i :: 0 <= i < |cfg.chatCommands| && AsciiLower(cfg.chatCommands[i]) == AsciiLower(message)
  }

  /** The membership test over the lower-cased commands. */
  method MatchesCommand(cfg: Config, message: string) returns (b: bool)
    ensures b <==> IsCommand(cfg, message)
  {
    var lowered := AsciiLower(message);
    b := false;
    for i := 0 to |cfg.chatCommands|
      invariant b <==> exists j :: 0 <= j < i && AsciiLower(cfg.chatCommands[j]) == lowered
    {
      if AsciiLower(cfg.chatCommands[i]) == lowered {
        b := true;
      }
    }
  }

  /** What `all_time_stats_on_chat_command` sends: nothing for an empty or
      absent chat message or one that is not a command, otherwise what the
      pipeline sends. */
  function ChatSend(cfg: Config, log: LogLine, world: World): Option<Outgoing> {
    if !Filled(log.subContent) || !IsCommand(cfg, log.subContent.value) then None
    else Send(cfg, log, world)
  }

  /** `all_time_stats_on_chat_command`. */
  method AllTimeStatsOnChatCommand(cfg: Config, log: LogLine, world: World) returns (sent: Option<Outgoing>)
    ensures sent == ChatSend(cfg, log, world)
  {
    if !Filled(log.subContent) {
      return None;
    }
    var asked := MatchesCommand(cfg, log.subContent.value);
    sent := None;
    if asked {
      sent := AllTimeStats(cfg, log, world);
    }
  }

  /** The chat command is matched up to case: two chat messages that agree
      once lower-cased get the same answer. */
  lemma ChatCaseInsensitive(cfg: Config, log: LogLine, world: World, other: string)
    requires Filled(log.subContent) && |other| > 0
    requires AsciiLower(other) == AsciiLower(log.subContent.value)
    ensures ChatSend(cfg, log.(subContent := Some(other)), world) == ChatSend(cfg, log, world)
  {
    var log' := log.(subContent := Some(other));
    assert IsCommand(cfg, other) <==> IsCommand(cfg, log.subContent.value);
    assert Send(cfg, log', world) == Send(cfg, log, world);
  }

  /** A reply to a chat message always answers a configured command. */
  lemma ChatNeedsCommand(cfg: Config, log: LogLine, world: World)
    ensures ChatSend(cfg, log, world).Some? ==> Filled(log.subContent) && IsCommand(cfg, log.subContent.value)
    ensures Filled(log.subContent) && IsCommand(cfg, log.subContent.value) ==> ChatSend(cfg, log, world) == Send(cfg, log, world)
  {
  }

  /** The shipped command answers in any case and only to itself. */
  lemma ShippedCommands()
    ensures IsCommand(ShippedConfig, "!me") && IsCommand(ShippedConfig, "!ME") && IsCommand(ShippedConfig, "!Me")
    ensures !IsCommand(ShippedConfig, "!me ") && !IsCommand(ShippedConfig, "me")
  {
    var cmd := ShippedConfig.chatCommands[0];
    assert ShippedConfig.chatCommands == [cmd] && AsciiLower(cmd) == "!me";
    assert AsciiLower("!ME") == "!me";
    assert AsciiLower("!Me") == "!me";
    assert |AsciiLower("!me ")| == 4;
    assert |AsciiLower("me")| == 2;
  }

  /** When the profile lookup fails and the player's database id is falsy,
      nothing truthy is stored and the player gets the sentinel. */
  lemma NoProfileFalsyIdSendsSentinel(cfg: Config, log: LogLine, world: World)
    requires Filled(log.playerId) && Filled(log.playerName)
    requires world.profile(log.playerId.value).None?
    requires var db := world.database(log.playerId.value);
      db.idRow.Some? && |db.idRow.value| > 0 && !CellTruthy(db.idRow.value[0])
    ensures Send(cfg, log, world) == Some(Outgoing(log.playerName.value, log.playerId.value, NoStats, "all_time_stats", false))
  {
    var id := log.playerId.value;
    var selection := DefineStats(cfg, world.profile(id));
    FalsyIdKeepsProfileOnly(cfg, selection.0, selection.1, world.database(id));
    var vars := ProcessResult(cfg, selection.0, selection.1, world.database(id)).value;
    assert vars == map[];
  }

  /** When the player's database id is falsy and a query stat is enabled,
      the early return leaves that stat's value missing, and the report reads
      it: with the profile at hand and "first time here" enabled, a value is
      truthy, so the `KeyError` is reached and nothing is sent, instead of a
      report of the profile values alone. */
  lemma FalsyIdWithProfileSendsNothing(cfg: Config, log: LogLine, world: World, s: Stat)
    requires Filled(log.playerId) && Filled(log.playerName)
    requires world.profile(log.playerId.value).Some? && FirstTimeHere in cfg.enabled
    requires var db := world.database(log.playerId.value);
      db.idRow.Some? && |db.idRow.value| > 0 && !CellTruthy(db.idRow.value[0])
    requires s in cfg.enabled && IsQueryStat(s)
    ensures Send(cfg, log, world) == None
  {
    var id := log.playerId.value;
    var db := world.database(id);
    var selection := DefineStats(cfg, world.profile(id));
    assert selection.0 == world.profile(id);
    FalsyIdKeepsProfileOnly(cfg, selection.0, selection.1, db);
    var vars := ProcessResult(cfg, selection.0, selection.1, db).value;
    ProcessKeepsProfileValues(cfg, selection.0, selection.1, db, FirstTimeHere);
    assert Truthy(vars[FirstTimeHere]);
    assert s !in vars;
    assert ConstructResult(cfg, log.playerName.value, vars) == Err(MissingKey);
  }

  /** A selected query with no id row for the player raises, and nothing is
      sent. */
  lemma NoIdRowSendsNothing(cfg: Config, log: LogLine, world: World)
    requires Filled(log.playerId) ==> world.database(log.playerId.value).idRow.None?
    requires exists s :: s in cfg.enabled && IsQueryStat(s)
    ensures Send(cfg, log, world) == None
  {
    if Filled(log.playerId) && Filled(log.playerName) {
      QueriesEmptyIff(cfg);
    }
  }

  /** When a profile stat is to be shown but the profile lookup failed,
      the report would read a missing value: the message is the sentinel
      (nothing truthy came from the database) or nothing is sent. */
  lemma ProfileFailureSendsAtMostSentinel(cfg: Config, log: LogLine, world: World, s: Stat)
    requires Filled(log.playerId) && Filled(log.playerName)
    requires world.profile(log.playerId.value).None?
    requires s in cfg.enabled && IsProfileStat(s)
    ensures Send(cfg, log, world).None? || Send(cfg, log, world).value.message == NoStats
  {
    var id := log.playerId.value;
    var selection := DefineStats(cfg, world.profile(id));
    var processed := ProcessResult(cfg, selection.0, selection.1, world.database(id));
    if processed.Ok? {
      SelectQueriesSelected(cfg);
      ProcessSelectedKeys(cfg, selection.0, selection.1, world.database(id));
      assert s !in processed.value;
      assert !Complete(cfg, processed.value);
    }
  }

  /** With a profile, a truthy database id, rows that convert for every
      enabled query stat and the "first time here" line enabled, the player
      gets the full report of the stored values. */
  lemma FullReportSent(cfg: Config, log: LogLine, world: World)
    requires Filled(log.playerId) && Filled(log.playerName)
    requires world.profile(log.playerId.value).Some?
    requires IdTruthy(world.database(log.playerId.value))
    requires FirstTimeHere in cfg.enabled
    requires var db := world.database(log.playerId.value);
      forall s :: s in cfg.enabled && IsQueryStat(s) ==> Derive(s, db.run(Query(s), db.idRow.value[0]), LangOf(cfg)).Ok?
    ensures var vars := ProcessResult(cfg, world.profile(log.playerId.value), SelectQueries(cfg), world.database(log.playerId.value));
      vars.Ok? && Send(cfg, log, world) == Some(Outgoing(log.playerName.value, log.playerId.value,
        Report(cfg, log.playerName.value, vars.value), "all_time_stats", false))
  {
    var id := log.playerId.value;
    FullProcess(cfg, world.profile(id), world.database(id));
  }

  /** The derivation half of the above: the stored values are complete and
      one of them is truthy. */
  lemma FullProcess(cfg: Config, profile: Option<Profile>, db: Database)
    requires profile.Some? && IdTruthy(db) && FirstTimeHere in cfg.enabled
    requires forall s :: s in cfg.enabled && IsQueryStat(s) ==> Derive(s, db.run(Query(s), db.idRow.value[0]), LangOf(cfg)).Ok?
    ensures var r := ProcessResult(cfg, profile, SelectQueries(cfg), db);
      r.Ok? && AnyTruthy(r.value) && Complete(cfg, r.value)
  {
    var queries := SelectQueries(cfg);
    SelectQueriesSelected(cfg);
    var processed := ProcessResult(cfg, profile, queries, db);
    if |queries| > 0 {
      ProcessSelectedFails(cfg, profile, queries, db);
    }
    assert processed.Ok?;
    ProcessSelectedKeys(cfg, profile, queries, db);
    var vars := processed.value;
    ProcessKeepsProfileValues(cfg, profile, queries, db, FirstTimeHere);
    assert Truthy(vars[FirstTimeHere]);
  }

}
