/**
 * The game-cycle controller: the end-of-match sequence guarded by `endGameRunning`,
 * and the statistics and respawn decisions taken when a player dies or respawns.
 *
 * The host (the plugin's configuration, the event bus, the scheduler, the game's own
 * bookkeeping) is reduced to values: `Host` holds the configuration the controller reads,
 * `GameView` what it asks the game, and every call into the game, the statistics store
 * or the scheduler is recorded as a `HostCall`. Each operation is first written as a
 * transition on a `CycleState` value; the `GameCycle` class then runs it step by step,
 * as the source does, and is proved to end in the state the transition names.
 */
module Game {
  import opened Wrappers
  import opened JavaInt
  import opened Statistics

  /** A team: its name, its players in the game's order, and whether `isDead` holds. */
  datatype Team = Team(name: string, players: seq<PlayerId>, dead: bool)

  /** What the controller reads from the game; the game's own rules are not modelled. */
  datatype GameView = GameView(
    isOver: Option<Team>,                // the winner `isOver` reports, if any
    teamPlayers: set<PlayerId>,          // `getTeamPlayers`
    isOverSet: bool,                     // `isOverSet`
    teams: seq<Team>,                    // `getTeams().values()`
    playerTeam: map<PlayerId, Team>,     // `getPlayerTeam`; absent means no team
    spectators: set<PlayerId>,           // `isSpectator`
    players: seq<PlayerId>,              // `getPlayers`
    leftStored: set<PlayerId>,           // players whose storage holds the location they came from
    hasMainLobby: bool)                  // `getMainLobby() != null`

  /** The plugin's configuration and state as the controller reads them. */
  datatype Host = Host(
    pluginEnabled: bool,
    statisticsEnabled: bool,
    spectationEnabled: bool,
    toMainLobby: bool,
    bungeeCycle: bool,                   // whether the game's cycle is the Bungee variant
    respawnProtectionTime: int32,
    gameOverDelay: int32,                // "gameoverdelay"
    winScore: Option<int32>,             // "statistics.scores.win", if configured
    killScore: Option<int32>,            // "statistics.scores.kill", if configured
    dieScore: Option<int32>)             // "statistics.scores.die", if configured

  function WinBonus(h: Host): (r: int32)
    ensures h.winScore.None? ==> r == 50
    ensures h.winScore.Some? ==> r == h.winScore.value
  {
    h.winScore.GetOr(50)
  }

  function KillBonus(h: Host): (r: int32)
    ensures h.killScore.None? ==> r == 10
    ensures h.killScore.Some? ==> r == h.killScore.value
  {
    h.killScore.GetOr(10)
  }

  function DieBonus(h: Host): (r: int32)
    ensures h.dieScore.None? ==> r == 0
    ensures h.dieScore.Some? ==> r == h.dieScore.value
  {
    h.dieScore.GetOr(0)
  }

  /** Where a respawning player is sent. */
  datatype Location = TeamSpawn(team: string) | LeftLocation(player: PlayerId) | MainLobby

  /** A call the controller makes into its collaborators. */
  datatype HostCall =
    | StopWorkers
    | Store(player: PlayerId, stat: Stat)
    | ScheduleGameOver(delay: int32, winner: Option<Team>)
    | ClearDamager(player: PlayerId)
    | AddProtection(player: PlayerId)
    | ToSpectator(player: PlayerId)
    | PlayerLeave(player: PlayerId)

  /** The controller's flag, the statistics records and the calls made so far. */
  datatype CycleState = CycleState(
    endGameRunning: bool,
    ledger: map<PlayerId, Stat>,
    calls: seq<HostCall>)

  /** The record the statistics manager hands out; a player without one reads as all zero. */
  function StatOf(l: map<PlayerId, Stat>, p: PlayerId): (r: Stat)
    ensures p in l ==> r == l[p]
    ensures p !in l ==> r == ZERO
  {
    if p in l then l[p] else ZERO
  }

  /** One more win and the win bonus; no other counter moves. */
  function Win(s: Stat, bonus: int32): (r: Stat)
    ensures r.wins == Add(s.wins, 1) && r.score == Add(s.score, bonus)
    ensures r.(wins := s.wins, score := s.score) == s
  {
    s.(wins := Add(s.wins, 1), score := Add(s.score, bonus))
  }

  /** One more death and the death score; no other counter moves. */
  function Die(s: Stat, bonus: int32): (r: Stat)
    ensures r.deaths == Add(s.deaths, 1) && r.score == Add(s.score, bonus)
    ensures r.(deaths := s.deaths, score := s.score) == s
  {
    s.(deaths := Add(s.deaths, 1), score := Add(s.score, bonus))
  }

  /** One more kill and the kill bonus; no other counter moves. */
  function Kill(s: Stat, bonus: int32): (r: Stat)
    ensures r.kills == Add(s.kills, 1) && r.score == Add(s.score, bonus)
    ensures r.(kills := s.kills, score := s.score) == s
  {
    s.(kills := Add(s.kills, 1), score := Add(s.score, bonus))
  }

  /** One more loss; no other counter moves. */
  function Lose(s: Stat): (r: Stat)
    ensures r.loses == Add(s.loses, 1)
    ensures r.(loses := s.loses) == s
  {
    s.(loses := Add(s.loses, 1))
  }

  /** The winners' loop: each listed player, in order, is credited one win and the bonus. */
  function CreditWins(l: map<PlayerId, Stat>, ps: seq<PlayerId>, bonus: int32): (r: map<PlayerId, Stat>)
    ensures r.Keys == l.Keys + (set i | 0 <= i < |ps| :: ps[i])
    decreases |ps|
  {
    if |ps| == 0 then l
    else
      var before := CreditWins(l, ps[..|ps| - 1], bonus);
      var p := ps[|ps| - 1];
      before[p := Win(StatOf(before, p), bonus)]
  }

  /** The store loop: one `Store` per listed player, in order, with that player's record. */
  function StoreCalls(l: map<PlayerId, Stat>, ps: seq<PlayerId>): (r: seq<HostCall>)
    ensures |r| == |ps|
    ensures forall k :: 0 <= k < |r| ==> r[k].Store?
    decreases |ps|
  {
    if |ps| == 0 then []
    else StoreCalls(l, ps[..|ps| - 1]) + [Store(ps[|ps| - 1], StatOf(l, ps[|ps| - 1]))]
  }

  /** `runGameOver(winner)`, with `cancelled` the outcome of the game-over event. */
  function AfterRunGameOver(s: CycleState, g: GameView, h: Host, winner: Option<Team>, cancelled: bool): (r: CycleState)
    ensures cancelled ==> r == s
    ensures !cancelled ==> r.endGameRunning
    ensures !h.statisticsEnabled ==> r.ledger == s.ledger
    ensures |r.calls| >= |s.calls| && r.calls[..|s.calls|] == s.calls
  {
    if cancelled then s
    else
      var l := if h.statisticsEnabled && winner.Some? then CreditWins(s.ledger, winner.value.players, WinBonus(h)) else s.ledger;
      var stores := if h.statisticsEnabled then StoreCalls(l, g.players) else [];
      CycleState(true, l, s.calls + [StopWorkers] + stores + [ScheduleGameOver(h.gameOverDelay, winner)])
  }

  /**
   * Whether `checkGameOver` starts the ending, and with which winner: only while the
   * plugin is enabled and no ending runs, with the reported winner, or with none when
   * no team player is left or `isOverSet` holds.
   */
  function GameOverTrigger(g: GameView, h: Host, running: bool): (r: Option<Option<Team>>)
    ensures r.Some? <==> h.pluginEnabled && !running && (g.isOver.Some? || |g.teamPlayers| == 0 || g.isOverSet)
    ensures r.Some? ==> r.value == g.isOver
  {
    if !h.pluginEnabled then None
    else if g.isOver.Some? then
      if !running then Some(g.isOver) else None
    else if (|g.teamPlayers| == 0 || g.isOverSet) && !running then Some(None)
    else None
  }

  /** `checkGameOver`. */
  function AfterCheckGameOver(s: CycleState, g: GameView, h: Host, cancelled: bool): (r: CycleState)
    ensures !h.pluginEnabled ==> r == s
    ensures s.endGameRunning ==> r == s
    ensures GameOverTrigger(g, h, s.endGameRunning).None? ==> r == s
    ensures GameOverTrigger(g, h, s.endGameRunning).Some? ==>
      r == AfterRunGameOver(s, g, h, g.isOver, cancelled)
    ensures r.endGameRunning <==> s.endGameRunning || (GameOverTrigger(g, h, s.endGameRunning).Some? && !cancelled)
  {
    match GameOverTrigger(g, h, s.endGameRunning)
    case None => s
    case Some(winner) => AfterRunGameOver(s, g, h, winner, cancelled)
  }

  /**
   * The statistics part of `onPlayerDies`: the victim's death, and, when no killer is
   * given, a kill credited to the record fetched as `killerPlayer`, which is the
   * victim's own.
   */
  function DeathLedger(l: map<PlayerId, Stat>, h: Host, victim: PlayerId, killer: Option<PlayerId>): (r: map<PlayerId, Stat>)
    ensures !h.statisticsEnabled ==> r == l
    ensures forall q :: q != victim ==> StatOf(r, q) == StatOf(l, q)
    ensures h.statisticsEnabled ==> victim in r
  {
    if !h.statisticsEnabled then l
    else
      var died := l[victim := Die(StatOf(l, victim), DieBonus(h))];
      if killer.None? then died[victim := Kill(StatOf(died, victim), KillBonus(h))] else died
  }

  /** `onPlayerDies(victim, killer)`; `cancelled` is the outcome of a game-over event it raises. */
  function AfterPlayerDies(s: CycleState, g: GameView, h: Host, victim: PlayerId, killer: Option<PlayerId>, cancelled: bool): (r: CycleState)
    ensures s.endGameRunning ==> r == s
    ensures !s.endGameRunning ==> r == AfterCheckGameOver(s.(ledger := DeathLedger(s.ledger, h, victim, killer)), g, h, cancelled)
  {
    if s.endGameRunning then s
    else AfterCheckGameOver(s.(ledger := DeathLedger(s.ledger, h, victim, killer)), g, h, cancelled)
  }

  /** The state after `onPlayerRespawn` and the location it sets, if it sets one. */
  datatype RespawnResult = RespawnResult(state: CycleState, respawnAt: Option<Location>)

  /**
   * Where a player whose team is dead and who does not become a spectator respawns: the
   * remembered location, unless the plugin sends such players to the main lobby and the
   * game has one.
   */
  function LeaveLocation(g: GameView, h: Host, player: PlayerId): (r: Option<Location>)
    ensures h.toMainLobby && g.hasMainLobby ==> r == Some(MainLobby)
    ensures !(h.toMainLobby && g.hasMainLobby) ==>
      r == (if player in g.leftStored then Some(LeftLocation(player)) else None)
  {
    if !h.toMainLobby then
      if player in g.leftStored then Some(LeftLocation(player)) else None
    else if g.hasMainLobby then Some(MainLobby)
    else if player in g.leftStored then Some(LeftLocation(player)) else None
  }

  /** Calls appended after `c` leave the calls before it, and `c` itself, in place. */
  lemma AppendedAfter(calls: seq<HostCall>, c: HostCall, tail: seq<HostCall>)
    ensures |calls + [c] + tail| > |calls|
    ensures (calls + [c] + tail)[..|calls|] == calls && (calls + [c] + tail)[|calls|] == c
  {
    assert (calls + [c] + tail)[..|calls|] == calls;
  }

  /**
   * `onPlayerRespawn(player)`; `randomIndex` is the index `Utils.randInt` draws when a
   * spectator without a team respawns.
   */
  function AfterPlayerRespawn(s: CycleState, g: GameView, h: Host, player: PlayerId, randomIndex: int): (r: RespawnResult)
    ensures r.state.endGameRunning == s.endGameRunning
    ensures |r.state.calls| > |s.calls| && r.state.calls[..|s.calls|] == s.calls
    ensures r.state.calls[|s.calls|] == ClearDamager(player)
    ensures player !in g.playerTeam ==>
      r.state == s.(calls := s.calls + [ClearDamager(player)]) &&
      (r.respawnAt.Some? <==> player in g.spectators && 0 <= randomIndex < |g.teams|) &&
      (r.respawnAt.Some? ==> r.respawnAt.value == TeamSpawn(g.teams[randomIndex].name))
    ensures player in g.playerTeam && !g.playerTeam[player].dead ==>
      r.respawnAt == Some(TeamSpawn(g.playerTeam[player].name)) &&
      r.state.ledger == s.ledger &&
      r.state.calls == s.calls + [ClearDamager(player)] +
        (if h.respawnProtectionTime > 0 then [AddProtection(player)] else [])
    ensures player in g.playerTeam && g.playerTeam[player].dead ==>
      r.state.ledger == (if h.statisticsEnabled then s.ledger[player := Lose(StatOf(s.ledger, player))] else s.ledger) &&
      r.state.calls == s.calls + [ClearDamager(player)] +
        [if h.spectationEnabled then ToSpectator(player) else PlayerLeave(player)]
    ensures player in g.playerTeam && g.playerTeam[player].dead && h.spectationEnabled ==>
      r.respawnAt == (if player in g.leftStored then Some(TeamSpawn(g.playerTeam[player].name)) else None)
    ensures player in g.playerTeam && g.playerTeam[player].dead && !h.spectationEnabled ==>
      r.respawnAt == (if h.bungeeCycle then None else LeaveLocation(g, h, player))
  {
    var cleared := s.(calls := s.calls + [ClearDamager(player)]);
    if player !in g.playerTeam then
      var at := if player in g.spectators && 0 <= randomIndex < |g.teams|
        then Some(TeamSpawn(g.teams[randomIndex].name)) else None;
      AppendedAfter(s.calls, ClearDamager(player), []);
      RespawnResult(cleared, at)
    else
      var team := g.playerTeam[player];
      if team.dead then
        var lost := if h.statisticsEnabled
          then cleared.(ledger := cleared.ledger[player := Lose(StatOf(cleared.ledger, player))])
          else cleared;
        AppendedAfter(s.calls, ClearDamager(player),
          [if h.spectationEnabled then ToSpectator(player) else PlayerLeave(player)]);
        if h.spectationEnabled then
          var at := if player in g.leftStored then Some(TeamSpawn(team.name)) else None;
          RespawnResult(lost.(calls := lost.calls + [ToSpectator(player)]), at)
        else if h.bungeeCycle then
          RespawnResult(lost.(calls := lost.calls + [PlayerLeave(player)]), None)
        else
          RespawnResult(lost.(calls := lost.calls + [PlayerLeave(player)]), LeaveLocation(g, h, player))
      else
        var protection := if h.respawnProtectionTime > 0 then [AddProtection(player)] else [];
        AppendedAfter(s.calls, ClearDamager(player), protection);
        RespawnResult(cleared.(calls := cleared.calls + protection), Some(TeamSpawn(team.name)))
  }

  /** The controller. The game view stands for the `Game` it belongs to. */
  class GameCycle {
    var game: GameView
    var endGameRunning: bool
    var ledger: map<PlayerId, Stat>
    ghost var calls: seq<HostCall>

    ghost function State(): CycleState
      reads this
    {
      CycleState(endGameRunning, ledger, calls)
    }

    constructor (g: GameView, records: map<PlayerId, Stat>)
      ensures game == g && State() == CycleState(false, records, [])
    {
      game := g;
      endGameRunning := false;
      ledger := records;
      calls := [];
    }

    function IsEndGameRunning(): (r: bool)
      reads this
      ensures r == State().endGameRunning
    {
      endGameRunning
    }

    method SetEndGameRunning(running: bool)
      modifies this
      ensures IsEndGameRunning() == running
      ensures game == old(game) && ledger == old(ledger) && calls == old(calls)
    {
      endGameRunning := running;
    }

    method RunGameOver(winner: Option<Team>, h: Host, cancelled: bool)
      modifies this
      ensures game == old(game)
      ensures State() == AfterRunGameOver(old(State()), game, h, winner, cancelled)
    {
      if cancelled {
        return;
      }
      calls := calls + [StopWorkers];
      SetEndGameRunning(true);
      var delay := h.gameOverDelay;
      if h.statisticsEnabled {
        if winner.Some? {
          CreditWinners(winner.value.players, WinBonus(h));
        }
        StorePlayers();
      }
      calls := calls + [ScheduleGameOver(delay, winner)];
    }

    /** The first loop of `runGameOver`: one win and the bonus for each player of the winner. */
    method CreditWinners(members: seq<PlayerId>, bonus: int32)
      modifies this`ledger
      ensures ledger == CreditWins(old(ledger), members, bonus)
    {
      var i := 0;
      while i < |members|
        invariant 0 <= i <= |members|
        invariant ledger == CreditWins(old(ledger), members[..i], bonus)
      {
        var p := members[i];
        var statistic := StatOf(ledger, p);
        statistic := statistic.(wins := Add(statistic.wins, 1));
        statistic := statistic.(score := Add(statistic.score, bonus));
        ledger := ledger[p := statistic];
        assert members[..i + 1][..i] == members[..i];
        i := i + 1;
      }
      assert members[..|members|] == members;
    }

    /** The second loop of `runGameOver`: every player's record goes to the store. */
    method StorePlayers()
      modifies this`calls
      ensures calls == old(calls) + StoreCalls(ledger, game.players)
    {
      var players := game.players;
      var j := 0;
      while j < |players|
        invariant 0 <= j <= |players|
        invariant calls == old(calls) + StoreCalls(ledger, players[..j])
      {
        var p := players[j];
        calls := calls + [Store(p, StatOf(ledger, p))];
        assert players[..j + 1][..j] == players[..j];
        j := j + 1;
      }
      assert players[..|players|] == players;
    }

    method CheckGameOver(h: Host, cancelled: bool)
      modifies this
      ensures game == old(game)
      ensures State() == AfterCheckGameOver(old(State()), game, h, cancelled)
    {
      if !h.pluginEnabled {
        return;
      }
      var winner := game.isOver;
      if winner.Some? {
        if IsEndGameRunning() == false {
          RunGameOver(winner, h, cancelled);
        }
      } else {
        if (|game.teamPlayers| == 0 || game.isOverSet) && IsEndGameRunning() == false {
          RunGameOver(None, h, cancelled);
        }
      }
    }

    method OnPlayerRespawn(player: PlayerId, h: Host, randomIndex: int) returns (respawnAt: Option<Location>)
      modifies this
      ensures game == old(game)
      ensures RespawnResult(State(), respawnAt) == AfterPlayerRespawn(old(State()), game, h, player, randomIndex)
    {
      respawnAt := None;
      calls := calls + [ClearDamager(player)];
      if player !in game.playerTeam {
        if player in game.spectators {
          if 0 <= randomIndex < |game.teams| {
            respawnAt := Some(TeamSpawn(game.teams[randomIndex].name));
          }
        }
        return;
      }
      var team := game.playerTeam[player];
      if team.dead {
        if h.statisticsEnabled {
          var statistic := StatOf(ledger, player);
          statistic := statistic.(loses := Add(statistic.loses, 1));
          ledger := ledger[player := statistic];
        }
        if h.spectationEnabled {
          if player in game.leftStored {
            respawnAt := Some(TeamSpawn(team.name));
          }
          calls := calls + [ToSpectator(player)];
        } else {
          if h.bungeeCycle {
            calls := calls + [PlayerLeave(player)];
            return;
          }
          if !h.toMainLobby {
            if player in game.leftStored {
              respawnAt := Some(LeftLocation(player));
            }
          } else {
            if game.hasMainLobby {
              respawnAt := Some(MainLobby);
            } else {
              if player in game.leftStored {
                respawnAt := Some(LeftLocation(player));
              }
            }
          }
          calls := calls + [PlayerLeave(player)];
        }
      } else {
        if h.respawnProtectionTime > 0 {
          calls := calls + [AddProtection(player)];
        }
        respawnAt := Some(TeamSpawn(team.name));
      }
    }

    method OnPlayerDies(player: PlayerId, killer: Option<PlayerId>, h: Host, cancelled: bool)
      modifies this
      ensures game == old(game)
      ensures State() == AfterPlayerDies(old(State()), game, h, player, killer, cancelled)
    {
      if IsEndGameRunning() {
        return;
      }
      if h.statisticsEnabled {
        var diePlayer := StatOf(ledger, player);
        diePlayer := diePlayer.(deaths := Add(diePlayer.deaths, 1));
        diePlayer := diePlayer.(score := Add(diePlayer.score, DieBonus(h)));
        ledger := ledger[player := diePlayer];
      }
      if killer.None? {
        if h.statisticsEnabled {
          // `killerPlayer` was fetched for the victim, so the kill goes to the victim's record
          var killerPlayer := StatOf(ledger, player);
          killerPlayer := killerPlayer.(kills := Add(killerPlayer.kills, 1));
          killerPlayer := killerPlayer.(score := Add(killerPlayer.score, KillBonus(h)));
          ledger := ledger[player := killerPlayer];
        }
        CheckGameOver(h, cancelled);
        return;
      }
      if killer.value !in game.playerTeam {
        CheckGameOver(h, cancelled);
        return;
      }
      CheckGameOver(h, cancelled);
    }
  }
}
