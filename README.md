# Bedwars game cycle and player statistics in Dafny

This project models two parts of the Bedwars Reloaded minigame plugin:

- **`GameCycle`**, the controller that ends a match. Its one flag, `endGameRunning`, guards
  the end-of-match sequence. The sequence fires a cancellable game-over event, stops the
  workers, sets the flag, credits the winning team's players and stores every player's
  statistics. Then it schedules the game-over countdown. The controller also updates
  statistics when a player dies, and picks where a player respawns.
- **`PlayerStatistic`**, the per-player record. It has seven `int` counters, setters, a
  reset, and the kill/death string `getKD`.

Files and modules:

- `java_int.dfy` (`JavaInt`): Java's 32-bit `int`. It covers wrap-around of `+` and the
  quotient of `/`, which rounds toward zero, including the `MIN_VALUE / -1` overflow.
- `decimal.dfy` (`Decimal`): how a whole number is printed in plain notation, and the
  parser that reads it back.
- `player_statistic.dfy` (`Statistics`): the `Stat` value (the seven counters), `KDString`
  and the class `PlayerStatistic`, whose setters change its fields in place.
- `game_cycle.dfy` (`Game`): the host reduced to values. Each operation is written as a
  pure transition on a `CycleState`, which holds the flag, the statistics ledger and the
  calls made so far. The class `GameCycle` runs each operation step by step, as the Java
  does, and each of its methods is proved to end in the state its transition gives.
- `game_properties.dfy` (`GameProperties`): lemmas about those transitions. The main one
  is over any sequence of checks, deaths and respawns, and says the countdown is scheduled
  at most once. This holds only while nothing clears the flag: `setEndGameRunning(false)`
  is public, and calling it re-arms the ending, so a second countdown can follow.

Host calls are inputs. `Host` holds the configuration: plugin enabled, statistics
enabled, spectation enabled, main-lobby mode, the Bungee cycle, protection time, game-over
delay, and the three configured scores (with their defaults 50, 10 and 0). `GameView`
holds what the controller asks the `Game`. Each call into the game, the store or the
scheduler is appended to a ghost list of `HostCall`s, so the lemmas can state the order
of calls. The `cancelled` argument is how the game-over event turned out.

Behaviours of the code a reader may not expect:

- `onPlayerDies` fetches `killerPlayer` for the victim and credits a kill only when there
  is no killer. A death without a killer therefore gives the victim a kill and the kill
  bonus. A real killer never gets a kill (`VictimCreditedWithOwnKill`, `NoKillForAKiller`).
- Nothing in this code increments `games`, and a drawn ending credits nobody.
- `onPlayerRespawn` has no `endGameRunning` guard, so a loss can still be counted after
  the ending has started.
- `getKD` returns "0.00" when deaths is 0. Otherwise it returns the truncated integer
  quotient followed by ".00", never a rounded fraction.

## Model

| member | source | states |
|---|---|---|
| `JavaInt.Wrap` | src/io/github/yannici/bedwars/Statistics/PlayerStatistic.java:18-24 | the 32-bit value kept of an integer is congruent to it modulo 2^32, and equals it when in range |
| `JavaInt.WrapUnique` | src/io/github/yannici/bedwars/Statistics/PlayerStatistic.java:18-24 | any 32-bit value congruent to x is the wrapped x |
| `JavaInt.Add` | src/io/github/yannici/bedwars/Game/GameCycle.java:60-63 | Java int addition: exact in range, minus 2^32 above MAX, plus 2^32 below MIN |
| `JavaInt.AddOneChanges` | src/io/github/yannici/bedwars/Game/GameCycle.java:60 | adding 1 to a counter always changes it; MAX wraps to MIN |
| `JavaInt.Quot` | src/io/github/yannici/bedwars/Statistics/PlayerStatistic.java:70 | the quotient's magnitude is the operands' magnitude quotient, and, for a non-zero quotient, its sign is negative exactly when the operand signs differ (rounds toward zero) |
| `JavaInt.QuotOfNonNegative` | src/io/github/yannici/bedwars/Statistics/PlayerStatistic.java:70 | on non-negative operands, Java's quotient equals Dafny's `/` |
| `JavaInt.QuotNegated` | src/io/github/yannici/bedwars/Statistics/PlayerStatistic.java:70 | negating either operand negates the quotient |
| `JavaInt.QuotRoundsTowardZero` | src/io/github/yannici/bedwars/Statistics/PlayerStatistic.java:70 | -7 / 2 is -3 in Java, but -4 in Dafny's Euclidean division |
| `JavaInt.Div` | src/io/github/yannici/bedwars/Statistics/PlayerStatistic.java:70 | Java int `/` is the truncated quotient, except MIN / -1, which overflows to MIN |
| `Decimal.Digits` | src/io/github/yannici/bedwars/Statistics/PlayerStatistic.java:73-74 | a non-empty run of digits, with a leading '0' only for zero |
| `Decimal.DigitsRoundTrip` | src/io/github/yannici/bedwars/Statistics/PlayerStatistic.java:73-74 | reading the digits of n back gives n |
| `Decimal.IntToString` | src/io/github/yannici/bedwars/Statistics/PlayerStatistic.java:73-74 | plain notation of a whole number is canonical (no leading zero except "0", no "-0"), and starts with '-' exactly when the number is negative |
| `Decimal.IntToStringRoundTrip` | src/io/github/yannici/bedwars/Statistics/PlayerStatistic.java:73-74 | parsing the plain notation of n gives n |
| `Decimal.IntToStringInjective` | src/io/github/yannici/bedwars/Statistics/PlayerStatistic.java:73-74 | different numbers get different notations |
| `Decimal.CanonicalDigits` | src/io/github/yannici/bedwars/Statistics/PlayerStatistic.java:73-74 | digits without a leading zero are exactly the digits of the number they denote |
| `Decimal.CanonicalRoundTrip` | src/io/github/yannici/bedwars/Statistics/PlayerStatistic.java:73-74 | a canonical numeral is the plain notation of its value, so a canonical string with a given value is unique |
| `Statistics.KDString` | src/io/github/yannici/bedwars/Statistics/PlayerStatistic.java:62-75 | "0.00" when deaths is 0, whatever kills is; "0.00" when only kills is 0; always a canonical numeral followed by ".00", whose number is Java's kills / deaths when deaths is non-zero (with `CanonicalRoundTrip` this fixes the whole string) |
| `Statistics.Scaled` | src/io/github/yannici/bedwars/Statistics/PlayerStatistic.java:73-74 | cutting ".00" off a scaled whole number gives back its canonical notation, which parses to the number; 0 reads "0.00" |
| `Statistics.PlayerStatistic.KD` | src/io/github/yannici/bedwars/Statistics/PlayerStatistic.java:62-75 | on the record's own counters: "0.00" when deaths or kills is 0; otherwise a canonical numeral of Java's kills / deaths followed by ".00" |
| `Statistics.PlayerStatistic.Player` | src/io/github/yannici/bedwars/Statistics/PlayerStatistic.java:36-38 | `getPlayer` returns the record's player, none for a record made by the no-argument constructor |
| `Statistics.PlayerStatistic.Kills` | src/io/github/yannici/bedwars/Statistics/PlayerStatistic.java:47-49 | returns the record's kills |
| `Statistics.PlayerStatistic.Deaths` | src/io/github/yannici/bedwars/Statistics/PlayerStatistic.java:58-60 | returns the record's deaths |
| `Statistics.PlayerStatistic.DestroyedBeds` | src/io/github/yannici/bedwars/Statistics/PlayerStatistic.java:84-86 | returns the record's destroyed beds |
| `Statistics.PlayerStatistic.Wins` | src/io/github/yannici/bedwars/Statistics/PlayerStatistic.java:95-97 | returns the record's wins |
| `Statistics.PlayerStatistic.Loses` | src/io/github/yannici/bedwars/Statistics/PlayerStatistic.java:106-108 | returns the record's loses |
| `Statistics.PlayerStatistic.Games` | src/io/github/yannici/bedwars/Statistics/PlayerStatistic.java:117-119 | returns the record's games |
| `Statistics.PlayerStatistic.Score` | src/io/github/yannici/bedwars/Statistics/PlayerStatistic.java:128-130 | returns the record's score |
| `Statistics.KDOfNonNegativeCounters` | src/io/github/yannici/bedwars/Statistics/PlayerStatistic.java:70-74 | for kills >= 0 and deaths > 0, the string is Dafny's kills / deaths followed by ".00" |
| `Statistics.KDTruncatesTowardZero` | src/io/github/yannici/bedwars/Statistics/PlayerStatistic.java:70-74 | 7 kills over -2 deaths read "-3.00" (truncation toward zero) |
| `Statistics.PlayerStatistic.constructor` | src/io/github/yannici/bedwars/Statistics/PlayerStatistic.java:15-28 | a new record has no player and all seven counters 0 |
| `Statistics.PlayerStatistic.Of` | src/io/github/yannici/bedwars/Statistics/PlayerStatistic.java:30-34 | a new record of a player has that player and all seven counters 0 |
| `Statistics.PlayerStatistic.SetKills` | src/io/github/yannici/bedwars/Statistics/PlayerStatistic.java:51-54 | the getter then returns the value set; no other counter and not the player changes |
| `Statistics.PlayerStatistic.SetDeaths` | src/io/github/yannici/bedwars/Statistics/PlayerStatistic.java:77-80 | the getter then returns the value set; no other counter and not the player changes |
| `Statistics.PlayerStatistic.SetDestroyedBeds` | src/io/github/yannici/bedwars/Statistics/PlayerStatistic.java:88-91 | the getter then returns the value set; no other counter and not the player changes |
| `Statistics.PlayerStatistic.SetWins` | src/io/github/yannici/bedwars/Statistics/PlayerStatistic.java:99-102 | the getter then returns the value set; no other counter and not the player changes |
| `Statistics.PlayerStatistic.SetLoses` | src/io/github/yannici/bedwars/Statistics/PlayerStatistic.java:110-113 | the getter then returns the value set; no other counter and not the player changes |
| `Statistics.PlayerStatistic.SetGames` | src/io/github/yannici/bedwars/Statistics/PlayerStatistic.java:121-124 | the getter then returns the value set; no other counter and not the player changes |
| `Statistics.PlayerStatistic.SetScore` | src/io/github/yannici/bedwars/Statistics/PlayerStatistic.java:132-135 | the getter then returns the value set; no other counter and not the player changes |
| `Statistics.PlayerStatistic.SetDefault` | src/io/github/yannici/bedwars/Statistics/PlayerStatistic.java:152-161 | all seven counters become 0 and the player is kept |
| `Statistics.SetDefaultIsIdempotent` | src/io/github/yannici/bedwars/Statistics/PlayerStatistic.java:152-161 | resetting a record that is already reset changes neither its counters nor its player |
| `Statistics.PlayerStatistic.KeyField` | src/io/github/yannici/bedwars/Statistics/PlayerStatistic.java:137-140 | the key column is "uuid" |
| `Statistics.PlayerStatistic.TableName` | src/io/github/yannici/bedwars/Statistics/PlayerStatistic.java:163-166 | the table is "stats_players", the same as the static `tableName` (line 13) |
| `Game.WinBonus` | src/io/github/yannici/bedwars/Game/GameCycle.java:61-63 | the configured "statistics.scores.win", or 50 when it is not configured |
| `Game.KillBonus` | src/io/github/yannici/bedwars/Game/GameCycle.java:202-204 | the configured "statistics.scores.kill", or 10 when it is not configured |
| `Game.DieBonus` | src/io/github/yannici/bedwars/Game/GameCycle.java:184-186 | the configured "statistics.scores.die", or 0 when it is not configured |
| `Game.StatOf` | src/io/github/yannici/bedwars/Game/GameCycle.java:58-59 | what `getStatistic` returns (model): the player's record, or an all-zero record when there is none |
| `Game.Win` | src/io/github/yannici/bedwars/Game/GameCycle.java:60-63 | wins+1 and score+bonus, with 32-bit wrap-around; every other counter is kept |
| `Game.Die` | src/io/github/yannici/bedwars/Game/GameCycle.java:183-186 | deaths+1 and score+death score, with 32-bit wrap-around; every other counter is kept |
| `Game.Kill` | src/io/github/yannici/bedwars/Game/GameCycle.java:201-204 | kills+1 and score+kill bonus, with 32-bit wrap-around; every other counter is kept |
| `Game.Lose` | src/io/github/yannici/bedwars/Game/GameCycle.java:116 | loses+1, with 32-bit wrap-around; every other counter is kept |
| `Game.CreditWins` | src/io/github/yannici/bedwars/Game/GameCycle.java:57-64 | the winners' loop ends with records for the old players plus every listed player (the exact credit is in `CreditWinsAt`) |
| `Game.StoreCalls` | src/io/github/yannici/bedwars/Game/GameCycle.java:67-71 | the store loop makes one `Store` call per listed player (which record each stores: `StoreCallsAt`) |
| `Game.DeathLedger` | src/io/github/yannici/bedwars/Game/GameCycle.java:177-205 | with statistics off, no record changes; no record but the victim's ever changes; with statistics on, the victim has a record afterwards (the deltas: `DeathLedgerEffect`) |
| `Game.AfterRunGameOver` | src/io/github/yannici/bedwars/Game/GameCycle.java:42-76 | a cancelled event leaves the state unchanged; otherwise the flag is set; with statistics off no record changes; earlier calls are kept |
| `Game.GameOverTrigger` | src/io/github/yannici/bedwars/Game/GameCycle.java:78-93 | the ending starts exactly when the plugin is enabled, no ending runs, and a winner is reported, no team player is left, or `isOverSet` holds; it starts with the reported winner or none |
| `Game.AfterCheckGameOver` | src/io/github/yannici/bedwars/Game/GameCycle.java:78-94 | nothing changes (not the flag, the ledger or the calls) when the plugin is disabled, an ending already runs, or the trigger does not fire; when it fires, the result is `runGameOver` with the winner `isOver` reports; the flag ends set exactly when it was set before, or the trigger fired and was not cancelled |
| `Game.AfterPlayerDies` | src/io/github/yannici/bedwars/Game/GameCycle.java:164-234 | no change while an ending runs; otherwise the death's statistics are applied and then `checkGameOver` runs, on every path |
| `Game.LeaveLocation` | src/io/github/yannici/bedwars/Game/GameCycle.java:133-149 | with main-lobby mode and a main lobby, the player goes to the lobby; otherwise exactly to the stored location when there is one, and nowhere set when there is none |
| `Game.AfterPlayerRespawn` | src/io/github/yannici/bedwars/Game/GameCycle.java:96-162 | the damager is cleared first, and the flag is kept. Without a team: a spectator goes to the spawn of the randomly drawn team, and nothing else changes. Live team: the player goes to the team spawn, and a protection is added iff the protection time is > 0. Dead team: +1 lose iff statistics are on; then `toSpectator` iff spectation is on, otherwise `playerLeave` |
| `Game.GameCycle.IsEndGameRunning` | src/io/github/yannici/bedwars/Game/GameCycle.java:240-242 | returns the controller's flag |
| `Game.GameCycle.constructor` | src/io/github/yannici/bedwars/Game/GameCycle.java:19-24 | a new controller holds the game, the flag is false, and no call has been made |
| `Game.GameCycle.SetEndGameRunning` | src/io/github/yannici/bedwars/Game/GameCycle.java:236-242 | the flag reads back as set; nothing else changes |
| `Game.GameCycle.RunGameOver` | src/io/github/yannici/bedwars/Game/GameCycle.java:42-76 | the new state is `AfterRunGameOver` of the old one; the game view is unchanged |
| `Game.GameCycle.CreditWinners` | src/io/github/yannici/bedwars/Game/GameCycle.java:56-65 | the loop leaves the ledger as `CreditWins` of the old ledger and the winner's players |
| `Game.GameCycle.StorePlayers` | src/io/github/yannici/bedwars/Game/GameCycle.java:67-71 | the loop appends exactly `StoreCalls` of the ledger and the game's players |
| `Game.GameCycle.CheckGameOver` | src/io/github/yannici/bedwars/Game/GameCycle.java:78-94 | the new state is `AfterCheckGameOver` of the old one |
| `Game.GameCycle.OnPlayerRespawn` | src/io/github/yannici/bedwars/Game/GameCycle.java:96-162 | the new state and the returned respawn location are `AfterPlayerRespawn` of the old state |
| `Game.GameCycle.OnPlayerDies` | src/io/github/yannici/bedwars/Game/GameCycle.java:164-234 | the new state is `AfterPlayerDies` of the old one |
| `GameProperties.StoreCallsAt` | src/io/github/yannici/bedwars/Game/GameCycle.java:67-71 | one `Store` per game player, in order, with that player's record at that time |
| `GameProperties.CreditWinsAt` | src/io/github/yannici/bedwars/Game/GameCycle.java:57-64 | for a winner list without repeats: each listed player gets exactly one `Win`; anyone else is unchanged; records are created only for listed players |
| `GameProperties.CreditWinsKeepsCounters` | src/io/github/yannici/bedwars/Game/GameCycle.java:57-64 | the winners' loop changes no counter except wins and score |
| `GameProperties.CreditWinsSkipsOthers` | src/io/github/yannici/bedwars/Game/GameCycle.java:57-64 | a player who is not listed keeps their whole record, even when the list has repeats |
| `GameProperties.GameOverCalls` | src/io/github/yannici/bedwars/Game/GameCycle.java:51-75 | an uncancelled ending makes its calls in order: stop the workers, one store per game player (with statistics on, none with them off) holding the final record, and exactly one countdown with the configured delay and the winner |
| `GameProperties.EndingCalls` | src/io/github/yannici/bedwars/Game/GameCycle.java:51-75 | the calls an ending appends are the stop of the workers, the stores in order, then the countdown, and they add exactly one countdown when no store is one |
| `GameProperties.EndingCallsCount` | src/io/github/yannici/bedwars/Game/GameCycle.java:51-75 | stop, stores without a countdown, then a countdown: exactly one countdown is added |
| `GameProperties.GameOverWithoutStatisticsStoresNothing` | src/io/github/yannici/bedwars/Game/GameCycle.java:55-72 | with statistics off, no record changes and nothing is stored |
| `GameProperties.GameOverCreditsWinners` | src/io/github/yannici/bedwars/Game/GameCycle.java:55-65 | with statistics on, each of the winner's players gets wins+1 and score+win bonus; every other player is unchanged |
| `GameProperties.GameOverWithoutWinnerCreditsNobody` | src/io/github/yannici/bedwars/Game/GameCycle.java:56 | an ending without a winner changes no record |
| `GameProperties.GameOverKeepsCounters` | src/io/github/yannici/bedwars/Game/GameCycle.java:55-65 | an ending changes only wins and score |
| `GameProperties.CheckGameOverKeepsCounters` | src/io/github/yannici/bedwars/Game/GameCycle.java:83-93 | a `checkGameOver` changes only wins and score |
| `GameProperties.DeathLedgerEffect` | src/io/github/yannici/bedwars/Game/GameCycle.java:177-205 | with statistics on: the victim gets deaths+1 and the death score; the victim's kills change iff there is no killer, and then also the kill bonus; no other record changes |
| `GameProperties.DeathWithoutStatistics` | src/io/github/yannici/bedwars/Game/GameCycle.java:177 | with statistics off, a death changes no record |
| `GameProperties.NoKillForAKiller` | src/io/github/yannici/bedwars/Game/GameCycle.java:211-233 | when a killer is given, no one's kills change, even through the ending the death may start |
| `GameProperties.DeathCountedOnce` | src/io/github/yannici/bedwars/Game/GameCycle.java:183 | with statistics on and no ending running, the victim's deaths rise by exactly one |
| `GameProperties.VictimCreditedWithOwnKill` | src/io/github/yannici/bedwars/Game/GameCycle.java:180-205 | with statistics on and whatever scores are configured, a death without a killer leaves a fresh victim with 1 kill and 1 death |
| `GameProperties.CheckKeepsEndingScheduled` | src/io/github/yannici/bedwars/Game/GameCycle.java:83-93 | `checkGameOver` keeps "one countdown is scheduled iff the flag is set" |
| `GameProperties.StepKeepsEndingScheduled` | src/io/github/yannici/bedwars/Game/GameCycle.java:78-234 | every event keeps that invariant |
| `GameProperties.RunKeepsEndingScheduled` | src/io/github/yannici/bedwars/Game/GameCycle.java:78-234 | any sequence of events keeps it |
| `GameProperties.EndingRunsAtMostOnce` | src/io/github/yannici/bedwars/Game/GameCycle.java:52 | from a fresh controller, any sequence of checks, deaths and respawns (with the game and configuration changing between them) schedules at most one countdown, and one has been scheduled exactly when the flag is set; events do not include `setEndGameRunning`, which can clear the flag |
| `GameProperties.NothingAfterEnding` | src/io/github/yannici/bedwars/Game/GameCycle.java:165-167 | once the ending runs, the flag stays set, and no later event stores or schedules anything |

## Left out

- Event dispatch: the game-over event is reduced to its `cancelled` outcome. The
  player-killed event and its listeners are not modelled.
- Chat broadcasts and localised messages are output only and are left out.
- `GameOverTask` and its countdown are not part of this model. Scheduling it is recorded
  as a call with the delay and the winner.
- The internals of `Game` are not part of this model: `isOver`, `getTeamPlayers`,
  `isOverSet`, `isDead`, `getPlayerTeam`, `isSpectator`, the player storage and the main
  lobby are values in `GameView`. `stopWorkers`, `setPlayerDamager(player, null)`,
  `addProtection` with `runProtection`, `toSpectator` and `playerLeave` are recorded
  calls. Their effect on the game is not modelled.
- The statistics manager is not part of this model. `getStatistic` is the ledger entry,
  and a player without one reads as all zero. Loading a record from storage is not
  modelled. The store loop does not add an entry for a player who has none.
- Statistics records in the controller are `Stat` values in a map, not shared
  `PlayerStatistic` objects. Aliasing between the two is not modelled. Both fetches in
  `onPlayerDies` are taken to return the victim's one cached record.
- Persistence is left out, because it is reflection and foreign storage: the database
  annotations, `load`, `store` (only recorded as a call) and `getUUID`, which turns the
  host player's unique id into a string.
- `getGame` and the abstract lifecycle hooks are left out. The hooks are implemented in
  subclasses that are not part of this model.
- The random team drawn for a spectator's respawn (`Utils.randInt`) is the parameter
  `randomIndex`. For an index outside the team list (an empty list), the model sets no
  location, where the host would fail.
- Exact locations are abstract tokens: a team's spawn, the stored location, and the main
  lobby.
- GameProperties.EndingRunsAtMostOnce: covers traces of checks, deaths and respawns only.
  A call to `setEndGameRunning(false)` (GameCycle.java:236-238) clears the flag and allows a
  second ending. The guarantee holds only while nothing clears the flag.
- Concurrency is not modelled. The code is single-threaded and the flag is a plain field.
- `getKD` goes through `double` and `BigDecimal`. It is modelled exactly with integers,
  because both only ever hold a whole 32-bit value.
- GameProperties.CreditWinsAt: gives each player's exact credit only for a winner list
  without repeats. A repeated player is credited once per occurrence, and only that no
  other counter and no other player changes is proved for that case.
- GameProperties.GameOverCreditsWinners: same restriction, for the same reason.
