/**
 * Properties of the game-cycle transitions: what the end-of-match sequence credits and
 * stores, who is credited on a death, and that over any sequence of events the ending
 * is scheduled at most once.
 */
module GameProperties {
  import opened Wrappers
  import opened JavaInt
  import opened Statistics
  import opened Game

  predicate Distinct(ps: seq<PlayerId>)
  {
    forall i, j :: 0 <= i < j < |ps| ==> ps[i] != ps[j]
  }

  /** The number of game-over tasks scheduled in `calls`. */
  function CountSchedules(calls: seq<HostCall>): nat
    decreases |calls|
  {
    if |calls| == 0 then 0
    else CountSchedules(calls[..|calls| - 1]) + (if calls[|calls| - 1].ScheduleGameOver? then 1 else 0)
  }

  lemma {:induction false} CountSchedulesAppend(a: seq<HostCall>, b: seq<HostCall>)
    ensures CountSchedules(a + b) == CountSchedules(a) + CountSchedules(b)
    decreases |b|
  {
    if |b| == 0 {
      assert a + b == a;
    } else {
      CountSchedulesAppend(a, b[..|b| - 1]);
      assert (a + b)[..|a + b| - 1] == a + b[..|b| - 1];
    }
  }

  lemma {:induction false} CountSchedulesNone(calls: seq<HostCall>)
    requires forall k :: 0 <= k < |calls| ==> !calls[k].ScheduleGameOver?
    ensures CountSchedules(calls) == 0
    decreases |calls|
  {
    if |calls| > 0 {
      CountSchedulesNone(calls[..|calls| - 1]);
    }
  }

  /** The store loop makes one `Store` per player, in the game's order, with the record as it then is. */
  lemma {:induction false} StoreCallsAt(l: map<PlayerId, Stat>, ps: seq<PlayerId>)
    ensures |StoreCalls(l, ps)| == |ps|
    ensures forall k :: 0 <= k < |ps| ==> StoreCalls(l, ps)[k] == Store(ps[k], StatOf(l, ps[k]))
    decreases |ps|
  {
    if |ps| > 0 {
      StoreCallsAt(l, ps[..|ps| - 1]);
    }
  }

  /**
   * The winners' loop credits each listed player once, leaves every other player's
   * record as it was, and creates records only for listed players.
   */
  lemma {:induction false} CreditWinsAt(l: map<PlayerId, Stat>, ps: seq<PlayerId>, bonus: int32, q: PlayerId)
    requires Distinct(ps)
    ensures q !in ps ==> StatOf(CreditWins(l, ps, bonus), q) == StatOf(l, q)
    ensures q in ps ==> StatOf(CreditWins(l, ps, bonus), q) == Win(StatOf(l, q), bonus)
    ensures q in CreditWins(l, ps, bonus) <==> q in l || q in ps
    decreases |ps|
  {
    if |ps| > 0 {
      var init := ps[..|ps| - 1];
      assert Distinct(init);
      CreditWinsAt(l, init, bonus, q);
      if q == ps[|ps| - 1] {
        assert q !in init;
      } else {
        assert q in ps <==> q in init;
      }
    }
  }

  /** The winners' loop touches no counter but wins and score, whoever is listed. */
  lemma {:induction false} CreditWinsKeepsCounters(l: map<PlayerId, Stat>, ps: seq<PlayerId>, bonus: int32, q: PlayerId)
    ensures var a, b := StatOf(CreditWins(l, ps, bonus), q), StatOf(l, q);
      a.kills == b.kills && a.deaths == b.deaths && a.destroyedBeds == b.destroyedBeds &&
      a.loses == b.loses && a.games == b.games
    decreases |ps|
  {
    if |ps| > 0 {
      CreditWinsKeepsCounters(l, ps[..|ps| - 1], bonus, q);
    }
  }

  /** A player the winners' loop does not list keeps all counters, wins included. */
  lemma {:induction false} CreditWinsSkipsOthers(l: map<PlayerId, Stat>, ps: seq<PlayerId>, bonus: int32, q: PlayerId)
    requires q !in ps
    ensures StatOf(CreditWins(l, ps, bonus), q) == StatOf(l, q)
    decreases |ps|
  {
    if |ps| > 0 {
      CreditWinsSkipsOthers(l, ps[..|ps| - 1], bonus, q);
    }
  }

  /**
   * An ending that is not cancelled makes its calls in this order: stop the workers,
   * store every game player (only with statistics on), schedule the countdown once.
   */
  lemma GameOverCalls(s: CycleState, g: GameView, h: Host, winner: Option<Team>)
    ensures var r := AfterRunGameOver(s, g, h, winner, false);
      var added := r.calls[|s.calls|..];
      var n := if h.statisticsEnabled then |g.players| else 0;
      |added| == n + 2 && added[0] == StopWorkers &&
      added[n + 1] == ScheduleGameOver(h.gameOverDelay, winner) &&
      (forall k :: 0 <= k < n ==> added[k + 1] == Store(g.players[k], StatOf(r.ledger, g.players[k]))) &&
      CountSchedules(r.calls) == CountSchedules(s.calls) + 1
  {
    var r := AfterRunGameOver(s, g, h, winner, false);
    var l := r.ledger;
    var stores := if h.statisticsEnabled then StoreCalls(l, g.players) else [];
    StoreCallsAt(l, g.players);
    assert r.calls == s.calls + [StopWorkers] + stores + [ScheduleGameOver(h.gameOverDelay, winner)];
    EndingCalls(s.calls, stores, ScheduleGameOver(h.gameOverDelay, winner));
  }

  /** The calls an ending appends: the workers stop, the stores follow, the countdown comes last. */
  lemma EndingCalls(before: seq<HostCall>, stores: seq<HostCall>, last: HostCall)
    requires forall k :: 0 <= k < |stores| ==> !stores[k].ScheduleGameOver?
    requires last.ScheduleGameOver?
    ensures var added := (before + [StopWorkers] + stores + [last])[|before|..];
      |added| == |stores| + 2 && added[0] == StopWorkers && added[|stores| + 1] == last &&
      forall k :: 0 <= k < |stores| ==> added[k + 1] == stores[k]
    ensures CountSchedules(before + [StopWorkers] + stores + [last]) == CountSchedules(before) + 1
  {
    var added := [StopWorkers] + stores + [last];
    assert (before + [StopWorkers] + stores + [last])[|before|..] == added;
    CountSchedulesNone(stores);
    EndingCallsCount(before, stores, last);
  }

  /** Ending calls with no countdown among the stores schedule exactly one countdown. */
  lemma EndingCallsCount(before: seq<HostCall>, stores: seq<HostCall>, last: HostCall)
    requires CountSchedules(stores) == 0
    requires last.ScheduleGameOver?
    ensures CountSchedules(before + [StopWorkers] + stores + [last]) == CountSchedules(before) + 1
  {
    var upTo := before + [StopWorkers] + stores;
    assert (upTo + [last])[..|upTo + [last]| - 1] == upTo;
    CountSchedulesAppend(before + [StopWorkers], stores);
    CountSchedulesAppend(before, [StopWorkers]);
    assert [StopWorkers][..0] == [];
  }

  /** Without statistics the ending stores nothing. */
  lemma GameOverWithoutStatisticsStoresNothing(s: CycleState, g: GameView, h: Host, winner: Option<Team>, cancelled: bool)
    requires !h.statisticsEnabled
    ensures var r := AfterRunGameOver(s, g, h, winner, cancelled);
      r.ledger == s.ledger && forall k :: |s.calls| <= k < |r.calls| ==> !r.calls[k].Store?
  {
    if !cancelled {
      GameOverCalls(s, g, h, winner);
    }
  }

  /**
   * With statistics on and a winner whose player list has no repeats, each of its players
   * gets one more win and the win bonus; every other record is unchanged.
   */
  lemma GameOverCreditsWinners(s: CycleState, g: GameView, h: Host, winner: Team, q: PlayerId)
    requires h.statisticsEnabled && Distinct(winner.players)
    ensures var r := AfterRunGameOver(s, g, h, Some(winner), false);
      StatOf(r.ledger, q) == if q in winner.players then Win(StatOf(s.ledger, q), WinBonus(h)) else StatOf(s.ledger, q)
  {
    CreditWinsAt(s.ledger, winner.players, WinBonus(h), q);
  }

  /** A drawn game (no winner) credits nobody. */
  lemma GameOverWithoutWinnerCreditsNobody(s: CycleState, g: GameView, h: Host, cancelled: bool)
    ensures AfterRunGameOver(s, g, h, None, cancelled).ledger == s.ledger
  {
  }

  /** Whatever an ending credits, it changes only wins and score. */
  lemma GameOverKeepsCounters(s: CycleState, g: GameView, h: Host, winner: Option<Team>, cancelled: bool, q: PlayerId)
    ensures var a, b := StatOf(AfterRunGameOver(s, g, h, winner, cancelled).ledger, q), StatOf(s.ledger, q);
      a.kills == b.kills && a.deaths == b.deaths && a.destroyedBeds == b.destroyedBeds &&
      a.loses == b.loses && a.games == b.games
  {
    if !cancelled && h.statisticsEnabled && winner.Some? {
      CreditWinsKeepsCounters(s.ledger, winner.value.players, WinBonus(h), q);
    }
  }

  /** The same for a `checkGameOver`, which runs an ending or nothing. */
  lemma CheckGameOverKeepsCounters(s: CycleState, g: GameView, h: Host, cancelled: bool, q: PlayerId)
    ensures var a, b := StatOf(AfterCheckGameOver(s, g, h, cancelled).ledger, q), StatOf(s.ledger, q);
      a.kills == b.kills && a.deaths == b.deaths && a.destroyedBeds == b.destroyedBeds &&
      a.loses == b.loses && a.games == b.games
  {
    match GameOverTrigger(g, h, s.endGameRunning)
    case None =>
    case Some(winner) => GameOverKeepsCounters(s, g, h, winner, cancelled, q);
  }

  /**
   * The statistics of a death: the victim's deaths and score always move; the victim's
   * kills move exactly when no killer is given; nobody else's record changes.
   */
  lemma DeathLedgerEffect(l: map<PlayerId, Stat>, h: Host, victim: PlayerId, killer: Option<PlayerId>, q: PlayerId)
    requires h.statisticsEnabled
    ensures var after, before := StatOf(DeathLedger(l, h, victim, killer), q), StatOf(l, q);
      (q != victim ==> after == before) &&
      (q == victim ==> after.deaths == Add(before.deaths, 1)) &&
      (q == victim ==> (after.kills != before.kills <==> killer.None?)) &&
      (q == victim && killer.None? ==> after == Kill(Die(before, DieBonus(h)), KillBonus(h))) &&
      (q == victim && killer.Some? ==> after == Die(before, DieBonus(h)))
  {
    AddOneChanges(StatOf(l, q).kills);
  }

  /** With statistics off, a death changes no record. */
  lemma DeathWithoutStatistics(l: map<PlayerId, Stat>, h: Host, victim: PlayerId, killer: Option<PlayerId>)
    requires !h.statisticsEnabled
    ensures DeathLedger(l, h, victim, killer) == l
  {
  }

  /**
   * A death with a real killer credits nobody a kill, not even through the ending it may
   * start.
   */
  lemma NoKillForAKiller(s: CycleState, g: GameView, h: Host, victim: PlayerId, killer: PlayerId, cancelled: bool, q: PlayerId)
    ensures StatOf(AfterPlayerDies(s, g, h, victim, Some(killer), cancelled).ledger, q).kills == StatOf(s.ledger, q).kills
  {
    if !s.endGameRunning {
      var died := s.(ledger := DeathLedger(s.ledger, h, victim, Some(killer)));
      CheckGameOverKeepsCounters(died, g, h, cancelled, q);
    }
  }

  /** While no ending runs and statistics are on, a death counts once in the victim's deaths. */
  lemma DeathCountedOnce(s: CycleState, g: GameView, h: Host, victim: PlayerId, killer: Option<PlayerId>, cancelled: bool)
    requires !s.endGameRunning && h.statisticsEnabled
    ensures StatOf(AfterPlayerDies(s, g, h, victim, killer, cancelled).ledger, victim).deaths
      == Add(StatOf(s.ledger, victim).deaths, 1)
  {
    var died := s.(ledger := DeathLedger(s.ledger, h, victim, killer));
    CheckGameOverKeepsCounters(died, g, h, cancelled, victim);
  }

  /** A death without a killer credits the victim, whose record was fresh, with a kill. */
  lemma VictimCreditedWithOwnKill(s: CycleState, g: GameView, h: Host, victim: PlayerId, cancelled: bool)
    requires !s.endGameRunning && h.statisticsEnabled
    requires StatOf(s.ledger, victim) == ZERO
    ensures var v := StatOf(AfterPlayerDies(s, g, h, victim, None, cancelled).ledger, victim);
      v.kills == 1 && v.deaths == 1
  {
    var died := s.(ledger := DeathLedger(s.ledger, h, victim, None));
    DeathLedgerEffect(s.ledger, h, victim, None, victim);
    CheckGameOverKeepsCounters(died, g, h, cancelled, victim);
  }

  /** An event delivered to the controller, with the game and host as they are at that moment. */
  datatype Event =
    | Check(g: GameView, h: Host, cancelled: bool)
    | Death(g: GameView, h: Host, victim: PlayerId, killer: Option<PlayerId>, cancelled: bool)
    | Respawn(g: GameView, h: Host, player: PlayerId, randomIndex: int)

  function Step(s: CycleState, e: Event): CycleState
  {
    match e
    case Check(g, h, cancelled) => AfterCheckGameOver(s, g, h, cancelled)
    case Death(g, h, victim, killer, cancelled) => AfterPlayerDies(s, g, h, victim, killer, cancelled)
    case Respawn(g, h, player, randomIndex) => AfterPlayerRespawn(s, g, h, player, randomIndex).state
  }

  function Run(s: CycleState, es: seq<Event>): CycleState
    decreases |es|
  {
    if |es| == 0 then s else Run(Step(s, es[0]), es[1..])
  }

  /** One countdown has been scheduled exactly when the ending runs, none before. */
  predicate EndingScheduled(s: CycleState)
  {
    CountSchedules(s.calls) == if s.endGameRunning then 1 else 0
  }

  lemma CheckKeepsEndingScheduled(s: CycleState, g: GameView, h: Host, cancelled: bool)
    requires EndingScheduled(s)
    ensures EndingScheduled(AfterCheckGameOver(s, g, h, cancelled))
  {
    match GameOverTrigger(g, h, s.endGameRunning)
    case None =>
    case Some(winner) =>
      if !cancelled {
        GameOverCalls(s, g, h, winner);
      }
  }

  lemma StepKeepsEndingScheduled(s: CycleState, e: Event)
    requires EndingScheduled(s)
    ensures EndingScheduled(Step(s, e))
  {
    match e
    case Check(g, h, cancelled) =>
      CheckKeepsEndingScheduled(s, g, h, cancelled);
    case Death(g, h, victim, killer, cancelled) =>
      if !s.endGameRunning {
        CheckKeepsEndingScheduled(s.(ledger := DeathLedger(s.ledger, h, victim, killer)), g, h, cancelled);
      }
    case Respawn(g, h, player, randomIndex) =>
      var r := AfterPlayerRespawn(s, g, h, player, randomIndex).state;
      var added := r.calls[|s.calls|..];
      assert r.calls == s.calls + added;
      assert forall k :: 0 <= k < |added| ==> !added[k].ScheduleGameOver?;
      CountSchedulesNone(added);
      CountSchedulesAppend(s.calls, added);
  }

  lemma {:induction false} RunKeepsEndingScheduled(s: CycleState, es: seq<Event>)
    requires EndingScheduled(s)
    ensures EndingScheduled(Run(s, es))
    decreases |es|
  {
    if |es| > 0 {
      StepKeepsEndingScheduled(s, es[0]);
      RunKeepsEndingScheduled(Step(s, es[0]), es[1..]);
    }
  }

  /**
   * From a fresh controller, whatever deaths, respawns and checks follow, and however the
   * game and configuration change meanwhile, the countdown is scheduled at most once and
   * it has been scheduled once the flag is set.
   */
  lemma EndingRunsAtMostOnce(ledger: map<PlayerId, Stat>, es: seq<Event>)
    ensures var r := Run(CycleState(false, ledger, []), es);
      CountSchedules(r.calls) <= 1 && (r.endGameRunning <==> CountSchedules(r.calls) == 1)
  {
    RunKeepsEndingScheduled(CycleState(false, ledger, []), es);
  }

  /** Once the ending runs, the flag stays set and no event stores statistics or schedules again. */
  lemma {:induction false} NothingAfterEnding(s: CycleState, es: seq<Event>)
    requires s.endGameRunning
    ensures var r := Run(s, es);
      r.endGameRunning && |r.calls| >= |s.calls| && r.calls[..|s.calls|] == s.calls &&
      forall k :: |s.calls| <= k < |r.calls| ==> !r.calls[k].Store? && !r.calls[k].ScheduleGameOver?
    decreases |es|
  {
    if |es| > 0 {
      var t := Step(s, es[0]);
      assert |t.calls| >= |s.calls| && t.calls[..|s.calls|] == s.calls;
      assert forall k :: |s.calls| <= k < |t.calls| ==> !t.calls[k].Store? && !t.calls[k].ScheduleGameOver?;
      NothingAfterEnding(t, es[1..]);
      var r := Run(t, es[1..]);
      assert r == Run(s, es);
      forall k | |s.calls| <= k < |r.calls|
        ensures !r.calls[k].Store? && !r.calls[k].ScheduleGameOver?
      {
        if k < |t.calls| {
          assert r.calls[k] == r.calls[..|t.calls|][k] == t.calls[k];
        }
      }
    }
  }
}
