/**
 * A player's statistics record: seven 32-bit counters, the derived kill/death string and
 * the names of the storage table and its key column.
 */
module Statistics {
  import opened Wrappers
  import opened JavaInt
  import opened Decimal

  /** The unique id of a player; the host's player objects are reduced to it. */
  type PlayerId = string

  /** The values of the seven counters of one record. */
  datatype Stat = Stat(
    kills: int32,
    deaths: int32,
    destroyedBeds: int32,
    wins: int32,
    loses: int32,
    games: int32,
    score: int32)

  /** The counters of a record nobody has touched yet. */
  const ZERO: Stat := Stat(0, 0, 0, 0, 0, 0, 0)

  /** The static `tableName` of the record class. */
  const TABLE_NAME: string := "stats_players"

  /** The characters `BigDecimal` adds to a whole number set to scale 2. */
  const SCALE_SUFFIX: string := ".00"

  /**
   * The value of `getKD`: the Java quotient of kills by deaths (0 when either is 0),
   * turned into a double, then into a `BigDecimal` of scale 2 and written in plain
   * notation. The quotient is integral, so the two decimals are always "00".
   */
  function KDString(s: Stat): (r: string)
    ensures s.deaths == 0 ==> r == "0.00"
    ensures s.deaths != 0 && s.kills == 0 ==> r == "0.00"
    ensures |r| >= 4 && r[|r| - 3..] == SCALE_SUFFIX
    ensures Canonical(r[..|r| - 3])
    ensures s.deaths != 0 ==> ParseInt(r[..|r| - 3]) == Div(s.kills, s.deaths) as int
  {
    var kd: int32 :=
      if s.deaths == 0 then s.deaths
      else if s.kills == 0 then 0
      else Div(s.kills, s.deaths);
    Scaled(kd as int);
    assert s.kills == 0 && s.deaths != 0 ==> Div(s.kills, s.deaths) == 0;
    IntToString(kd as int) + SCALE_SUFFIX
  }

  /** A whole number with the scale suffix: the suffix can be cut off again, leaving the number's notation. */
  lemma Scaled(n: int)
    ensures var r := IntToString(n) + SCALE_SUFFIX;
      |r| >= 4 && r[|r| - 3..] == SCALE_SUFFIX && r[..|r| - 3] == IntToString(n) &&
      Canonical(r[..|r| - 3]) && ParseInt(r[..|r| - 3]) == n
    ensures n == 0 ==> IntToString(n) + SCALE_SUFFIX == "0.00"
  {
    var r := IntToString(n) + SCALE_SUFFIX;
    assert r[..|r| - 3] == IntToString(n);
    IntToStringRoundTrip(n);
    assert n == 0 ==> IntToString(n) == "0";
  }

  /** For the counters the game produces (never negative) the ratio is Dafny's quotient. */
  lemma KDOfNonNegativeCounters(s: Stat)
    requires s.kills >= 0 && s.deaths > 0
    ensures KDString(s) == IntToString(s.kills as int / s.deaths as int) + SCALE_SUFFIX
  {
    QuotOfNonNegative(s.kills as int, s.deaths as int);
  }

  /** Negative quotients are truncated toward zero: 7 kills over -2 deaths read "-3.00". */
  lemma KDTruncatesTowardZero()
    ensures KDString(Stat(7, -2, 0, 0, 0, 0, 0)) == "-3.00"
  {
    var s := Stat(7, -2, 0, 0, 0, 0, 0);
    assert Abs(7) / Abs(-2) == 3;
    assert Div(s.kills, s.deaths) == -3;
    assert Digits(3) == "3";
  }

  /** The statistics record of one player, updated in place by its setters. */
  class PlayerStatistic {
    var player: Option<PlayerId>
    var kills: int32
    var deaths: int32
    var destroyedBeds: int32
    var wins: int32
    var loses: int32
    var games: int32
    var score: int32

    /** The seven counters as one value. */
    function Counters(): Stat
      reads this
    {
      Stat(kills, deaths, destroyedBeds, wins, loses, games, score)
    }

    /** A record without a player. */
    constructor ()
      ensures player == None && Counters() == ZERO
    {
      player := None;
      kills, deaths, destroyedBeds, wins, loses, games, score := 0, 0, 0, 0, 0, 0, 0;
    }

    /** A record of player `p`. */
    constructor Of(p: PlayerId)
      ensures player == Some(p) && Counters() == ZERO
    {
      player := Some(p);
      kills, deaths, destroyedBeds, wins, loses, games, score := 0, 0, 0, 0, 0, 0, 0;
    }

    /** `getPlayer`: the record's player, none for a record made without one. */
    function Player(): (r: Option<PlayerId>)
      reads this
      ensures r == player
    {
      player
    }

    function Kills(): (r: int32)
      reads this
      ensures r == Counters().kills
    {
      kills
    }

    function Deaths(): (r: int32)
      reads this
      ensures r == Counters().deaths
    {
      deaths
    }

    function DestroyedBeds(): (r: int32)
      reads this
      ensures r == Counters().destroyedBeds
    {
      destroyedBeds
    }

    function Wins(): (r: int32)
      reads this
      ensures r == Counters().wins
    {
      wins
    }

    function Loses(): (r: int32)
      reads this
      ensures r == Counters().loses
    {
      loses
    }

    function Games(): (r: int32)
      reads this
      ensures r == Counters().games
    {
      games
    }

    function Score(): (r: int32)
      reads this
      ensures r == Counters().score
    {
      score
    }


    method SetKills(v: int32)
      modifies this
      ensures Kills() == v
      ensures Counters() == old(Counters()).(kills := v) && player == old(player)
    {
      kills := v;
    }

    method SetDeaths(v: int32)
      modifies this
      ensures Deaths() == v
      ensures Counters() == old(Counters()).(deaths := v) && player == old(player)
    {
      deaths := v;
    }

    method SetDestroyedBeds(v: int32)
      modifies this
      ensures DestroyedBeds() == v
      ensures Counters() == old(Counters()).(destroyedBeds := v) && player == old(player)
    {
      destroyedBeds := v;
    }

    method SetWins(v: int32)
      modifies this
      ensures Wins() == v
      ensures Counters() == old(Counters()).(wins := v) && player == old(player)
    {
      wins := v;
    }

    method SetLoses(v: int32)
      modifies this
      ensures Loses() == v
      ensures Counters() == old(Counters()).(loses := v) && player == old(player)
    {
      loses := v;
    }

    method SetGames(v: int32)
      modifies this
      ensures Games() == v
      ensures Counters() == old(Counters()).(games := v) && player == old(player)
    {
      games := v;
    }

    method SetScore(v: int32)
      modifies this
      ensures Score() == v
      ensures Counters() == old(Counters()).(score := v) && player == old(player)
    {
      score := v;
    }

    /** `getKD`, on the record's current counters. */
    function KD(): (r: string)
      reads this
      ensures Deaths() == 0 || Kills() == 0 ==> r == "0.00"
      ensures |r| >= 4 && r[|r| - 3..] == SCALE_SUFFIX && Canonical(r[..|r| - 3])
      ensures Deaths() != 0 ==> ParseInt(r[..|r| - 3]) == Div(Kills(), Deaths()) as int
    {
      KDString(Counters())
    }

    /** All seven counters back to 0; the player stays. */
    method SetDefault()
      modifies this
      ensures Counters() == ZERO && player == old(player)
    {
      kills := 0;
      deaths := 0;
      destroyedBeds := 0;
      games := 0;
      loses := 0;
      wins := 0;
      score := 0;
    }

    /** The key column of the storage table. */
    function KeyField(): (r: string)
      ensures r == "uuid"
    {
      "uuid"
    }

    /** The storage table, the same as the static table name. */
    function TableName(): (r: string)
      ensures r == TABLE_NAME && r == "stats_players"
    {
      "stats_players"
    }
  }

  /** Resetting a record that is already reset changes nothing. */
  method SetDefaultIsIdempotent(s: PlayerStatistic)
    requires s.Counters() == ZERO
    modifies s
    ensures s.Counters() == old(s.Counters()) && s.player == old(s.player)
  {
    s.SetDefault();
  }
}
