/**
 * The game engine: holds the loaded player, validates and runs spins, and
 * saves the player after every change. The player store is represented by
 * the ghost field `saved`, the record the last save wrote.
 */
module Engine {
  import opened Wrappers
  import opened Config
  import opened Models
  import opened Services

  /**
   * Why a spin did not complete. `NoPlayerLoaded` and `InsufficientBalance`
   * refuse it before anything changes; `ZeroBetDivision` is the integer
   * division by the bet per line in the log line of each winning line,
   * which fails at a zero bet after the stake is taken and the spin counted.
   */
  datatype SpinError = NoPlayerLoaded | InsufficientBalance | ZeroBetDivision

  /**
   * Whether an accepted spin on `draws` stops at the log line of its winning
   * lines: the bet per line is 0 and at least one active payline wins.
   */
  predicate LogDividesByZero(betPerLine: int, numLines: int, draws: seq<SymbolType>)
    requires |draws| == NumReels * NumRows
  {
    ActivePaylinesFit(DrawnGrid(draws), numLines);
    betPerLine == 0 && Wins(DrawnGrid(draws), betPerLine, ActivePaylines(numLines)) != []
  }

  /** Fifteen wild draws at a zero bet on one line reach the failing division. */
  lemma AllWildZeroBetFails(draws: seq<SymbolType>)
    requires |draws| == NumReels * NumRows
    requires forall i :: 0 <= i < |draws| ==> draws[i] == Wild
    ensures LogDividesByZero(0, 1, draws)
  {
    var g := DrawnGrid(draws);
    assert forall r :: 0 <= r < NumReels ==> g[r][1] == Symbol(draws[r * NumRows + 1]);
    MiddleRowAllWildWinsAtAnyBet(g, 0);
  }

  /**
   * A spin that gets past the division pays nothing at a zero bet, and only a
   * zero bet can fail there.
   */
  lemma ZeroBetDivisionCases(betPerLine: int, numLines: int, draws: seq<SymbolType>)
    requires |draws| == NumReels * NumRows
    ensures LogDividesByZero(betPerLine, numLines, draws) ==> betPerLine == 0
    ensures betPerLine == 0 && !LogDividesByZero(betPerLine, numLines, draws) ==>
      AllFit(DrawnGrid(draws), ActivePaylines(numLines)) &&
      SumPayouts(Wins(DrawnGrid(draws), betPerLine, ActivePaylines(numLines))) == 0
  {
    ActivePaylinesFit(DrawnGrid(draws), numLines);
  }

  /** The player after a validated spin: stake taken, spin counted, and any positive payout credited. */
  function Settle(p: Player, totalBet: int, totalPayout: int): Player
  {
    var charged := p.Deduct(totalBet).RecordSpin();
    if totalPayout > 0 then charged.AddWinnings(totalPayout) else charged
  }

  /** The balance and statistics after a validated spin, field by field. */
  lemma SettleAccounting(p: Player, totalBet: int, totalPayout: int)
    ensures Settle(p, totalBet, totalPayout).balance == p.balance - totalBet + (if totalPayout > 0 then totalPayout else 0)
    ensures Settle(p, totalBet, totalPayout).id == p.id
    ensures Settle(p, totalBet, totalPayout).totalSpins == p.totalSpins + 1
    ensures Settle(p, totalBet, totalPayout).totalWins == p.totalWins + (if totalPayout > 0 then 1 else 0)
    ensures Settle(p, totalBet, totalPayout).biggestWin ==
      if totalPayout > 0 && totalPayout > p.biggestWin then totalPayout else p.biggestWin
  {
  }

  /** A spin the balance covers never leaves the balance below the balance minus the stake, nor below zero. */
  lemma SettleKeepsBalanceNonNegative(p: Player, totalBet: int, totalPayout: int)
    requires totalBet <= p.balance
    ensures Settle(p, totalBet, totalPayout).balance >= p.balance - totalBet >= 0
  {
  }

  /** Spinning keeps the statistics consistent: a win is always also a spin. */
  lemma SettlePreservesStats(p: Player, totalBet: int, totalPayout: int)
    requires StatsConsistent(p)
    ensures StatsConsistent(Settle(p, totalBet, totalPayout))
  {
  }

  /**
   * For a result with a non-negative payout, the balance moves by exactly the
   * result's net, and the win count moves exactly when the result is a win.
   */
  lemma SettleMatchesResult(p: Player, r: SpinResult)
    requires 0 <= r.totalPayout
    ensures Settle(p, r.betAmount, r.totalPayout).balance == p.balance + r.NetResult()
    ensures r.IsWin() <==> Settle(p, r.betAmount, r.totalPayout).totalWins == p.totalWins + 1
    ensures !r.IsWin() <==> Settle(p, r.betAmount, r.totalPayout).totalWins == p.totalWins
  {
  }

  /** The player after an administrative top-up of `amount`; no statistic changes. */
  function Credit(p: Player, amount: int): Player
  {
    Player(p.id, p.balance + amount, p.totalSpins, p.totalWins, p.biggestWin)
  }

  /** A top-up only moves the balance, is undone by deducting it again, and top-ups add up. */
  lemma CreditProperties(p: Player, a: int, b: int)
    ensures Credit(p, a).balance == p.balance + a
    ensures Credit(p, a).id == p.id && Credit(p, a).totalSpins == p.totalSpins
    ensures Credit(p, a).totalWins == p.totalWins && Credit(p, a).biggestWin == p.biggestWin
    ensures Credit(p, a).Deduct(a) == p
    ensures Credit(Credit(p, a), b) == Credit(p, a + b)
    ensures StatsConsistent(p) ==> StatsConsistent(Credit(p, a))
  {
  }

  /** The record the store hands back for `playerId`: what it read, or a fresh player with the default balance. */
  function LoadedPlayer(playerId: string, stored: Option<Player>): (p: Player)
    ensures stored.None? ==> p == NewPlayer(playerId, DefaultBalance)
    ensures stored.Some? ==> p == stored.value
  {
    if stored.Some? then stored.value else NewPlayer(playerId, DefaultBalance)
  }

  class GameEngine {
    /** The loaded player, if any. */
    var player: Option<Player>
    /** The record the player store holds, as last written by this engine. */
    ghost var saved: Option<Player>

    /** A fresh engine has no player loaded; the store holds whatever it held before. */
    constructor (ghost stored: Option<Player>)
      ensures player == None && saved == stored
    {
      player := None;
      saved := stored;
    }

    /** Loads `playerId` (by default "default") from the store, where `stored` is the record the store could read (None if missing or unreadable). */
    method LoadPlayer(stored: Option<Player>, playerId: string := "default") returns (p: Player)
      modifies this
      ensures p == LoadedPlayer(playerId, stored)
      ensures player == Some(p)
      ensures saved == old(saved)
    {
      p := LoadedPlayer(playerId, stored);
      player := Some(p);
    }

    /**
     * One spin at `betPerLine` on `numLines` lines; `draws` are the symbols
     * the random source yields for the grid, reel by reel. A refused spin
     * changes nothing; an accepted one charges the stake, counts the spin,
     * credits the payout of the grid it reports, and saves the player. At a
     * zero bet with a winning line the spin stops after counting the spin
     * and before saving, where the log line divides by the bet.
     */
    method Spin(betPerLine: int, numLines: int, draws: seq<SymbolType>) returns (r: Result<SpinResult, SpinError>)
      requires |draws| == NumReels * NumRows
      modifies this
      ensures old(player).None? ==>
        r == Failure(NoPlayerLoaded) && player == old(player) && saved == old(saved)
      ensures old(player).Some? && old(player).value.balance < betPerLine * numLines ==>
        r == Failure(InsufficientBalance) && player == old(player) && saved == old(saved)
      ensures (old(player).Some? && old(player).value.balance >= betPerLine * numLines &&
               LogDividesByZero(betPerLine, numLines, draws)) ==>
        && r == Failure(ZeroBetDivision)
        && player == Some(old(player).value.Deduct(betPerLine * numLines).RecordSpin())
        && saved == old(saved)
      ensures (old(player).Some? && old(player).value.balance >= betPerLine * numLines &&
               !LogDividesByZero(betPerLine, numLines, draws)) ==>
        && r.Success?
        && r.value.grid == DrawnGrid(draws)
        && WellShaped(r.value.grid)
        && (forall rr, c :: 0 <= rr < NumReels && 0 <= c < NumRows ==> r.value.grid[rr][c] == Symbol(draws[rr * NumRows + c]))
        && r.value.betAmount == betPerLine * numLines
        && r.value.winningLines == Wins(r.value.grid, betPerLine, ActivePaylines(numLines))
        && r.value.totalPayout == SumPayouts(r.value.winningLines)
        && player == Some(Settle(old(player).value, r.value.betAmount, r.value.totalPayout))
        && saved == player
      ensures (old(player).Some? && old(player).value.balance >= betPerLine * numLines &&
               !LogDividesByZero(betPerLine, numLines, draws)) ==>
        var before, after, payout := old(player).value, player.value, r.value.totalPayout;
        && after.id == before.id
        && after.balance == before.balance - betPerLine * numLines + (if payout > 0 then payout else 0)
        && after.balance >= 0
        && after.totalSpins == before.totalSpins + 1
        && after.totalWins == before.totalWins + (if payout > 0 then 1 else 0)
        && after.biggestWin == (if payout > 0 && payout > before.biggestWin then payout else before.biggestWin)
        && (0 <= betPerLine ==> after.balance == before.balance - r.value.betAmount + payout)
    {
      if player.None? {
        return Failure(NoPlayerLoaded);
      }

      var totalBet := betPerLine * numLines;
      if player.value.balance < totalBet {
        return Failure(InsufficientBalance);
      }
      ghost var before := player.value;

      player := Some(player.value.Deduct(totalBet));
      player := Some(player.value.RecordSpin());

      var grid := GenerateGrid(draws);
      var winningLines, totalPayout := Calculate(grid, betPerLine, numLines);
      if |winningLines| > 0 && betPerLine == 0 {
        // the log line of the first winning line divides its payout by the bet per line
        return Failure(ZeroBetDivision);
      }

      if totalPayout > 0 {
        player := Some(player.value.AddWinnings(totalPayout));
      }

      saved := player;

      SettleAccounting(before, totalBet, totalPayout);
      SettleKeepsBalanceNonNegative(before, totalBet, totalPayout);
      r := Success(SpinResult(grid, winningLines, totalPayout, totalBet));
    }

    /** The loaded player's balance, or 0 when no player is loaded. */
    function CurrentBalance(): (b: int)
      reads this
      ensures player.Some? ==> b == player.value.balance
      ensures player.None? ==> b == 0
    {
      if player.Some? then player.value.balance else 0
    }

    /** The loaded player's statistics by name, or the empty map when no player is loaded. */
    function PlayerStats(): (stats: map<string, int>)
      reads this
      ensures player.None? ==> stats == map[]
      ensures player.Some? ==> stats.Keys == {"total_spins", "total_wins", "biggest_win"}
      ensures player.Some? ==>
        && stats["total_spins"] == player.value.totalSpins
        && stats["total_wins"] == player.value.totalWins
        && stats["biggest_win"] == player.value.biggestWin
    {
      if player.None? then map[]
      else map["total_spins" := player.value.totalSpins,
               "total_wins" := player.value.totalWins,
               "biggest_win" := player.value.biggestWin]
    }

    /** Tops up the loaded player's balance by `amount` and saves; without a player nothing happens. */
    method AddCredits(amount: int)
      modifies this
      ensures old(player).None? ==> player == old(player) && saved == old(saved)
      ensures old(player).Some? ==> player == Some(Credit(old(player).value, amount)) && saved == player
      ensures old(player).Some? ==>
        && player.value.balance == old(player).value.balance + amount
        && player.value.id == old(player).value.id
        && player.value.totalSpins == old(player).value.totalSpins
        && player.value.totalWins == old(player).value.totalWins
        && player.value.biggestWin == old(player).value.biggestWin
    {
      if player.Some? {
        player := Some(Credit(player.value, amount));
        saved := player;
      }
    }
  }
}
