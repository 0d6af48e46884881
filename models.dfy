/**
 * Domain values: symbols, grids, paylines, win lines, spin results and
 * the player record, which is replaced by a new value on every update.
 */
module Models {
  import opened Config

  /** One cell of the grid. */
  datatype Symbol = Symbol(kind: SymbolType) {
    predicate IsWild() {
      kind == Wild
    }
  }

  /** Exactly one of the enumerated symbol types, the last one, is wild. */
  lemma ExactlyOneWild()
    ensures forall i :: 0 <= i < |AllSymbolTypes| ==> (Symbol(AllSymbolTypes[i]).IsWild() <==> i == |AllSymbolTypes| - 1)
    ensures forall t :: Symbol(t).IsWild() ==> t == Wild
  {
    SymbolSetEnumerated();
  }

  /** A grid is indexed `grid[reel][row]`. */
  type Grid = seq<seq<Symbol>>

  /** The shape every generated grid has: five reels of three rows. */
  predicate WellShaped(g: Grid) {
    |g| == NumReels && forall r :: 0 <= r < |g| ==> |g[r]| == NumRows
  }

  /** A payline: its 1-based id and the row it reads on each reel. */
  datatype Payline = Payline(id: int, positions: seq<int>) {

    /** Every position names an existing cell of `g`. */
    predicate FitsGrid(g: Grid) {
      |positions| <= |g| && forall i :: 0 <= i < |positions| ==> 0 <= positions[i] < |g[i]|
    }

    /** The symbols along this payline, one per reel. */
    function SymbolsFromGrid(g: Grid): (s: seq<Symbol>)
      requires FitsGrid(g)
      ensures |s| == |positions|
      ensures forall i :: 0 <= i < |s| ==> s[i] == g[i][positions[i]]
    {
      seq(|positions|, i requires 0 <= i < |positions| => g[i][positions[i]])
    }
  }

  /** A winning payline: which line, which symbol, how many in a row, and what it pays. */
  datatype WinLine = WinLine(paylineId: int, symbolType: SymbolType, matchCount: int, payout: int)

  /** The outcome of one spin. */
  datatype SpinResult = SpinResult(grid: Grid, winningLines: seq<WinLine>, totalPayout: int, betAmount: int) {
    predicate IsWin() {
      totalPayout > 0
    }

    function NetResult(): int {
      totalPayout - betAmount
    }
  }

  /** The player's balance and statistics. */
  datatype Player = Player(id: string, balance: int, totalSpins: int, totalWins: int, biggestWin: int) {

    /** The same player with `amount` taken off the balance. */
    function Deduct(amount: int): (p: Player)
      ensures p.balance == balance - amount
      ensures p.id == id && p.totalSpins == totalSpins && p.totalWins == totalWins && p.biggestWin == biggestWin
    {
      Player(id, balance - amount, totalSpins, totalWins, biggestWin)
    }

    /** The same player credited with `amount` won; a positive amount counts as a win. */
    function AddWinnings(amount: int): (p: Player)
      ensures p.balance == balance + amount
      ensures p.totalWins == if amount > 0 then totalWins + 1 else totalWins
      ensures p.biggestWin >= biggestWin && p.biggestWin >= amount
      ensures p.biggestWin == biggestWin || p.biggestWin == amount
      ensures p.id == id && p.totalSpins == totalSpins
    {
      Player(id, balance + amount, totalSpins,
             totalWins + (if amount > 0 then 1 else 0),
             if biggestWin >= amount then biggestWin else amount)
    }

    /** The same player with one more spin counted. */
    function RecordSpin(): (p: Player)
      ensures p.totalSpins == totalSpins + 1
      ensures p.id == id && p.balance == balance && p.totalWins == totalWins && p.biggestWin == biggestWin
    {
      Player(id, balance, totalSpins + 1, totalWins, biggestWin)
    }
  }

  /** A fresh player record: the given balance and all statistics at their defaults of zero. */
  function NewPlayer(id: string, balance: int): (p: Player)
    ensures p.id == id && p.balance == balance
    ensures p.totalSpins == 0 && p.totalWins == 0 && p.biggestWin == 0
  {
    Player(id, balance, 0, 0, 0)
  }

  /** Statistics that can arise from play: wins never outnumber spins, and nothing is negative. */
  predicate StatsConsistent(p: Player) {
    0 <= p.totalWins <= p.totalSpins && 0 <= p.biggestWin
  }

  /** Crediting back exactly what was deducted restores the balance; only the win statistics may move. */
  lemma DeductThenWinBack(p: Player, amount: int)
    ensures p.Deduct(amount).AddWinnings(amount).balance == p.balance
    ensures p.Deduct(amount).AddWinnings(amount) == p.AddWinnings(amount).Deduct(amount)
    ensures amount <= 0 && amount <= p.biggestWin ==> p.Deduct(amount).AddWinnings(amount) == p
  {
  }

  /** Counting a spin commutes with both balance updates. */
  lemma RecordSpinCommutes(p: Player, amount: int)
    ensures p.Deduct(amount).RecordSpin() == p.RecordSpin().Deduct(amount)
    ensures p.AddWinnings(amount).RecordSpin() == p.RecordSpin().AddWinnings(amount)
  {
  }

  /** The win statistics of a record only ever grow. */
  lemma AddWinningsMonotone(p: Player, amount: int)
    ensures p.AddWinnings(amount).totalWins >= p.totalWins
    ensures p.AddWinnings(amount).biggestWin >= p.biggestWin
    ensures StatsConsistent(p) && amount <= 0 ==> StatsConsistent(p.AddWinnings(amount))
  {
  }
}
