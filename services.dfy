/**
 * The game logic: filling a grid from weighted draws, and evaluating the
 * active paylines of a grid into win lines and a total payout.
 */
module Services {
  import opened Wrappers
  import opened Config
  import opened Models

  // ---------------------------------------------------------------------
  // Reel generation
  // ---------------------------------------------------------------------

  /** The weights handed to the sampler, aligned with `AllSymbolTypes`. */
  function ReelWeights(): (w: seq<int>)
    ensures |w| == |AllSymbolTypes|
    ensures forall i :: 0 <= i < |w| ==> w[i] > 0 && w[i] == SymbolWeights[AllSymbolTypes[i]]
  {
    WeightsPositive();
    seq(|AllSymbolTypes|, i requires 0 <= i < |AllSymbolTypes| => SymbolWeights[AllSymbolTypes[i]])
  }

  /** The grid a sequence of draws fills: reel `r`, row `c` holds draw number `r * NumRows + c`. */
  function DrawnGrid(draws: seq<SymbolType>): (g: Grid)
    requires |draws| == NumReels * NumRows
    ensures WellShaped(g)
    ensures forall r, c :: 0 <= r < NumReels && 0 <= c < NumRows ==> g[r][c] == Symbol(draws[r * NumRows + c])
  {
    seq(NumReels, r requires 0 <= r < NumReels =>
      seq(NumRows, c requires 0 <= c < NumRows => Symbol(draws[r * NumRows + c])))
  }

  /**
   * Builds the grid reel by reel, each reel from `NumRows` consecutive draws.
   * `draws` stands for the weighted random source: the draws in the order
   * they are taken.
   */
  method GenerateGrid(draws: seq<SymbolType>) returns (grid: Grid)
    requires |draws| == NumReels * NumRows
    ensures WellShaped(grid)
    ensures forall r, c :: 0 <= r < NumReels && 0 <= c < NumRows ==> grid[r][c] == Symbol(draws[r * NumRows + c])
    ensures forall r, c :: 0 <= r < NumReels && 0 <= c < NumRows ==> grid[r][c].kind in AllSymbolTypes
    ensures grid == DrawnGrid(draws)
  {
    grid := [];
    var r := 0;
    while r < NumReels
      invariant 0 <= r <= NumReels
      invariant |grid| == r
      invariant forall i :: 0 <= i < r ==> |grid[i]| == NumRows
      invariant forall i, c :: 0 <= i < r && 0 <= c < NumRows ==> grid[i][c] == Symbol(draws[i * NumRows + c])
    {
      var reel: seq<Symbol> := [];
      var c := 0;
      while c < NumRows
        invariant 0 <= c <= NumRows
        invariant |reel| == c
        invariant forall k :: 0 <= k < c ==> reel[k] == Symbol(draws[r * NumRows + k])
      {
        reel := reel + [Symbol(draws[r * NumRows + c])];
        c := c + 1;
      }
      grid := grid + [reel];
      r := r + 1;
    }
    SymbolSetEnumerated();
    forall r | 0 <= r < NumReels ensures grid[r] == DrawnGrid(draws)[r] {
    }
  }

  // ---------------------------------------------------------------------
  // Line evaluation: specification
  // ---------------------------------------------------------------------

  /** A symbol continues a run measured against `anchor` when it is that type or wild. */
  predicate Matches(sym: Symbol, anchor: SymbolType) {
    sym.kind == anchor || sym.IsWild()
  }

  /** The type of the first non-wild symbol, or `Wild` when there is none. */
  function Anchor(s: seq<Symbol>): SymbolType
  {
    if |s| == 0 then Wild
    else if !s[0].IsWild() then s[0].kind
    else Anchor(s[1..])
  }

  /** The anchor is fixed by the first non-wild symbol, and is `Wild` exactly when every symbol is wild. */
  lemma {:induction false} AnchorIsFirstNonWild(s: seq<Symbol>)
    ensures forall i :: 0 <= i < |s| && !s[i].IsWild() && (forall j :: 0 <= j < i ==> s[j].IsWild()) ==> Anchor(s) == s[i].kind
    ensures Anchor(s) == Wild <==> forall i :: 0 <= i < |s| ==> s[i].IsWild()
  {
    if |s| > 0 && s[0].IsWild() {
      AnchorIsFirstNonWild(s[1..]);
      forall i | 1 <= i < |s| && !s[i].IsWild() && (forall j :: 0 <= j < i ==> s[j].IsWild())
        ensures Anchor(s) == s[i].kind
      {
        assert s[1..][i - 1] == s[i];
      }
      if forall i :: 1 <= i < |s| ==> s[i].IsWild() {
        assert forall i :: 0 <= i < |s[1..]| ==> s[1..][i].IsWild();
      }
    }
  }

  /** The length of the longest prefix of `s` whose symbols all match `anchor`. */
  function RunLength(s: seq<Symbol>, anchor: SymbolType): (n: nat)
    ensures n <= |s|
    ensures forall i :: 0 <= i < n ==> Matches(s[i], anchor)
    ensures n < |s| ==> !Matches(s[n], anchor)
  {
    if |s| == 0 || !Matches(s[0], anchor) then 0
    else 1 + RunLength(s[1..], anchor)
  }

  /** A non-empty line always has a run of at least one: its first symbol is wild or is the anchor. */
  lemma RunAtLeastOne(s: seq<Symbol>)
    requires |s| > 0
    ensures RunLength(s, Anchor(s)) >= 1
  {
    AnchorIsFirstNonWild(s);
  }

  /** What one payline with the symbols `s` pays at `bet` per line, if it wins. */
  function LineWin(paylineId: int, s: seq<Symbol>, bet: int): Option<WinLine>
  {
    if |s| == 0 then None
    else
      var anchor := Anchor(s);
      var count := RunLength(s, anchor);
      if count < 3 then None
      else
        var multiplier := Multiplier(anchor, count);
        if multiplier == 0 then None
        else Some(WinLine(paylineId, anchor, count, bet * multiplier))
  }

  /**
   * A line wins exactly when its run against the anchor is three to five
   * long, and then it is paid as the paytable says for that anchor and count.
   */
  lemma LineWinCharacterized(paylineId: int, s: seq<Symbol>, bet: int)
    ensures LineWin(paylineId, s, bet).Some? <==> |s| > 0 && 3 <= RunLength(s, Anchor(s)) <= 5
    ensures LineWin(paylineId, s, bet).Some? ==>
      var w := LineWin(paylineId, s, bet).value;
      && w.paylineId == paylineId
      && w.symbolType == Anchor(s)
      && w.matchCount == RunLength(s, Anchor(s))
      && 3 <= w.matchCount <= 5
      && w.matchCount <= |s|
      && Multiplier(w.symbolType, w.matchCount) > 0
      && w.payout == bet * Multiplier(w.symbolType, w.matchCount)
  {
    PaytableComplete();
  }

  // ---------------------------------------------------------------------
  // Line evaluation: the source's loops
  // ---------------------------------------------------------------------

  /** Evaluates one payline: find the anchor, count the run, look the count up. */
  method EvaluateLine(paylineId: int, symbols: seq<Symbol>, bet: int) returns (win: Option<WinLine>)
    ensures win == LineWin(paylineId, symbols, bet)
  {
    if |symbols| == 0 {
      return None;
    }

    var matchType: Option<SymbolType> := None;
    var i := 0;
    while i < |symbols|
      invariant 0 <= i <= |symbols|
      invariant matchType == None
      invariant Anchor(symbols) == Anchor(symbols[i..])
    {
      if !symbols[i].IsWild() {
        matchType := Some(symbols[i].kind);
        break;
      }
      assert symbols[i..][1..] == symbols[i + 1..];
      i := i + 1;
    }
    var anchor := if matchType.None? then Wild else matchType.value;
    assert anchor == Anchor(symbols);

    var count := 0;
    var j := 0;
    while j < |symbols|
      invariant 0 <= j <= |symbols|
      invariant count == j
      invariant RunLength(symbols, anchor) == count + RunLength(symbols[j..], anchor)
    {
      if symbols[j].kind == anchor || symbols[j].IsWild() {
        count := count + 1;
      } else {
        break;
      }
      assert symbols[j..][1..] == symbols[j + 1..];
      j := j + 1;
    }
    assert count == RunLength(symbols, anchor);

    if count < 3 {
      return None;
    }
    var multiplier := Multiplier(anchor, count);
    if multiplier == 0 {
      return None;
    }
    var payout := bet * multiplier;
    win := Some(WinLine(paylineId, anchor, count, payout));
  }

  // ---------------------------------------------------------------------
  // Paylines and the payout of a whole grid
  // ---------------------------------------------------------------------

  /** The configured paylines, numbered from 1 in configuration order. */
  function ConfiguredPaylines(): (ls: seq<Payline>)
    ensures |ls| == |Paylines|
    ensures forall k :: 0 <= k < |ls| ==> ls[k].id == k + 1 && ls[k].positions == Paylines[k]
  {
    seq(|Paylines|, k requires 0 <= k < |Paylines| => Payline(k + 1, Paylines[k]))
  }

  /** Length of the slice `xs[:k]` of a list `xs` of length `n`; a negative `k` counts from the end. */
  function SliceLength(k: int, n: nat): (len: nat)
    ensures len <= n
  {
    if k >= 0 then (if k < n then k else n)
    else if n + k > 0 then n + k else 0
  }

  /** The paylines evaluated for a bet on `numLines` lines. */
  function ActivePaylines(numLines: int): seq<Payline>
  {
    var ls := ConfiguredPaylines();
    ls[..SliceLength(numLines, |ls|)]
  }

  /**
   * The active paylines are the first ones of the configuration, in order:
   * exactly `numLines` of them for a bet on 1 to 5 lines, never more than
   * `numLines`, and each reads an existing cell of a well-shaped grid.
   */
  lemma ActivePaylinesPrefix(numLines: int)
    ensures |ActivePaylines(numLines)| <= |Paylines|
    ensures 0 <= numLines ==> |ActivePaylines(numLines)| <= numLines
    ensures 1 <= numLines <= |Paylines| ==> |ActivePaylines(numLines)| == numLines
    ensures forall k :: 0 <= k < |ActivePaylines(numLines)| ==>
      ActivePaylines(numLines)[k].id == k + 1 && ActivePaylines(numLines)[k].positions == Paylines[k]
    ensures forall g, k :: WellShaped(g) && 0 <= k < |ActivePaylines(numLines)| ==> ActivePaylines(numLines)[k].FitsGrid(g)
  {
    PaylinesWellFormed();
  }

  /** Every line of `lines` reads existing cells of `g`. */
  predicate AllFit(g: Grid, lines: seq<Payline>) {
    forall k :: 0 <= k < |lines| ==> lines[k].FitsGrid(g)
  }

  /** Every active payline reads existing cells of a well-shaped grid. */
  lemma ActivePaylinesFit(g: Grid, numLines: int)
    requires WellShaped(g)
    ensures AllFit(g, ActivePaylines(numLines))
  {
    ActivePaylinesPrefix(numLines);
  }

  /** The outcome of one payline on grid `g`. */
  function LineResult(g: Grid, line: Payline, bet: int): Option<WinLine>
    requires line.FitsGrid(g)
  {
    LineWin(line.id, line.SymbolsFromGrid(g), bet)
  }

  /** The wins of `lines` on `g`, in the order of `lines`. */
  function Wins(g: Grid, bet: int, lines: seq<Payline>): seq<WinLine>
    requires AllFit(g, lines)
  {
    if |lines| == 0 then []
    else
      var rest := Wins(g, bet, lines[..|lines| - 1]);
      match LineResult(g, lines[|lines| - 1], bet)
      case Some(w) => rest + [w]
      case None => rest
  }

  /** The sum of the payouts of `ws`. */
  function SumPayouts(ws: seq<WinLine>): int
  {
    if |ws| == 0 then 0 else SumPayouts(ws[..|ws| - 1]) + ws[|ws| - 1].payout
  }

  /** The wins are exactly the outcomes of the lines that win. */
  lemma {:induction false} WinsCharacterized(g: Grid, bet: int, lines: seq<Payline>)
    requires AllFit(g, lines)
    ensures |Wins(g, bet, lines)| <= |lines|
    ensures forall w :: w in Wins(g, bet, lines) <==> exists k :: 0 <= k < |lines| && LineResult(g, lines[k], bet) == Some(w)
  {
    if |lines| > 0 {
      var init := lines[..|lines| - 1];
      WinsCharacterized(g, bet, init);
      forall w ensures w in Wins(g, bet, lines) <==> exists k :: 0 <= k < |lines| && LineResult(g, lines[k], bet) == Some(w) {
        if w in Wins(g, bet, lines) {
          if w in Wins(g, bet, init) {
            var k :| 0 <= k < |init| && LineResult(g, init[k], bet) == Some(w);
            assert lines[k] == init[k];
          } else {
            assert LineResult(g, lines[|lines| - 1], bet) == Some(w);
          }
        }
        if exists k :: 0 <= k < |lines| && LineResult(g, lines[k], bet) == Some(w) {
          var k :| 0 <= k < |lines| && LineResult(g, lines[k], bet) == Some(w);
          if k < |lines| - 1 {
            assert init[k] == lines[k];
          }
        }
      }
    }
  }

  /** Every win comes from a winning line and is paid as the paytable says. */
  lemma WinsArePaidLines(g: Grid, bet: int, lines: seq<Payline>)
    requires AllFit(g, lines)
    ensures forall w :: w in Wins(g, bet, lines) ==>
      && (exists k :: 0 <= k < |lines| && lines[k].id == w.paylineId)
      && 3 <= w.matchCount <= 5
      && Multiplier(w.symbolType, w.matchCount) > 0
      && w.payout == bet * Multiplier(w.symbolType, w.matchCount)
  {
    WinsCharacterized(g, bet, lines);
    forall w | w in Wins(g, bet, lines)
      ensures (exists k :: 0 <= k < |lines| && lines[k].id == w.paylineId)
      ensures 3 <= w.matchCount <= 5 && Multiplier(w.symbolType, w.matchCount) > 0
      ensures w.payout == bet * Multiplier(w.symbolType, w.matchCount)
    {
      var k :| 0 <= k < |lines| && LineResult(g, lines[k], bet) == Some(w);
      LineWinCharacterized(lines[k].id, lines[k].SymbolsFromGrid(g), bet);
    }
  }

  /** Lines with strictly ascending ids give wins with strictly ascending ids. */
  lemma {:induction false} WinsAscending(g: Grid, bet: int, lines: seq<Payline>)
    requires AllFit(g, lines)
    requires forall i, j :: 0 <= i < j < |lines| ==> lines[i].id < lines[j].id
    ensures forall i, j :: 0 <= i < j < |Wins(g, bet, lines)| ==> Wins(g, bet, lines)[i].paylineId < Wins(g, bet, lines)[j].paylineId
  {
    if |lines| > 0 {
      var init := lines[..|lines| - 1];
      var last := lines[|lines| - 1];
      WinsAscending(g, bet, init);
      var rest := Wins(g, bet, init);
      match LineResult(g, last, bet)
      case None =>
      case Some(w) =>
        LineWinCharacterized(last.id, last.SymbolsFromGrid(g), bet);
        WinsCharacterized(g, bet, init);
        forall i | 0 <= i < |rest| ensures rest[i].paylineId < w.paylineId {
          assert rest[i] in rest;
          var k :| 0 <= k < |init| && LineResult(g, init[k], bet) == Some(rest[i]);
          LineWinCharacterized(init[k].id, init[k].SymbolsFromGrid(g), bet);
        }
    }
  }

  /** A sum of payouts none of which is negative is not negative. */
  lemma {:induction false} SumPayoutsNonNegative(ws: seq<WinLine>)
    requires forall w :: w in ws ==> 0 <= w.payout
    ensures 0 <= SumPayouts(ws)
  {
    if |ws| > 0 {
      assert forall w :: w in ws[..|ws| - 1] ==> w in ws;
      SumPayoutsNonNegative(ws[..|ws| - 1]);
    }
  }

  /** With a non-negative bet no line pays a negative amount, so neither does the grid. */
  lemma TotalPayoutNonNegative(g: Grid, bet: int, lines: seq<Payline>)
    requires AllFit(g, lines)
    requires 0 <= bet
    ensures 0 <= SumPayouts(Wins(g, bet, lines))
  {
    WinsArePaidLines(g, bet, lines);
    forall w | w in Wins(g, bet, lines) ensures 0 <= w.payout {
      ProductNonNegative(bet, Multiplier(w.symbolType, w.matchCount));
    }
    SumPayoutsNonNegative(Wins(g, bet, lines));
  }

  /**
   * At a zero bet every win pays 0, and so does the grid: a zero-bet spin
   * can report winning lines without paying anything.
   */
  lemma ZeroBetPaysNothing(g: Grid, lines: seq<Payline>)
    requires AllFit(g, lines)
    ensures forall w :: w in Wins(g, 0, lines) ==> w.payout == 0
    ensures SumPayouts(Wins(g, 0, lines)) == 0
  {
    WinsArePaidLines(g, 0, lines);
    SumPayoutsZero(Wins(g, 0, lines));
  }

  /** A sum of zero payouts is zero. */
  lemma {:induction false} SumPayoutsZero(ws: seq<WinLine>)
    requires forall w :: w in ws ==> w.payout == 0
    ensures SumPayouts(ws) == 0
  {
    if |ws| > 0 {
      assert forall w :: w in ws[..|ws| - 1] ==> w in ws;
      SumPayoutsZero(ws[..|ws| - 1]);
    }
  }

  /** The product of two non-negative integers is non-negative. */
  lemma ProductNonNegative(a: int, b: int)
    requires 0 <= a && 0 <= b
    ensures 0 <= a * b
  {
  }

  /** Evaluating one more line appends its win, if any, to the wins so far. */
  lemma WinsStep(g: Grid, bet: int, lines: seq<Payline>, k: int, win: Option<WinLine>)
    requires AllFit(g, lines) && 0 <= k < |lines|
    requires win == LineResult(g, lines[k], bet)
    ensures AllFit(g, lines[..k]) && AllFit(g, lines[..k + 1])
    ensures win.Some? ==> Wins(g, bet, lines[..k + 1]) == Wins(g, bet, lines[..k]) + [win.value]
    ensures win.None? ==> Wins(g, bet, lines[..k + 1]) == Wins(g, bet, lines[..k])
  {
    assert lines[..k + 1][..k] == lines[..k];
  }

  /** Appending a win adds its payout to the total. */
  lemma SumPayoutsAppend(ws: seq<WinLine>, w: WinLine)
    ensures SumPayouts(ws + [w]) == SumPayouts(ws) + w.payout
  {
    assert (ws + [w])[..|ws|] == ws;
  }

  /**
   * The wins of the active paylines: at most one per line, with ids between
   * 1 and `numLines` in strictly ascending order, each paid as the paytable
   * says, and a non-negative total for a non-negative bet.
   */
  lemma ActiveWinsProperties(grid: Grid, bet: int, numLines: int)
    requires WellShaped(grid)
    ensures AllFit(grid, ActivePaylines(numLines))
    ensures var wins := Wins(grid, bet, ActivePaylines(numLines));
      && |wins| <= |ActivePaylines(numLines)| <= |Paylines|
      && (forall w :: w in wins ==> 1 <= w.paylineId <= |ActivePaylines(numLines)|)
      && (forall w :: w in wins ==> 0 <= numLines ==> w.paylineId <= numLines)
      && (forall i, j :: 0 <= i < j < |wins| ==> wins[i].paylineId < wins[j].paylineId)
      && (forall w :: w in wins ==>
            3 <= w.matchCount <= 5 && Multiplier(w.symbolType, w.matchCount) > 0 &&
            w.payout == bet * Multiplier(w.symbolType, w.matchCount))
      && (0 <= bet ==> 0 <= SumPayouts(wins))
  {
    var paylines := ActivePaylines(numLines);
    ActivePaylinesPrefix(numLines);
    WinsCharacterized(grid, bet, paylines);
    WinsArePaidLines(grid, bet, paylines);
    WinsAscending(grid, bet, paylines);
    if 0 <= bet {
      TotalPayoutNonNegative(grid, bet, paylines);
    }
  }

  /**
   * Evaluates the first `numLines` paylines of `grid` in configuration order
   * and returns their wins and the sum of what they pay.
   */
  method Calculate(grid: Grid, betPerLine: int, numLines: int) returns (wins: seq<WinLine>, totalPayout: int)
    requires WellShaped(grid)
    ensures AllFit(grid, ActivePaylines(numLines))
    ensures wins == Wins(grid, betPerLine, ActivePaylines(numLines))
    ensures totalPayout == SumPayouts(wins)
    ensures |wins| <= |ActivePaylines(numLines)| <= |Paylines|
    ensures forall w :: w in wins ==> 1 <= w.paylineId <= |ActivePaylines(numLines)|
    ensures forall w :: w in wins ==> 0 <= numLines ==> w.paylineId <= numLines
    ensures forall i, j :: 0 <= i < j < |wins| ==> wins[i].paylineId < wins[j].paylineId
    ensures forall w :: w in wins ==>
      3 <= w.matchCount <= 5 && Multiplier(w.symbolType, w.matchCount) > 0 &&
      w.payout == betPerLine * Multiplier(w.symbolType, w.matchCount)
    ensures 0 <= betPerLine ==> 0 <= totalPayout
  {
    var paylines := ActivePaylines(numLines);
    ActivePaylinesFit(grid, numLines);
    wins := [];
    totalPayout := 0;
    var k := 0;
    while k < |paylines|
      invariant 0 <= k <= |paylines|
      invariant AllFit(grid, paylines[..k])
      invariant wins == Wins(grid, betPerLine, paylines[..k])
      invariant totalPayout == SumPayouts(wins)
    {
      var payline := paylines[k];
      var symbols := payline.SymbolsFromGrid(grid);
      var win := EvaluateLine(payline.id, symbols, betPerLine);
      WinsStep(grid, betPerLine, paylines, k, win);
      if win.Some? {
        SumPayoutsAppend(wins, win.value);
        wins := wins + [win.value];
        totalPayout := totalPayout + win.value.payout;
      }
      k := k + 1;
    }
    assert paylines[..k] == paylines;
    ActiveWinsProperties(grid, betPerLine, numLines);
  }

  // ---------------------------------------------------------------------
  // Edge cases and worked examples
  // ---------------------------------------------------------------------

  /** A mismatch on one of the first three reels means no win, whatever the later reels show. */
  lemma EarlyBreakNoWin(paylineId: int, s: seq<Symbol>, bet: int, i: int)
    requires 0 <= i < 3 && i < |s|
    requires !Matches(s[i], Anchor(s))
    ensures RunLength(s, Anchor(s)) <= i
    ensures LineWin(paylineId, s, bet) == None
  {
  }

  /** [Cherry, Lemon, Cherry, Cherry, Cherry] runs only one long and does not win. */
  lemma BreakAtSecondReel(paylineId: int, bet: int)
    ensures var s := [Symbol(Cherry), Symbol(Lemon), Symbol(Cherry), Symbol(Cherry), Symbol(Cherry)];
      RunLength(s, Anchor(s)) == 1 && LineWin(paylineId, s, bet) == None
  {
    var s := [Symbol(Cherry), Symbol(Lemon), Symbol(Cherry), Symbol(Cherry), Symbol(Cherry)];
    EarlyBreakNoWin(paylineId, s, bet, 1);
  }

  /** Five wilds on a line win as `Wild` with a count of five. */
  lemma FiveWildsWin(paylineId: int, s: seq<Symbol>, bet: int)
    requires |s| == 5 && forall i :: 0 <= i < 5 ==> s[i] == Symbol(Wild)
    ensures LineWin(paylineId, s, bet) == Some(WinLine(paylineId, Wild, 5, bet * 2000))
  {
    AnchorIsFirstNonWild(s);
  }

  /** A grid whose middle row reads [Cherry, Cherry, Cherry, Lemon, Lemon], bet 1 on one line, pays 5 on line 1. */
  lemma MiddleRowCherryScenario(g: Grid)
    requires WellShaped(g)
    requires forall r :: 0 <= r < NumReels ==> g[r][1] == [Symbol(Cherry), Symbol(Cherry), Symbol(Cherry), Symbol(Lemon), Symbol(Lemon)][r]
    ensures Wins(g, 1, ActivePaylines(1)) == [WinLine(1, Cherry, 3, 5)]
    ensures SumPayouts(Wins(g, 1, ActivePaylines(1))) == 5
  {
    ActivePaylinesPrefix(1);
    var line := ActivePaylines(1)[0];
    var s := line.SymbolsFromGrid(g);
    assert s == [Symbol(Cherry), Symbol(Cherry), Symbol(Cherry), Symbol(Lemon), Symbol(Lemon)];
    assert ActivePaylines(1)[..0] == [];
  }

  /** A middle row of five wilds on one line wins on line 1 at every bet, a zero bet included. */
  lemma MiddleRowAllWildWinsAtAnyBet(g: Grid, bet: int)
    requires WellShaped(g)
    requires forall r :: 0 <= r < NumReels ==> g[r][1] == Symbol(Wild)
    ensures Wins(g, bet, ActivePaylines(1)) == [WinLine(1, Wild, 5, bet * Multiplier(Wild, 5))]
  {
    ActivePaylinesPrefix(1);
    var line := ActivePaylines(1)[0];
    var s := line.SymbolsFromGrid(g);
    FiveWildsWin(1, s, bet);
    assert ActivePaylines(1)[..0] == [];
  }

  /** A middle row of five wilds, bet 2 on one line, pays 2 times the five-wild multiplier on line 1. */
  lemma MiddleRowAllWildScenario(g: Grid)
    requires WellShaped(g)
    requires forall r :: 0 <= r < NumReels ==> g[r][1] == Symbol(Wild)
    ensures Wins(g, 2, ActivePaylines(1)) == [WinLine(1, Wild, 5, 2 * Multiplier(Wild, 5))]
    ensures SumPayouts(Wins(g, 2, ActivePaylines(1))) == 4000
  {
    MiddleRowAllWildWinsAtAnyBet(g, 2);
    assert [WinLine(1, Wild, 5, 4000)][..0] == [];
  }
}
