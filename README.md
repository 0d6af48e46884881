# Slot machine game logic in Dafny

This project models the game logic of a 5-reel, 3-row slot machine and proves properties of it.

- **Configuration.** There are eight symbol types, one of them wild. Each has a sampling weight. There are five paylines and a set of bet settings (`config.dfy`, module `Config`). The paytable is the function `Multiplier`, an exhaustive match over the symbol types. It holds the same entries as the source's nested dictionary and gives the same default of 0 for a missing count.
- **Domain values** (`models.dfy`, module `Models`):
  - symbols and the column-major grid `grid[reel][row]`;
  - paylines and the projection of a grid along one;
  - win lines and spin results, with their derived `IsWin` and `NetResult`;
  - the player record, which `Deduct`, `AddWinnings` and `RecordSpin` replace with a new value.
- **Reel generation** (`services.dfy`, module `Services`). `GenerateGrid` fills the grid reel by reel with a loop. The sequence `draws` stands in for the weighted random source.
- **Payout calculation** (`services.dfy`). `EvaluateLine` is the loop version of the line rule:
  1. the anchor is the first non-wild symbol, or wild if every symbol is wild;
  2. the run is the left-to-right count of symbols that are the anchor or wild;
  3. a run of 3 or more with a non-zero multiplier wins `bet × multiplier`.

  `Calculate` goes through the active paylines in configuration order. It collects the wins and adds up their payouts. Each method is proved equal to a specification function (`LineWin`, `Wins`, `SumPayouts`). The properties of those functions are proved as lemmas.
- **Game engine** (`game_engine.dfy`, module `Engine`). The class `GameEngine` holds `player: Option<Player>`, which its methods reassign. A ghost field `saved` stands for the player store: it holds the record the last save wrote.
  - `Spin` checks for a loaded player and a sufficient balance before it changes anything.
  - It then deducts the stake, counts the spin, generates and evaluates the grid, credits a positive payout, and saves. At a zero bet with a winning line it fails before crediting and saving (see below).
  - `AddCredits` tops up the balance and saves.
  - `CurrentBalance` and `PlayerStats` read the state.

Three details of the code shape the model:

- **The number of lines is not clamped.** The code slices the payline list with `num_lines` as a Python slice, `paylines[:num_lines]` (domain/services.py:55). A negative value counts from the end. `SliceLength` and `ActivePaylines` model this, so a bet on 7 lines evaluates 5 lines. The stake is still `bet_per_line × num_lines` for the full number of lines (application/game_engine.py:62).
- **The bet is not validated.** The engine's doc comment speaks of validating bets, but the engine checks only the balance (application/game_engine.py:68). The model keeps this: `Spin` accepts any integers. With a negative bet the payouts are negative, so they are never credited (application/game_engine.py:101).
- **A zero bet with a winning line fails in the logging.** With a non-negative balance, a bet of 0 passes the balance check (a negative balance, loaded from the file or reached through a negative top-up, refuses it as insufficient), and a line that wins still yields a win line that pays 0. The log line for each winning line then computes `win.payout // bet_per_line` (application/game_engine.py:94), which raises a division by zero. At that point the stake (0) has been taken and the spin counted, but no payout has been credited and nothing has been saved. `Spin` models this as the result `Failure(ZeroBetDivision)` with exactly that state, and `LogDividesByZero` says when it happens. On every other accepted spin the lemmas about the balance hold for every bet.

## Model

| member | source | states |
|---|---|---|
| `Config.SymbolSetEnumerated` | config.py:7-15 | the enumeration lists all eight symbol types, each exactly once |
| `Config.WeightsPositive` | config.py:31-40 | every symbol type has a weight, and every weight is positive, so weighted sampling is well defined |
| `Config.Multiplier` | config.py:43-52 | the paytable as a function: the configured multiplier of a symbol for a count, never negative; any count other than 3, 4 or 5 gives 0, as the lookup `.get(count, 0)` at domain/services.py:98 does |
| `Config.PaytableComplete` | config.py:43-52 | for every symbol, the looked-up multiplier is positive exactly for counts 3, 4 and 5, and never negative |
| `Config.PaytableIncreasing` | config.py:44-51 | for every symbol the multiplier strictly increases from 3 to 4 to 5 matches |
| `Config.PaylinesWellFormed` | config.py:56-62 | there are 5 paylines; each has one entry per reel, and each entry is a row index below 3 |
| `Config.BetSettingsConsistent` | config.py:76-79 | the minimum bet is positive and at most the maximum bet, and the bet increment is positive |
| `Models.Symbol.IsWild` | domain/models.py:15-17 | defines wildness as the symbol's type being Wild; its properties are proved by `ExactlyOneWild` |
| `Models.ExactlyOneWild` | domain/models.py:15-17 | among the enumerated symbol types, exactly the last one (Wild) is wild; any wild symbol has type Wild |
| `Models.Payline.SymbolsFromGrid` | domain/models.py:27-32 | the projection has one symbol per position, and the i-th is `grid[i][positions[i]]` |
| `Models.SpinResult.IsWin` | domain/models.py:54-56 | defines a winning spin as one with a positive total payout; `Engine.SettleMatchesResult` proves that exactly such a spin raises the win count |
| `Models.SpinResult.NetResult` | domain/models.py:58-60 | defines the net as the total payout minus the bet amount; `Engine.SettleMatchesResult` proves that the balance moves by exactly this amount |
| `Models.NewPlayer` | domain/models.py:63-71 | a new record has the given id and balance and all statistics at 0 |
| `Models.Player.Deduct` | domain/models.py:73-81 | the balance drops by exactly the amount; id, spins, wins and biggest win are unchanged |
| `Models.Player.AddWinnings` | domain/models.py:83-91 | the balance rises by the amount; wins go up by one only for a positive amount; biggest win becomes the maximum of the old value and the amount; id and spins are unchanged |
| `Models.Player.RecordSpin` | domain/models.py:93-101 | the spin count goes up by exactly one, and nothing else changes |
| `Models.DeductThenWinBack` | domain/models.py:73-91 | winning back a deducted amount restores the balance; the two updates commute; for a non-positive amount not above the biggest win they cancel out entirely |
| `Models.RecordSpinCommutes` | domain/models.py:73-101 | counting a spin commutes with deducting and with crediting winnings |
| `Models.AddWinningsMonotone` | domain/models.py:83-91 | crediting winnings never lowers the win count or the biggest win |
| `Services.ReelWeights` | domain/services.py:20-22 | the sampler gets one weight per symbol type, in enumeration order; each is the configured weight and is positive |
| `Services.GenerateGrid` | domain/services.py:24-33 | the grid has exactly 5 reels of exactly 3 symbols each; cell (r, c) is the draw numbered `r × 3 + c`, which is one of the symbol types; the whole grid is `DrawnGrid(draws)` |
| `Services.DrawnGrid` | domain/services.py:24-33 | the grid the draws determine: well shaped, with cell (r, c) holding draw `r × 3 + c` |
| `Services.Anchor` | domain/services.py:74-83 | defines the anchor recursively as the first non-wild type, or Wild; its properties are proved by `AnchorIsFirstNonWild` |
| `Services.AnchorIsFirstNonWild` | domain/services.py:74-83 | the anchor is the type of the first non-wild symbol; it is Wild if and only if every symbol is wild |
| `Services.Matches` | domain/services.py:88 | defines when a symbol continues a run: it has the anchor type or is wild; `RunLength` and `EvaluateLine` are stated with it |
| `Services.RunLength` | domain/services.py:85-91 | the run is at most the line length; every symbol before it is the anchor or wild; the symbol just after it is neither |
| `Services.RunAtLeastOne` | domain/services.py:74-91 | a non-empty line has a run of at least 1 against its own anchor |
| `Services.LineWin` | domain/services.py:93-109 | defines a line's outcome from its anchor, its run and the paytable; its properties are proved by `LineWinCharacterized`, and `EvaluateLine` is proved to compute it |
| `Services.LineWinCharacterized` | domain/services.py:93-109 | a line wins if and only if it is non-empty and its run is 3 to 5 long; the win carries the line id, the anchor and the run, and pays `bet × multiplier` with a positive multiplier |
| `Services.EvaluateLine` | domain/services.py:64-109 | the search loop and the counting loop with `break` compute exactly the specified line outcome |
| `Services.EarlyBreakNoWin` | domain/services.py:86-95 | a symbol that is neither the anchor nor wild on the reel at index 0, 1 or 2 caps the run at that index, below 3, so the line does not win, whatever later reels show |
| `Services.BreakAtSecondReel` | domain/services.py:86-95 | [Cherry, Lemon, Cherry, Cherry, Cherry] has a run of 1 and no win at any bet |
| `Services.FiveWildsWin` | domain/services.py:76-102 | five wilds win as Wild with count 5 and pay `bet × 2000` |
| `Services.ConfiguredPaylines` | domain/services.py:39-42 | the payline ids are 1, 2, … in configuration order, and each payline keeps its configured rows |
| `Services.ActivePaylines` | domain/services.py:55 | defines the active paylines as the Python slice `paylines[:num_lines]` through `SliceLength`; its properties are proved by `ActivePaylinesPrefix` |
| `Services.ActivePaylinesPrefix` | domain/services.py:55 | the active paylines are a prefix of the configuration, in order: never more than `num_lines` of them; exactly `num_lines` for 1 to 5; each one reads existing cells of a well-shaped grid |
| `Services.LineResult` | domain/services.py:56-57 | defines the outcome of one payline on a grid: `LineWin` of the symbols read along it; `EvaluateLine` inside `Calculate` is proved to compute it |
| `Services.Wins` | domain/services.py:52-60 | defines the wins list the loop builds: the outcomes of the winning lines, in line order; its properties are proved by `WinsCharacterized`, `WinsAscending` and `WinsArePaidLines`, and `Calculate` is proved to compute it |
| `Services.SumPayouts` | domain/services.py:53-60 | defines the running total as the sum of the win payouts; its properties are proved by `SumPayoutsNonNegative`, `SumPayoutsZero` and `SumPayoutsAppend`, and `Calculate` is proved to compute it |
| `Services.WinsCharacterized` | domain/services.py:55-60 | a win line is returned if and only if it is the outcome of one of the evaluated paylines; there are never more wins than paylines |
| `Services.WinsArePaidLines` | domain/services.py:55-109 | every returned win comes from an evaluated payline, has a count of 3 to 5 and a positive multiplier, and pays `bet × multiplier` |
| `Services.WinsAscending` | domain/services.py:55-60 | if the payline ids ascend, the ids of the returned wins strictly ascend |
| `Services.ZeroBetPaysNothing` | domain/services.py:98-109 | at a bet of 0 every win line pays 0, and so does the grid |
| `Services.SumPayoutsZero` | domain/services.py:58-62 | a total of payouts that are all 0 is 0 |
| `Services.SumPayoutsAppend` | domain/services.py:59-60 | appending a win to the list adds exactly its payout to the total, as the loop does |
| `Services.SumPayoutsNonNegative` | domain/services.py:52-62 | a total of non-negative payouts is non-negative |
| `Services.TotalPayoutNonNegative` | domain/services.py:52-62 | with a non-negative bet the total payout of a grid is non-negative |
| `Services.ActiveWinsProperties` | domain/services.py:44-62 | the wins of the active paylines number at most one per line; their ids lie between 1 and `num_lines` and strictly ascend; each has a count of 3 to 5 and pays `bet × multiplier` with a positive multiplier; their total is non-negative for a non-negative bet |
| `Services.Calculate` | domain/services.py:44-62 | the wins are those of the first `num_lines` paylines, in order, with payline ids from 1 to `num_lines` in strictly ascending order; the total is the sum of their payouts; every win has a count of 3 to 5 and pays `bet × multiplier`; a non-negative bet gives a non-negative total |
| `Services.MiddleRowCherryScenario` | domain/services.py:44-62 | a middle row of [Cherry, Cherry, Cherry, Lemon, Lemon] at bet 1 on one line gives exactly `WinLine(1, Cherry, 3, 5)` and a total of 5 |
| `Services.MiddleRowAllWildWinsAtAnyBet` | domain/services.py:44-109 | a middle row of five wilds on one line gives exactly `WinLine(1, Wild, 5, bet × 2000)` at every bet, 0 included |
| `Services.MiddleRowAllWildScenario` | domain/services.py:44-62 | a middle row of five wilds at bet 2 on one line gives exactly `WinLine(1, Wild, 5, 4000)` and a total of 4000 |
| `Engine.Settle` | application/game_engine.py:71-102 | defines the player after a completed spin: deduct the stake, count the spin, credit a positive payout; its properties are proved by `SettleAccounting`, `SettleKeepsBalanceNonNegative`, `SettlePreservesStats` and `SettleMatchesResult` |
| `Engine.SettleAccounting` | application/game_engine.py:71-102 | after a spin the balance is the old balance minus the stake plus any positive payout; spins go up by 1; wins go up by 1 and the biggest win becomes the maximum of the old value and the payout only when the payout is positive; the id is kept |
| `Engine.SettleKeepsBalanceNonNegative` | application/game_engine.py:68-102 | when the balance covers the stake, the balance after the spin is at least the old balance minus the stake, so it is never negative |
| `Engine.SettlePreservesStats` | application/game_engine.py:71-102 | a spin keeps the statistics consistent: wins never exceed spins, and none is negative |
| `Engine.SettleMatchesResult` | domain/models.py:54-60 | for a result with a non-negative payout, the balance moves by exactly the result's net; the win count goes up exactly when the result is a win |
| `Engine.Credit` | application/game_engine.py:135-141 | defines the player after a top-up: the balance raised by the amount, every other field copied; its properties are proved by `CreditProperties` |
| `Engine.CreditProperties` | application/game_engine.py:132-142 | a top-up changes only the balance; deducting the same amount undoes it; two top-ups add up |
| `Engine.LoadedPlayer` | infrastructure/persistence.py:18-35 | without a readable record the loaded player is exactly `NewPlayer(id, 1000)`: the requested id, the default balance, all statistics 0; otherwise it is the stored record |
| `Engine.LogDividesByZero` | application/game_engine.py:85-94 | defines when an accepted spin stops at the log line: the bet per line is 0 and the drawn grid has a winning line |
| `Engine.AllWildZeroBetFails` | application/game_engine.py:85-94 | fifteen wild draws at bet 0 on one line reach the failing division |
| `Engine.ZeroBetDivisionCases` | application/game_engine.py:85-101 | only a zero bet can fail at the division; a zero-bet spin that gets past it pays nothing |
| `Engine.GameEngine.constructor` | application/game_engine.py:30-39 | a new engine has no player loaded |
| `Engine.GameEngine.LoadPlayer` | application/game_engine.py:41-44 | the loaded record becomes the current player and is returned; the store is not written |
| `Engine.GameEngine.Spin` | application/game_engine.py:46-114 | no player: fails with NoPlayerLoaded and changes nothing. A balance below the stake: fails with InsufficientBalance and changes nothing. A zero bet with a winning line: fails with ZeroBetDivision after taking the stake and counting the spin, without crediting or saving. Otherwise the result's grid is the drawn one; its wins and total are those of that same grid; the bet amount is `bet_per_line × num_lines`; the new player is the old one settled with that stake and payout, field by field, with a non-negative balance; the saved record equals the new player |
| `Engine.GameEngine.CurrentBalance` | application/game_engine.py:116-119 | the balance of the loaded player, or 0 when none is loaded |
| `Engine.GameEngine.PlayerStats` | application/game_engine.py:121-130 | empty when no player is loaded; otherwise exactly the keys total_spins, total_wins and biggest_win, holding the player's statistics |
| `Engine.GameEngine.AddCredits` | application/game_engine.py:132-142 | without a player nothing changes; otherwise the balance rises by exactly the amount; id, spins, wins and biggest win are unchanged; the saved record equals the new player |

## Left out

- Weighted sampling (`random.choices`, domain/services.py:29) is not modelled. The draws are the parameter `draws`, so the model proves the grid's shape and contents but not the probability of any symbol.
- Persistence (infrastructure/persistence.py) is not modelled as file I/O. The store is the ghost field `saved`, which every save overwrites. What a load could read is the parameter `stored` of `LoadPlayer`. Reading the JSON file, filling in missing fields with defaults, and taking the id from the file are not modelled.
- Logging in the engine (application/game_engine.py:11-17, 64-98, 107) is left out. The one effect it has on the game, the division `payout // bet_per_line` at line 94 that fails at a zero bet, is modelled as `Failure(ZeroBetDivision)`.
- The presentation layer (presentation/), the sounds (infrastructure/sounds.py), main.py and the package `__init__.py` files are left out. They handle widgets, animation, subprocesses and start-up wiring.
- The display-only configuration (`SYMBOL_DISPLAY`, `PAYLINE_INFO`, `SAVE_FILE`) is left out.
- Models.Payline.SymbolsFromGrid: requires every row index to be non-negative and inside the grid. Python would wrap a negative index and raise an error for one that is too large. The configured paylines never do either.
- Services.Calculate: requires a grid of 5 reels of 3 rows, the only shape `spin` passes (application/game_engine.py:76, 85). The source raises an `IndexError` only when an active payline reads a cell the grid lacks, so it also accepts any other grid the active paylines fit, larger ones included, and any grid at all when no payline is active.
- Engine.GameEngine.Spin: the two `ValueError`s become the results `Failure(NoPlayerLoaded)` and `Failure(InsufficientBalance)`, and the `ZeroDivisionError` of the zero-bet log line becomes `Failure(ZeroBetDivision)`. Their messages, and where the exception propagates to, are not modelled.
