/**
 * The fixed game configuration: the eight symbol types, their sampling
 * weights, the paytable, the five paylines and the bet settings.
 */
module Config {

  /** The closed set of symbol types; `Wild` substitutes for any other. */
  datatype SymbolType = Cherry | Lemon | Orange | Plum | Bell | Bar | Seven | Wild

  const NumReels: nat := 5
  const NumRows: nat := 3
  const DefaultBalance: int := 1000
  const MinBet: int := 1
  const MaxBet: int := 100
  const BetIncrement: int := 1

  /** The symbol types in declaration order, which is the order the reel generator samples from. */
  const AllSymbolTypes: seq<SymbolType> := [Cherry, Lemon, Orange, Plum, Bell, Bar, Seven, Wild]

  /** Relative sampling weight of each symbol type (higher is more common). */
  const SymbolWeights: map<SymbolType, int> := map[
    Cherry := 25, Lemon := 22, Orange := 20, Plum := 15,
    Bell := 8, Bar := 5, Seven := 3, Wild := 2]

  /** Row index (0 top, 1 middle, 2 bottom) on each reel, for paylines 1 to 5 in order. */
  const Paylines: seq<seq<int>> := [
    [1, 1, 1, 1, 1],  // middle row
    [0, 0, 0, 0, 0],  // top row
    [2, 2, 2, 2, 2],  // bottom row
    [0, 1, 2, 1, 0],  // V shape
    [2, 1, 0, 1, 2]]  // inverted V

  /**
   * The paytable: the multiplier a run of `count` symbols of type `t` pays,
   * and 0 for a count the table has no entry for.
   */
  function Multiplier(t: SymbolType, count: int): (m: int)
    ensures 0 <= m
    ensures count < 3 || 5 < count ==> m == 0
  {
    match t
    case Cherry => if count == 3 then 5 else if count == 4 then 10 else if count == 5 then 25 else 0
    case Lemon => if count == 3 then 5 else if count == 4 then 15 else if count == 5 then 30 else 0
    case Orange => if count == 3 then 10 else if count == 4 then 20 else if count == 5 then 40 else 0
    case Plum => if count == 3 then 10 else if count == 4 then 25 else if count == 5 then 50 else 0
    case Bell => if count == 3 then 20 else if count == 4 then 50 else if count == 5 then 100 else 0
    case Bar => if count == 3 then 30 else if count == 4 then 75 else if count == 5 then 200 else 0
    case Seven => if count == 3 then 50 else if count == 4 then 150 else if count == 5 then 500 else 0
    case Wild => if count == 3 then 100 else if count == 4 then 500 else if count == 5 then 2000 else 0
  }

  /** The enumeration lists every symbol type exactly once. */
  lemma SymbolSetEnumerated()
    ensures |AllSymbolTypes| == 8
    ensures forall t :: t in AllSymbolTypes
    ensures forall i, j :: 0 <= i < j < |AllSymbolTypes| ==> AllSymbolTypes[i] != AllSymbolTypes[j]
  {
    forall t: SymbolType ensures t in AllSymbolTypes {
      match t
      case Cherry => assert AllSymbolTypes[0] == t;
      case Lemon => assert AllSymbolTypes[1] == t;
      case Orange => assert AllSymbolTypes[2] == t;
      case Plum => assert AllSymbolTypes[3] == t;
      case Bell => assert AllSymbolTypes[4] == t;
      case Bar => assert AllSymbolTypes[5] == t;
      case Seven => assert AllSymbolTypes[6] == t;
      case Wild => assert AllSymbolTypes[7] == t;
    }
  }

  /** Every symbol type has a positive weight, so weighted sampling is well defined. */
  lemma WeightsPositive()
    ensures forall t :: t in SymbolWeights && SymbolWeights[t] > 0
  {
    forall t: SymbolType ensures t in SymbolWeights && SymbolWeights[t] > 0 {
      match t
      case Cherry =>
      case Lemon =>
      case Orange =>
      case Plum =>
      case Bell =>
      case Bar =>
      case Seven =>
      case Wild =>
    }
  }

  /**
   * Every symbol pays for exactly the counts 3, 4 and 5, so any run of
   * three to five on a line is a win.
   */
  lemma PaytableComplete()
    ensures forall t, c :: Multiplier(t, c) > 0 <==> 3 <= c <= 5
    ensures forall t, c :: Multiplier(t, c) >= 0
  {
    forall t: SymbolType, c: int
      ensures (Multiplier(t, c) > 0 <==> 3 <= c <= 5) && Multiplier(t, c) >= 0
    {
      match t
      case Cherry =>
      case Lemon =>
      case Orange =>
      case Plum =>
      case Bell =>
      case Bar =>
      case Seven =>
      case Wild =>
    }
  }

  /** For each symbol the multiplier strictly increases from three to four to five matches. */
  lemma PaytableIncreasing()
    ensures forall t :: Multiplier(t, 3) < Multiplier(t, 4) < Multiplier(t, 5)
  {
    forall t: SymbolType ensures Multiplier(t, 3) < Multiplier(t, 4) < Multiplier(t, 5) {
      match t
      case Cherry =>
      case Lemon =>
      case Orange =>
      case Plum =>
      case Bell =>
      case Bar =>
      case Seven =>
      case Wild =>
    }
  }

  /** There are five paylines, each naming one in-range row on every reel. */
  lemma PaylinesWellFormed()
    ensures |Paylines| == 5
    ensures forall k :: 0 <= k < |Paylines| ==> |Paylines[k]| == NumReels
    ensures forall k, i :: 0 <= k < |Paylines| && 0 <= i < |Paylines[k]| ==> 0 <= Paylines[k][i] < NumRows
  {
  }

  /** The bet limits describe a non-empty range stepped by a positive increment. */
  lemma BetSettingsConsistent()
    ensures 0 < MinBet <= MaxBet
    ensures BetIncrement > 0
  {
  }
}
