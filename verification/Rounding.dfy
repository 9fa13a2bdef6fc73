/** Decimal rounding of money. `roundOffNumber` is `parseFloat(value.toFixed(k))`: the nearest
    multiple of 10^-k and, on a tie, the one away from zero. Only k = 2 (the default) and k = 3
    are used by the code modelled here. */
module Rounding {

  datatype Grid = Cents | Mills

  function HalfStep(g: Grid): real {
    match g
    case Cents => 0.005
    case Mills => 0.0005
  }

  function Abs(x: real): real {
    if x < 0.0 then -x else x
  }

  /** The number of grid steps nearest to x, half steps rounded up. */
  function Steps(x: real, g: Grid): int {
    match g
    case Cents => (x * 100.0 + 0.5).Floor
    case Mills => (x * 1000.0 + 0.5).Floor
  }

  function FromSteps(n: int, g: Grid): real {
    match g
    case Cents => n as real / 100.0
    case Mills => n as real / 1000.0
  }

  /** `toFixed` strips the sign first, then picks the larger of two equally near grid points. */
  function Round(x: real, g: Grid): real {
    if x < 0.0 then -FromSteps(Steps(-x, g), g) else FromSteps(Steps(x, g), g)
  }

  /** x is a whole number of grid steps. */
  ghost predicate OnGrid(x: real, g: Grid) {
    exists n: int :: x == FromSteps(n, g)
  }

  lemma {:induction false} FloorIs(y: real, n: int)
    requires n as real <= y < n as real + 1.0
    ensures y.Floor == n
  {
  }

  lemma {:induction false} StepsNear(x: real, g: Grid)
    ensures -HalfStep(g) <= x - FromSteps(Steps(x, g), g) < HalfStep(g)
  {
    match g
    case Cents =>
    case Mills =>
  }

  lemma {:induction false} StepsIs(x: real, n: int, g: Grid)
    requires -HalfStep(g) <= x - FromSteps(n, g) < HalfStep(g)
    ensures Steps(x, g) == n
  {
    match g
    case Cents => FloorIs(x * 100.0 + 0.5, n);
    case Mills => FloorIs(x * 1000.0 + 0.5, n);
  }

  lemma {:induction false} FromStepsAdd(m: int, n: int, g: Grid)
    ensures FromSteps(m + n, g) == FromSteps(m, g) + FromSteps(n, g)
    ensures FromSteps(-n, g) == -FromSteps(n, g)
    ensures m < n ==> FromSteps(m, g) + 2.0 * HalfStep(g) <= FromSteps(n, g)
  {
    match g
    case Cents =>
    case Mills =>
  }

  /** Rounding lands on the grid, at most half a step away: half a cent or half a thousandth. */
  lemma {:induction false} RoundNear(x: real, g: Grid)
    ensures OnGrid(Round(x, g), g)
    ensures Abs(Round(x, g) - x) <= HalfStep(g)
  {
    StepsNear(x, g);
    StepsNear(-x, g);
    FromStepsAdd(0, Steps(-x, g), g);
  }

  /** The nearest grid point is the rounding, unless two are equally near. */
  lemma {:induction false} RoundUnique(x: real, p: real, g: Grid)
    requires OnGrid(p, g) && Abs(p - x) < HalfStep(g)
    ensures Round(x, g) == p
  {
    var n :| p == FromSteps(n, g);
    FromStepsAdd(0, n, g);
    if x < 0.0 {
      StepsIs(-x, -n, g);
    } else {
      StepsIs(x, n, g);
    }
  }

  /** Values already on the grid are left alone. */
  lemma {:induction false} RoundFixed(x: real, g: Grid)
    requires OnGrid(x, g)
    ensures Round(x, g) == x
  {
    RoundUnique(x, x, g);
  }

  lemma {:induction false} RoundOdd(x: real, g: Grid)
    ensures Round(-x, g) == -Round(x, g)
  {
    if x == 0.0 {
      GridZero(g);
    }
  }

  /** A value half-way between two grid points goes to the one further from zero. */
  lemma {:induction false} RoundTies(p: real, g: Grid)
    requires OnGrid(p, g) && p >= 0.0
    ensures Round(p + HalfStep(g), g) == p + 2.0 * HalfStep(g)
    ensures Round(-p - HalfStep(g), g) == -p - 2.0 * HalfStep(g)
    ensures HalfStep(Cents) == 0.005 && HalfStep(Mills) == 0.0005
  {
    var n :| p == FromSteps(n, g);
    FromStepsAdd(n, 1, g);
    StepsIs(p + HalfStep(g), n + 1, g);
    RoundOdd(p + HalfStep(g), g);
  }

  lemma {:induction false} GridZero(g: Grid)
    ensures OnGrid(0.0, g) && Round(0.0, g) == 0.0
  {
    assert FromSteps(0, g) == 0.0;
    RoundFixed(0.0, g);
  }

  /** Shifting a non-negative value by a grid amount shifts its rounding, as long as the sign stays. */
  lemma {:induction false} RoundShift(x: real, p: real, g: Grid)
    requires OnGrid(p, g) && x >= 0.0 && x + p >= 0.0
    ensures Round(x + p, g) == Round(x, g) + p
  {
    var n :| p == FromSteps(n, g);
    StepsNear(x, g);
    FromStepsAdd(Steps(x, g), n, g);
    StepsIs(x + p, Steps(x, g) + n, g);
  }

  /** Shifting any value by a grid amount shifts its rounding exactly when the value is not half-way
      between two grid points or keeps its sign: half-way values go away from zero. */
  lemma {:induction false} RoundShiftIff(x: real, p: real, g: Grid)
    requires OnGrid(p, g)
    ensures Round(x + p, g) == Round(x, g) + p <==> Abs(Round(x, g) - x) < HalfStep(g) || (x < 0.0 <==> x + p < 0.0)
  {
    RoundNear(x, g);
    GridAdd(Round(x, g), p, g);
    if Abs(Round(x, g) - x) < HalfStep(g) {
      RoundUnique(x + p, Round(x, g) + p, g);
    } else if x >= 0.0 && x + p >= 0.0 {
      RoundShift(x, p, g);
    } else if x < 0.0 && x + p < 0.0 {
      GridAdd(p, p, g);
      RoundShift(-x, -p, g);
    } else {
      StepsNear(x, g);
      StepsNear(-x, g);
      StepsNear(x + p, g);
      StepsNear(-(x + p), g);
    }
  }

  lemma {:induction false} StepsMonotone(x: real, y: real, g: Grid)
    requires x <= y
    ensures FromSteps(Steps(x, g), g) <= FromSteps(Steps(y, g), g)
  {
    if Steps(y, g) < Steps(x, g) {
      StepsNear(x, g);
      StepsNear(y, g);
      FromStepsAdd(Steps(y, g), Steps(x, g), g);
      assert false;
    }
    FromStepsAdd(Steps(x, g), Steps(y, g), g);
  }

  lemma {:induction false} RoundMonotone(x: real, y: real, g: Grid)
    requires x <= y
    ensures Round(x, g) <= Round(y, g)
  {
    GridZero(g);
    if y < 0.0 {
      StepsMonotone(-y, -x, g);
    } else if x >= 0.0 {
      StepsMonotone(x, y, g);
    } else {
      StepsMonotone(0.0, -x, g);
      StepsMonotone(0.0, y, g);
    }
  }

  lemma {:induction false} GridAdd(x: real, y: real, g: Grid)
    requires OnGrid(x, g) && OnGrid(y, g)
    ensures OnGrid(x + y, g) && OnGrid(x - y, g) && OnGrid(-y, g)
  {
    var m :| x == FromSteps(m, g);
    var n :| y == FromSteps(n, g);
    FromStepsAdd(m, n, g);
    FromStepsAdd(m, -n, g);
  }

  lemma {:induction false} CentsAreMills(x: real)
    requires OnGrid(x, Cents)
    ensures OnGrid(x, Mills)
  {
    var n :| x == FromSteps(n, Cents);
    assert x == FromSteps(10 * n, Mills);
  }

  /** Two amounts with equal roundings lie within one cent of each other. */
  lemma {:induction false} RoundsAlike(x: real, y: real)
    requires Round(x, Cents) == Round(y, Cents)
    ensures Abs(x - y) <= 0.01
  {
    RoundNear(x, Cents);
    RoundNear(y, Cents);
  }
}
