/** The position-state machine: how one execution changes an instrument's
    signed net position and its volume-weighted average entry price, and the
    display value derived from them. */
module Positions {
  import opened Events

  /** `CurrentState` without its pips: the net position (`positon` in the
      source; negative is short) and the average entry price (None is NaN). */
  datatype Position = Position(position: Int32, avgPrice: Option<real>)

  /** A freshly constructed `CurrentState`: flat, with an average of 0. */
  const Flat := Position(0, Some(0.0))

  /** `isChangeSign`: true when `a` and `b` are strictly on opposite sides of
      zero; zero is on neither side, so landing on or leaving zero is never a
      flip. */
  function IsChangeSign(a: int, b: int): (r: bool)
    ensures r <==> a != 0 && b != 0 && (a > 0 <==> b < 0)
  {
    (a > 0 && b < 0) || (a < 0 && b > 0)
  }

  /** A sign change is exactly a negative product. */
  lemma ChangeSignIsNegativeProduct(a: int, b: int)
    ensures IsChangeSign(a, b) <==> a * b < 0
  {
    if a > 0 && b > 0 { assert a * b > 0; }
    if a < 0 && b < 0 { assert a * b > 0; }
  }

  /** The signed quantity a fill adds to the position. */
  function Delta(isBuy: bool, size: Size): int
  {
    if isBuy then size as int else -(size as int)
  }

  /** A trade in the direction of the current position, or opening from flat. */
  predicate SameDirection(position: int, isBuy: bool)
  {
    (position >= 0 && isBuy) || (position <= 0 && !isBuy)
  }

  /** The double expression `(positon * avgPrice + price * delta) / newPosition`:
      NaN stays NaN, and a zero divisor (reached only as 0.0 / 0) gives NaN. */
  function WeightedMean(position: int, avgPrice: Option<real>, price: real, delta: int, newPosition: int): Option<real>
  {
    if avgPrice.None? || newPosition == 0 then None
    else Some((position as real * avgPrice.value + price * delta as real) / newPosition as real)
  }

  /** One fill of a known side applied to a position: the position moves by
      +size for a buy and -size for a sell, in 32-bit `int` arithmetic. */
  function Trade(s: Position, isBuy: bool, price: real, size: Size): (r: Position)
    ensures r.position == Wrap32(s.position + Delta(isBuy, size))
    ensures r.position == s.position + Delta(isBuy, size) || IsChangeSign(s.position, r.position)
  {
    var delta := Delta(isBuy, size);
    var newPosition := Wrap32(s.position + delta);
    if IsChangeSign(s.position, newPosition) then
      Position(newPosition, Some(price))
    else if SameDirection(s.position, isBuy) then
      Position(newPosition, WeightedMean(s.position, s.avgPrice, price, delta, newPosition))
    else
      Position(newPosition, s.avgPrice)
  }

  /** A flip of sign closes the old position and opens the new one at the
      trade price (a flip that 32-bit wrap-around produces included). */
  lemma FlipResetsAverage(s: Position, isBuy: bool, price: real, size: Size)
    requires IsChangeSign(s.position, Wrap32(s.position + Delta(isBuy, size)))
    ensures Trade(s, isBuy, price, size) == Position(Wrap32(s.position + Delta(isBuy, size)), Some(price))
  {
  }

  /** A trade that reduces a position without flipping it, one that lands
      exactly on zero included, keeps the average and moves the position
      exactly. */
  lemma ReductionKeepsAverage(s: Position, isBuy: bool, price: real, size: Size)
    requires !SameDirection(s.position, isBuy)
    requires !IsChangeSign(s.position, s.position + Delta(isBuy, size))
    ensures Trade(s, isBuy, price, size) == Position(s.position + Delta(isBuy, size), s.avgPrice)
  {
  }

  /** A trade that grows a position or opens one from flat never wraps when it
      does not flip; its divisor is zero only for an empty fill on a flat
      position (0.0 / 0, NaN); a NaN average stays NaN; otherwise the cost
      basis position * avgPrice grows by price * delta, so the new average is
      the size-weighted mean of the old average and the trade price. */
  lemma GrowthAddsCost(s: Position, isBuy: bool, price: real, size: Size)
    requires SameDirection(s.position, isBuy)
    requires !IsChangeSign(s.position, Trade(s, isBuy, price, size).position)
    ensures var r := Trade(s, isBuy, price, size);
      && r.position == s.position + Delta(isBuy, size)
      && (r.position == 0 <==> s.position == 0 && size == 0)
      && (r.avgPrice.Some? <==> s.avgPrice.Some? && r.position != 0)
      && (r.avgPrice.Some? ==>
            r.position as real * r.avgPrice.value
              == s.position as real * s.avgPrice.value + price * Delta(isBuy, size) as real)
  {
    var r := Trade(s, isBuy, price, size);
    var delta := Delta(isBuy, size);
    assert r == Position(r.position, WeightedMean(s.position, s.avgPrice, price, delta, r.position));
    if s.avgPrice.Some? && r.position != 0 {
      MeanTimesDivisor(s.position, s.avgPrice.value, price, delta, r.position);
    }
  }

  /** WeightedMean, multiplied back by its divisor, is its dividend. */
  lemma MeanTimesDivisor(position: int, avg: real, price: real, delta: int, newPosition: int)
    requires newPosition != 0
    ensures var m := WeightedMean(position, Some(avg), price, delta, newPosition);
      m.Some? && newPosition as real * m.value == position as real * avg + price * delta as real
  {
    var n := position as real * avg + price * delta as real;
    MultiplyBack(n, newPosition as real);
  }

  /** Dividing by a nonzero d and multiplying back gives the dividend. */
  lemma MultiplyBack(n: real, d: real)
    requires d != 0.0
    ensures d * (n / d) == n
  {
  }

  /** An execution applied to a position, given the sides recorded per order id;
      an execution of an order whose side is unknown is only logged. */
  function Execute(s: Position, e: ExecutionInfo, orderIdToIsBuy: map<string, bool>): (r: Position)
    ensures e.orderId !in orderIdToIsBuy ==> r == s
    ensures e.orderId in orderIdToIsBuy ==> r == Trade(s, orderIdToIsBuy[e.orderId], e.price, e.size)
  {
    if e.orderId in orderIdToIsBuy then Trade(s, orderIdToIsBuy[e.orderId], e.price, e.size)
    else s
  }

  /** `getLineY`: the average price in pips, NaN when flat or when the average is NaN. */
  function LineY(p: Position, pips: Pips): (r: Option<real>)
    ensures r.None? <==> p.position == 0 || p.avgPrice.None?
    ensures r.Some? ==> r.value * pips == p.avgPrice.value
  {
    if p.position == 0 || p.avgPrice.None? then None else Some(p.avgPrice.value / pips)
  }

  /** A fill of `size` units at `price`, side left to the run it belongs to. */
  datatype Fill = Fill(price: real, size: Size)

  /** A run of fills, all on one side, applied in order. */
  function Fills(s: Position, isBuy: bool, fills: seq<Fill>): Position
    decreases |fills|
  {
    if fills == [] then s
    else Fills(Trade(s, isBuy, fills[0].price, fills[0].size), isBuy, fills[1..])
  }

  /** Total size of a run. */
  function Volume(fills: seq<Fill>): (v: int)
    ensures v >= 0
    decreases |fills|
  {
    if fills == [] then 0 else fills[0].size + Volume(fills[1..])
  }

  /** Total price * size of a run. */
  function Notional(fills: seq<Fill>): real
    decreases |fills|
  {
    if fills == [] then 0.0 else fills[0].price * fills[0].size as real + Notional(fills[1..])
  }

  /** The cost basis `positon * avgPrice` of a position with a defined average. */
  function Cost(p: Position): real
    requires p.avgPrice.Some?
  {
    p.position as real * p.avgPrice.value
  }

  /** `x` for a buy, `-x` for a sell: `Delta` over reals, so that the run
      lemmas can state their cost steps as literal copies of each other. */
  function Signed(isBuy: bool, x: real): real
  {
    if isBuy then x else -x
  }

  /** A run of same-side fills of positive size, started in that direction (or
      flat) with a defined average, whose signed total stays inside the `int`
      range. */
  predicate SameSideRun(s: Position, isBuy: bool, fills: seq<Fill>)
  {
    && s.avgPrice.Some? && SameDirection(s.position, isBuy)
    && (forall i :: 0 <= i < |fills| ==> fills[i].size > 0)
    && -0x8000_0000 <= s.position + (if isBuy then Volume(fills) else -Volume(fills)) < 0x8000_0000
  }

  /** Such a run never flips: the position moves by the signed total size and
      is nonzero after the first fill. */
  lemma {:induction false} SameSideRunPosition(s: Position, isBuy: bool, fills: seq<Fill>)
    requires SameSideRun(s, isBuy, fills)
    ensures var r := Fills(s, isBuy, fills);
      && r.position == s.position + (if isBuy then Volume(fills) else -Volume(fills))
      && r.avgPrice.Some?
      && (fills != [] ==> r.position != 0)
    decreases |fills|
  {
    if fills != [] {
      var t := FirstFill(s, isBuy, fills);
      SameSideRunPosition(t, isBuy, fills[1..]);
    }
  }

  /** Along such a run the cost basis position * avgPrice only accumulates the
      signed price * size of each fill. */
  lemma {:induction false} SameSideRunCost(s: Position, isBuy: bool, fills: seq<Fill>)
    requires SameSideRun(s, isBuy, fills)
    ensures var r := Fills(s, isBuy, fills);
      r.avgPrice.Some? && Cost(r) == Cost(s) + Signed(isBuy, Notional(fills))
    decreases |fills|
  {
    if fills != [] {
      var t := FirstFill(s, isBuy, fills);
      SameSideRunCost(t, isBuy, fills[1..]);
      var b := fills[0].price * fills[0].size as real;
      NotionalCons(fills);
      AddSigned(Cost(s), Cost(t), Cost(Fills(t, isBuy, fills[1..])), b, Notional(fills[1..]), Notional(fills), isBuy);
    }
  }

  /** Two signed increments of one sign add up. */
  lemma AddSigned(c0: real, c1: real, c2: real, x: real, y: real, sum: real, positive: bool)
    requires c1 == c0 + Signed(positive, x)
    requires c2 == c1 + Signed(positive, y)
    requires sum == x + y
    ensures c2 == c0 + Signed(positive, sum)
  {
  }

  /** The first fill of such a run moves the position exactly, away from zero,
      and adds its signed price * size to the cost basis; what is left of the
      run is again such a run, started from there. */
  lemma FirstFill(s: Position, isBuy: bool, fills: seq<Fill>) returns (t: Position)
    requires fills != [] && SameSideRun(s, isBuy, fills)
    ensures Fills(s, isBuy, fills) == Fills(t, isBuy, fills[1..])
    ensures t.position == s.position + Delta(isBuy, fills[0].size) && t.position != 0
    ensures SameSideRun(t, isBuy, fills[1..])
    ensures Cost(t) == Cost(s) + Signed(isBuy, fills[0].price * fills[0].size as real)
  {
    RunHead(s, isBuy, fills);
    t := StepCost(s, isBuy, fills[0]);
    RestOfRun(s, isBuy, fills, t);
    FillsCons(s, isBuy, fills);
  }

  /** The first fill of such a run is positive and keeps the position in range. */
  lemma RunHead(s: Position, isBuy: bool, fills: seq<Fill>)
    requires fills != [] && SameSideRun(s, isBuy, fills)
    ensures s.avgPrice.Some? && SameDirection(s.position, isBuy) && fills[0].size > 0
    ensures -0x8000_0000 <= s.position + Delta(isBuy, fills[0].size) < 0x8000_0000
  {
    VolumeCons(fills);
  }

  /** After the first fill of such a run has moved the position exactly, what
      is left of the run is again such a run. */
  lemma RestOfRun(s: Position, isBuy: bool, fills: seq<Fill>, t: Position)
    requires fills != [] && SameSideRun(s, isBuy, fills)
    requires t.position == s.position + Delta(isBuy, fills[0].size) && t.avgPrice.Some?
    ensures SameSideRun(t, isBuy, fills[1..])
  {
    VolumeCons(fills);
  }

  /** The cost basis after one same-direction fill that does not flip gains the
      fill's signed price * size. */
  lemma StepCost(s: Position, isBuy: bool, f: Fill) returns (t: Position)
    requires s.avgPrice.Some? && SameDirection(s.position, isBuy) && f.size > 0
    requires -0x8000_0000 <= s.position + Delta(isBuy, f.size) < 0x8000_0000
    ensures t == Trade(s, isBuy, f.price, f.size)
    ensures t.position == s.position + Delta(isBuy, f.size) && t.position != 0
    ensures t.avgPrice.Some? && Cost(t) == Cost(s) + Signed(isBuy, f.price * f.size as real)
  {
    t := Trade(s, isBuy, f.price, f.size);
    assert !IsChangeSign(s.position, t.position);
    GrowthAddsCost(s, isBuy, f.price, f.size);
    SignedProduct(f.price, f.size, isBuy);
  }

  /** price * delta is the signed price * size. */
  lemma SignedProduct(price: real, size: Size, isBuy: bool)
    ensures price * Delta(isBuy, size) as real == Signed(isBuy, price * size as real)
  {
  }

  /** One unfolding of `Fills`, kept apart from the lemmas that multiply reals. */
  lemma FillsCons(s: Position, isBuy: bool, fills: seq<Fill>)
    requires fills != []
    ensures Fills(s, isBuy, fills) == Fills(Trade(s, isBuy, fills[0].price, fills[0].size), isBuy, fills[1..])
  {
  }

  /** One unfolding of `Notional`, kept apart from the lemmas that multiply reals. */
  lemma NotionalCons(fills: seq<Fill>)
    requires fills != []
    ensures Notional(fills) == fills[0].price * fills[0].size as real + Notional(fills[1..])
  {
  }

  /** One unfolding of `Volume`, kept apart from the lemmas that multiply reals. */
  lemma VolumeCons(fills: seq<Fill>)
    requires fills != []
    ensures Volume(fills) == fills[0].size + Volume(fills[1..])
  {
  }

  /** Starting flat with a defined average, a run of same-side fills of
      positive size whose total stays inside the `int` range leaves the position at the signed
      total size and the average at the size-weighted mean of the fill prices,
      whatever defined average the flat position carried. */
  lemma SameSideRunIsWeightedMean(s: Position, isBuy: bool, fills: seq<Fill>)
    requires s.position == 0 && s.avgPrice.Some?
    requires fills != []
    requires forall i :: 0 <= i < |fills| ==> fills[i].size > 0
    requires -0x8000_0000 <= (if isBuy then Volume(fills) else -Volume(fills)) < 0x8000_0000
    ensures var r := Fills(s, isBuy, fills);
      && r.position == (if isBuy then Volume(fills) else -Volume(fills))
      && r.avgPrice == Some(Notional(fills) / Volume(fills) as real)
  {
    VolumeCons(fills);
    SameSideRunPosition(s, isBuy, fills);
    SameSideRunCost(s, isBuy, fills);
    assert Cost(s) == 0.0;
    MeanOfRun(Fills(s, isBuy, fills), Volume(fills), Notional(fills), isBuy);
  }

  /** A position of signed size vol whose cost basis is the signed notional n
      has average n / vol. */
  lemma MeanOfRun(r: Position, vol: int, n: real, isBuy: bool)
    requires vol > 0 && r.position == (if isBuy then vol else -vol)
    requires r.avgPrice.Some? && Cost(r) == Signed(isBuy, n)
    ensures r.avgPrice == Some(n / vol as real)
  {
    var v, x := vol as real, r.avgPrice.value;
    assert Cost(r) == r.position as real * x;
    assert v * x == n;
    DivideExact(n, v, x);
  }

  /** A product divided by one nonzero factor is the other. */
  lemma DivideExact(n: real, d: real, x: real)
    requires d != 0.0 && d * x == n
    ensures n / d == x
  {
  }

  /** A sell run may total 2^31: it lands on the smallest `int` without
      wrapping, and the second fill still takes the weighted mean. */
  lemma SellRunReachesMinInt(p: real, q: real)
    ensures Fills(Flat, false, [Fill(p, 0x7fff_ffff), Fill(q, 1)])
      == Position(-0x8000_0000, Some((p * 0x7fff_ffff as real + q) / 0x8000_0000 as real))
  {
    var fills := [Fill(p, 0x7fff_ffff), Fill(q, 1)];
    assert Volume(fills) == 0x8000_0000 by {
      VolumeCons(fills);
      VolumeCons(fills[1..]);
    }
    assert Notional(fills) == p * 0x7fff_ffff as real + q by {
      NotionalCons(fills);
      NotionalCons(fills[1..]);
    }
    SameSideRunIsWeightedMean(Flat, false, fills);
  }

  /** The position is a Java `int`: a buy that carries a long position past
      the largest `int` wraps it to a short one, which the flip rule then
      treats as a flip, resetting the average to the trade price. */
  lemma OverflowFlips(avg: Option<real>, price: real)
    ensures Trade(Position(0x7fff_ffff, avg), true, price, 1) == Position(-0x8000_0000, Some(price))
    ensures Trade(Position(-0x8000_0000, avg), false, price, 1) == Position(0x7fff_ffff, Some(price))
  {
  }

  /** The worked scenario: buy 10 at 100, buy 5 at 110, sell 20 at 90; a
      reduction from +10 by 4, and one that lands exactly on zero; and an
      empty fill on a flat position, whose 0.0 / 0 average is NaN and stays
      NaN through a later buy. */
  lemma Scenario(price: real)
    ensures Trade(Flat, true, 100.0, 10) == Position(10, Some(100.0))
    ensures Trade(Position(10, Some(100.0)), true, 110.0, 5) == Position(15, Some(1550.0 / 15.0))
    ensures Trade(Position(15, Some(1550.0 / 15.0)), false, 90.0, 20) == Position(-5, Some(90.0))
    ensures LineY(Position(-5, Some(90.0)), 1.0) == Some(90.0)
    ensures Trade(Position(10, Some(100.0)), false, price, 4) == Position(6, Some(100.0))
    ensures Trade(Position(10, Some(100.0)), false, price, 10) == Position(0, Some(100.0))
    ensures LineY(Position(0, Some(100.0)), 1.0) == None
    ensures Trade(Flat, true, price, 0) == Position(0, None)
    ensures Trade(Position(0, None), true, 100.0, 10) == Position(10, None)
  {
  }
}
