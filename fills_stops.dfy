// Fill prices and protective stops shared by the SMA-crossover engines.
module Fills {

  datatype Side = Buy | Sell

  /** apply_slippage: buying costs more, selling gets less, both by the
      fraction `slippage` of the raw price. */
  function ApplySlippage(price: real, side: Side, slippage: real): (fill: real)
    ensures slippage == 0.0 ==> fill == price
    ensures price >= 0.0 && slippage >= 0.0 ==> (side == Buy ==> fill >= price) && (side == Sell ==> fill <= price)
    ensures price >= 0.0 && slippage >= 0.0 ==> Distance(price, fill) == price * slippage
  {
    if side == Buy then price * (1.0 + slippage) else price * (1.0 - slippage)
  }

  function Distance(a: real, b: real): (d: real)
    ensures d >= 0.0 && (d == a - b || d == b - a)
  {
    if a >= b then a - b else b - a
  }

  /** The value of a number of shares at a per-share price. */
  function Value(shares: real, price: real): real
  {
    shares * price
  }

  /** The commission paid on `n` fills. */
  function Fees(commission: real, n: nat): real
  {
    commission * n as real
  }

  /** How many (fractional) shares a sum buys at a per-share price. */
  function SharesFor(amount: real, price: real): real
    requires price != 0.0
  {
    amount / price
  }

  /** `--no-slippage` forces the fraction to zero. */
  function EffectiveSlippage(noSlippage: bool, slippage: real): (s: real)
    ensures noSlippage ==> s == 0.0
    ensures !noSlippage ==> s == slippage
  {
    if noSlippage then 0.0 else slippage
  }

  /** Buying and selling back at the same raw price never gains: the
      round trip keeps the fraction 1 - s^2 of the price. */
  lemma RoundTripNeverGains(price: real, slippage: real)
    requires price >= 0.0 && 0.0 <= slippage
    ensures ApplySlippage(ApplySlippage(price, Buy, slippage), Sell, slippage) <= price
  {
    var up := ApplySlippage(price, Buy, slippage);
    assert ApplySlippage(up, Sell, slippage) == price * (1.0 + slippage) * (1.0 - slippage);
    assert price * (1.0 + slippage) * (1.0 - slippage) == price - price * slippage * slippage;
    assert price * slippage * slippage >= 0.0 by {
      assert price * slippage >= 0.0;
    }
  }
}

module Stops {

  /** The two protective levels: a fixed fraction below the entry price and a
      trailing fraction below the highest price seen since entry. */
  function FixedStop(entry: real, fixedFrac: real): real
  {
    entry * (1.0 - fixedFrac)
  }

  function TrailingStop(highest: real, trailFrac: real): real
  {
    highest * (1.0 - trailFrac)
  }

  /** The hybrid stop is the tighter (higher) of the two levels. */
  function ActiveStop(entry: real, highest: real, fixedFrac: real, trailFrac: real): (stop: real)
    ensures stop >= FixedStop(entry, fixedFrac) && stop >= TrailingStop(highest, trailFrac)
    ensures stop == FixedStop(entry, fixedFrac) || stop == TrailingStop(highest, trailFrac)
  {
    var f := FixedStop(entry, fixedFrac);
    var t := TrailingStop(highest, trailFrac);
    if f >= t then f else t
  }

  /** A higher high since entry never lowers the stop, as long as the trailing
      fraction is at most 100%. */
  lemma StopNeverDecreases(entry: real, highest: real, higher: real, fixedFrac: real, trailFrac: real)
    requires highest <= higher && trailFrac <= 1.0
    ensures ActiveStop(entry, highest, fixedFrac, trailFrac) <= ActiveStop(entry, higher, fixedFrac, trailFrac)
  {
    var rise, keep := higher - highest, 1.0 - trailFrac;
    assert rise >= 0.0 && keep >= 0.0;
    assert rise * keep >= 0.0;
    assert TrailingStop(higher, trailFrac) - TrailingStop(highest, trailFrac) == rise * keep;
  }

  /** The label some scripts attach to a stop exit. */
  datatype StopKind = TrailKind | FixedKind

  function KindOf(entry: real, highest: real, fixedFrac: real, trailFrac: real): (k: StopKind)
    ensures ActiveStop(entry, highest, fixedFrac, trailFrac) == (if k == TrailKind then TrailingStop(highest, trailFrac) else FixedStop(entry, fixedFrac))
    ensures k == FixedKind ==> FixedStop(entry, fixedFrac) > TrailingStop(highest, trailFrac)
  {
    if TrailingStop(highest, trailFrac) >= FixedStop(entry, fixedFrac) then TrailKind else FixedKind
  }

  /** The gap-through rule: a stop hit by a bar that opened and stayed below
      the level (its high is under it) fills at the bar's close, otherwise
      exactly at the stop. */
  function GapFill(stop: real, high: real, close: real): (fill: real)
    ensures fill == stop || fill == close
    ensures close <= high ==> fill <= stop
    ensures high >= stop ==> fill == stop
  {
    if high < stop then close else stop
  }

  /** When the bar's low reached the stop, the gap rule fills within the
      bar's range. */
  lemma GapFillWithinBar(stop: real, low: real, high: real, close: real)
    requires low <= close <= high && low <= stop
    ensures low <= GapFill(stop, high, close) <= high
  {
  }
}
