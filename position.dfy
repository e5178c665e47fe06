// The position book of the engines without costs: an entry invests the
// whole capital at one price (shares = capital / entry), an exit sells every
// share (capital = shares * exit) and completes the open trade record with
// its pnl = shares * (exit - entry).
module Position {
  import opened Core
  import opened Fills
  import opened Stops
  import opened Ledger

  /** capital, shares, entry_price, highest, in_position and trades. */
  datatype Book = Book(capital: real, shares: real, entry: real, highest: real, holding: bool, trades: seq<Trade>)

  /** The variables before the first bar. */
  function Fresh(capital: real): (b: Book)
    ensures !b.holding && b.trades == [] && b.capital == capital
  {
    Book(capital, 0.0, 0.0, 0.0, false, [])
  }

  /** The invariant every such loop keeps:
      - at most one trade is open, the last one, exactly while holding;
      - the capital is the starting capital plus the pnl of the completed
        trades;
      - while holding, the shares are worth the capital at the entry price. */
  predicate Valid(start: real, b: Book)
  {
    OnlyLastOpen(b.trades) && (b.holding <==> LastOpen(b.trades))
    && b.capital == start + ClosedPnl(b.trades)
    && (b.holding ==> Value(b.shares, b.entry) == b.capital)
  }

  /** The invariant reads only the money and the trade list. */
  lemma Reframe(start: real, b: Book, c: Book)
    requires Valid(start, b)
    requires c.capital == b.capital && c.shares == b.shares && c.entry == b.entry
    requires c.holding == b.holding && c.trades == b.trades
    ensures Valid(start, c)
  {
  }

  /** `shares = capital / entry_price` and a new open trade record. */
  function Buy(start: real, b: Book, at: Stamp, price: real, high: real): (r: Book)
    requires Valid(start, b) && !b.holding && price != 0.0
    ensures Valid(start, r) && r.holding && r.capital == b.capital
    ensures r.entry == price && r.highest == high && r.shares == SharesFor(b.capital, price)
    ensures r.trades == Append(b.trades, at, price, r.shares)
  {
    var shares := SharesFor(b.capital, price);
    AppendPnl(b.trades, at, price, shares);
    b.(shares := shares, entry := price, highest := high, holding := true,
       trades := Append(b.trades, at, price, shares))
  }

  /** The closing pnl of the open position at `price`. */
  function PnlAt(b: Book, price: real): real
  {
    Value(b.shares, price - b.entry)
  }

  /** `capital = shares * exit_price`, `shares = 0` and the open record
      completed with its pnl: the capital moves by exactly that pnl. */
  function Sell(start: real, b: Book, at: Stamp, price: real, reason: Reason): (r: Book)
    requires Valid(start, b) && b.holding
    ensures Valid(start, r) && !r.holding && r.shares == 0.0
    ensures r.capital == Value(b.shares, price) && r.capital == b.capital + PnlAt(b, price)
    ensures r.trades == CloseLast(b.trades, Exit(at, price, PnlAt(b, price), reason))
    ensures r.entry == b.entry && r.highest == b.highest
  {
    var pnl := PnlAt(b, price);
    assert Value(b.shares, price - b.entry) == Value(b.shares, price) - Value(b.shares, b.entry);
    CloseLastPnl(b.trades, Exit(at, price, pnl, reason));
    b.(capital := Value(b.shares, price), shares := 0.0, holding := false,
       trades := CloseLast(b.trades, Exit(at, price, pnl, reason)))
  }

  /** `if high > highest: highest = high` */
  function Raise(b: Book, high: real): (r: Book)
    ensures r == b.(highest := r.highest)
    ensures r.highest >= b.highest && r.highest >= high && (r.highest == b.highest || r.highest == high)
  {
    if high > b.highest then b.(highest := high) else b
  }

  /** The hybrid stop of the open position. */
  function StopOf(b: Book, fixedFrac: real, trailFrac: real): real
  {
    ActiveStop(b.entry, b.highest, fixedFrac, trailFrac)
  }

  /** Raising the high never lowers the stop. */
  lemma RaiseRatchets(b: Book, high: real, fixedFrac: real, trailFrac: real)
    requires trailFrac <= 1.0
    ensures StopOf(b, fixedFrac, trailFrac) <= StopOf(Raise(b, high), fixedFrac, trailFrac)
  {
    StopNeverDecreases(b.entry, b.highest, Raise(b, high).highest, fixedFrac, trailFrac);
  }

  /** The growth factor of the completed trades: the product of their
      exit / entry price ratios. */
  function Growth(trades: seq<Trade>): real
  {
    if trades == [] then 1.0
    else
      var t := trades[|trades| - 1];
      Growth(trades[..|trades| - 1]) * (if t.exit.Some? && t.entryPrice != 0.0 then t.exit.value.price / t.entryPrice else 1.0)
  }

  /** Full reinvestment compounds: the capital is the starting capital times
      the growth of the completed trades, and the open trade holds exactly
      the shares the capital bought at its entry price. */
  predicate Compounds(start: real, b: Book)
  {
    b.capital == start * Growth(b.trades)
    && (b.holding ==> |b.trades| > 0 && b.entry != 0.0 && b.shares == SharesFor(b.capital, b.entry)
                      && b.trades[|b.trades| - 1].entryPrice == b.entry)
  }

  lemma {:induction false} BuyCompounds(start: real, b: Book, at: Stamp, price: real, high: real)
    requires Valid(start, b) && !b.holding && price != 0.0 && Compounds(start, b)
    ensures Compounds(start, Buy(start, b, at, price, high))
  {
    var r := Buy(start, b, at, price, high);
    assert r.trades[..|r.trades| - 1] == b.trades;
    assert Growth(r.trades) == Growth(b.trades);
  }

  lemma {:induction false} SellCompounds(start: real, b: Book, at: Stamp, price: real, reason: Reason)
    requires Valid(start, b) && b.holding && Compounds(start, b)
    ensures Compounds(start, Sell(start, b, at, price, reason))
  {
    var r := Sell(start, b, at, price, reason);
    var n := |b.trades|;
    assert r.trades[..n - 1] == b.trades[..n - 1];
    var last := b.trades[n - 1];
    assert r.trades[n - 1] == last.(exit := Some(Exit(at, price, PnlAt(b, price), reason)));
    assert Growth(b.trades) == Growth(b.trades[..n - 1]) by {
      assert last.exit.None?;
    }
    assert Growth(r.trades) == Growth(b.trades[..n - 1]) * (price / b.entry);
    assert r.capital == (b.capital / b.entry) * price;
    assert (b.capital / b.entry) * price == b.capital * (price / b.entry);
  }

  /** The final block: a position still open is sold at the last close as
      "OPEN"; afterwards no trade is open and the capital telescopes. */
  function Settle(start: real, b: Book, at: Stamp, lastClose: real): (r: Book)
    requires Valid(start, b)
    ensures Valid(start, r) && !r.holding && !LastOpen(r.trades) && OnlyLastOpen(r.trades)
    ensures |r.trades| == |b.trades| && r.capital == start + ClosedPnl(r.trades)
    ensures b.holding ==> r.trades[|r.trades| - 1].exit == Some(Exit(at, lastClose, PnlAt(b, lastClose), OpenAtEnd))
    ensures !b.holding ==> r == b
  {
    if b.holding then Sell(start, b, at, lastClose, OpenAtEnd) else b
  }

  /** Every close of the bars can be divided by: the entry sizing
      `capital / entry_price` is defined on each of them. */
  predicate CloseDivisible(bars: seq<Bar>)
  {
    forall i :: 0 <= i < |bars| ==> NonZeroClose(bars[i])
  }

  predicate NonZeroClose(b: Bar)
  {
    b.close != 0.0
  }

  /** The entry block the scripts repeat: size the position from the whole
      capital, remember the high and append an open record. */
  method OpenAll(start: real, b: Book, at: Stamp, price: real, high: real) returns (r: Book)
    requires Valid(start, b) && !b.holding && price != 0.0
    ensures r == Buy(start, b, at, price, high)
  {
    var Book(capital, shares, entryPrice, highest, inPosition, trades) := b;
    entryPrice := price;
    shares := capital / entryPrice;
    highest := high;
    trades := trades + [Trade(at, entryPrice, shares, None)];
    inPosition := true;
    r := Book(capital, shares, entryPrice, highest, inPosition, trades);
  }

  /** The exit block the scripts repeat: pnl and capital from the shares,
      `trades[-1].update(...)`, shares back to zero. */
  method CloseAll(start: real, b: Book, at: Stamp, price: real, reason: Reason) returns (r: Book)
    requires Valid(start, b) && b.holding
    ensures r == Sell(start, b, at, price, reason)
  {
    var Book(capital, shares, entryPrice, highest, inPosition, trades) := b;
    var pnl := Value(shares, price - entryPrice);
    capital := Value(shares, price);
    trades := trades[..|trades| - 1] + [trades[|trades| - 1].(exit := Some(Exit(at, price, pnl, reason)))];
    inPosition := false;
    shares := 0.0;
    r := Book(capital, shares, entryPrice, highest, inPosition, trades);
  }
}
