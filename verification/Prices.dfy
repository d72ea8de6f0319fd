/**
 Every price decision a monitor tick takes: which side of the quote counts, whether a level
 is reached, how the best price is latched, and how a close is priced, named and valued.
 Prices and money are reals (the source uses Decimal).
 */
module Prices {
  import opened Wrappers

  datatype Side = Buy | Sell

  /** A broker quote; the adapter may leave any field out. */
  datatype Quote = Quote(bid: Option<real>, offer: Option<real>, last: Option<real>)

  function Min(a: real, b: real): real { if a <= b then a else b }

  function Max(a: real, b: real): real { if a >= b then a else b }

  function Abs(x: real): real { if x < 0.0 then -x else x }

  /** Python's `x or y` on an optional number: both None and 0 fall through. */
  function Or(x: Option<real>, y: Option<real>): Option<real> {
    if x.Some? && x.value != 0.0 then x else y
  }

  /** The side a position is closed on: the bid for a BUY, the offer for a SELL. */
  function ClosingSide(side: Side, q: Quote): Option<real> {
    Or(if side.Buy? then q.bid else q.offer, q.last)
  }

  function MidPrice(q: Quote, price: real): real {
    if q.bid.Some? && q.offer.Some? then (q.bid.value + q.offer.value) / 2.0 else price
  }

  /** What we pay to get in: the offer for a BUY, the bid for a SELL, the mid when unquoted. */
  function EntrySide(side: Side, q: Quote, mid: real): real {
    (if side.Buy? then q.offer else q.bid).GetOr(mid)
  }

  /** What a take-profit prints against: the bid for a BUY, the offer for a SELL. */
  function TargetSide(side: Side, q: Quote, mid: real): real {
    (if side.Buy? then q.bid else q.offer).GetOr(mid)
  }

  /** An entry-side level is approached from the losing side. */
  predicate Reached(side: Side, price: real, level: real) {
    if side.Buy? then price <= level else price >= level
  }

  /** A take-profit is approached in the winning direction. */
  predicate ReachedTarget(side: Side, price: real, tp: real) {
    if side.Buy? then price >= tp else price <= tp
  }

  function HalfSpread(q: Quote): real {
    if q.bid.Some? && q.offer.Some? && q.offer.value > q.bid.value
    then (q.offer.value - q.bid.value) / 2.0
    else 0.0
  }

  function Better(side: Side, a: real, b: real): real {
    if side.Buy? then Max(a, b) else Min(a, b)
  }

  /** The latched best price. The candle extreme is folded in only from the second tick on. */
  function NextMfe(side: Side, prev: Option<real>, price: real, hi: Option<real>, lo: Option<real>): real {
    if prev.None? then price
    else
      var extreme := if side.Buy? then hi else lo;
      var p := if extreme.Some? then Better(side, price, extreme.value) else price;
      Better(side, prev.value, p)
  }

  function Shift(x: Option<real>, d: real): Option<real> {
    if x.Some? then Some(x.value + d) else None
  }

  /** The tick's latch: candle extremes are mid prices, so they step back by half the spread. */
  function TickMfe(side: Side, prev: Option<real>, price: real, hi: Option<real>, lo: Option<real>, q: Quote): real {
    NextMfe(side, prev, price, Shift(hi, -HalfSpread(q)), Shift(lo, HalfSpread(q)))
  }

  function LevelsReached(side: Side, price: real, tps: map<int, real>): set<int> {
    set i | i in tps && ReachedTarget(side, price, tps[i])
  }

  /** A fill of 0 (or less) is an unknown fill: fall back to the planned entry. */
  function EntryBasis(fill: Option<real>, planned: real): real {
    if fill.Some? && fill.value > 0.0 then fill.value else planned
  }

  /** The broker gives no close level, so one is derived from the live price and the leg's levels. */
  function ClosePrice(side: Side, price: real, tp: real, sl: real, tol: real): real {
    if ReachedTarget(side, price, tp) || Abs(price - tp) <= tol then tp
    else if Reached(side, price, sl) || Abs(price - sl) <= tol then sl
    else price
  }

  datatype Outcome = TpHit | SlHit | Breakeven | Manual

  /** |P&L| at or below this counts as a break-even close. */
  const BE_MONEY_TOL := 0.05

  function ClassifyOutcome(closePx: real, entry: real, tp: real, sl: real, slMoved: bool, tol: real,
                           pl: Option<real>): Outcome
  {
    if slMoved && Abs(closePx - entry) <= tol then Breakeven
    else if pl.Some? && Abs(pl.value) <= BE_MONEY_TOL then Breakeven
    else
      var nearTp := Abs(closePx - tp) <= tol;
      var nearSl := Abs(closePx - sl) <= tol;
      if nearTp && !nearSl then TpHit
      else if nearSl && !nearTp then SlHit
      else if pl.Some? && pl.value > 0.0 then TpHit
      else if pl.Some? && pl.value < 0.0 then SlHit
      else Manual
  }

  /** The broker's own close reason wins, except that a ratcheted stop near entry is a break-even. */
  function CloseOutcome(reason: Option<Outcome>, closePx: real, entry: real, tp: real, sl: real, slMoved: bool,
                        tol: real, pl: Option<real>): Outcome
  {
    if reason == Some(SlHit) && slMoved && Abs(closePx - entry) <= tol then Breakeven
    else if reason.Some? then reason.value
    else ClassifyOutcome(closePx, entry, tp, sl, slMoved, tol, pl)
  }

  /** The estimate used when no broker transaction exists, in instrument currency. */
  function EstimatedPl(side: Side, closePx: real, entry: real, lot: real, valuePerPoint: real): real {
    (if side.Buy? then closePx - entry else entry - closePx) * lot * valuePerPoint
  }

  /** Transaction amounts arrive unsigned after a stop was moved; a stop-out is always a loss. */
  function SignedClosePl(pl: real, outcome: Outcome): real {
    if outcome == SlHit && pl > 0.0 then -pl else pl
  }
}
