/**
 What the pass makes of a position that is gone, in prices: where the close is put, what it is called and what
 it is worth.
 */
module CloseMeaning {
  import opened Wrappers
  import opened Prices
  import opened Rows
  import opened Reconcile
  import opened Links

  /** `a` and `b` are at most `tol` apart. */
  predicate Near(a: real, b: real, tol: real) { a <= b + tol && b <= a + tol }

  /** A close at live price `price` of a leg with these levels: at the target from `tol` short of it on, at the
      stop from `tol` short of that on, and at the live price between the two. */
  predicate PricedAt(side: Side, price: real, tp: real, sl: real, tol: real, px: real) {
    match side
    case Buy => if tp - tol <= price then px == tp else if price <= sl + tol then px == sl else px == price
    case Sell => if price <= tp + tol then px == tp else if sl - tol <= price then px == sl else px == price
  }

  lemma CloseIsPriced(side: Side, price: real, tp: real, sl: real, tol: real)
    requires tol >= 0.0
    ensures PricedAt(side, price, tp, sl, tol, ClosePrice(side, price, tp, sl, tol))
  {}

  /** With the stop on the losing side, a better live price never gives a worse close, and the close is never
      outside the two levels by more than the live price is. */
  lemma BetterPriceCloses(side: Side, p: real, q: real, tp: real, sl: real, tol: real)
    requires tol >= 0.0 && (side == Buy ==> p <= q && sl <= tp) && (side == Sell ==> q <= p && tp <= sl)
    ensures var a, b := ClosePrice(side, p, tp, sl, tol), ClosePrice(side, q, tp, sl, tol);
            && (side == Buy ==> sl <= a <= b <= tp)
            && (side == Sell ==> tp <= b <= a <= sl)
  {}

  /** The broker says why a position closed, except that a stop moved up to the entry is no loss. Without its
      word a close at the entry on a moved stop, or for no more than five cents, is a break-even; then the one
      level the close is near names it; then the sign of its amount; and otherwise it is manual. */
  predicate NamedAs(reason: Option<Outcome>, px: real, entry: real, tp: real, sl: real, moved: bool, tol: real,
                    amount: Option<real>, outcome: Outcome)
  {
    var atEntry, atTp, atSl := moved && Near(px, entry, tol), Near(px, tp, tol), Near(px, sl, tol);
    var flat := amount.Some? && -0.05 <= amount.value <= 0.05;
    match reason
    case Some(r) => outcome == if r == SlHit && atEntry then Breakeven else r
    case None =>
      && (outcome == Breakeven <==> atEntry || flat)
      && (outcome == TpHit <==> !atEntry && !flat
                                && ((atTp && !atSl) || (atTp == atSl && amount.Some? && 0.0 < amount.value)))
      && (outcome == SlHit <==> !atEntry && !flat
                                && ((atSl && !atTp) || (atTp == atSl && amount.Some? && amount.value < 0.0)))
  }

  lemma CloseIsNamed(reason: Option<Outcome>, px: real, entry: real, tp: real, sl: real, moved: bool, tol: real,
                     amount: Option<real>)
    ensures NamedAs(reason, px, entry, tp, sl, moved, tol, amount,
                    CloseOutcome(reason, px, entry, tp, sl, moved, tol, amount))
  {}

  /** What the leg paid to get in: its fill, unless that is unknown. */
  predicate PaidFor(leg: Leg, entry: real) {
    match leg.fill
    case Some(fill) => entry == if 0.0 < fill then fill else leg.entry
    case None => entry == leg.entry
  }

  /** What is near, for the broker's minimum stop distance: that, or a thousandth of the target's price. */
  predicate NearBy(minStop: Option<real>, tp: real, tol: real) {
    if minStop.Some? && minStop.value != 0.0 then tol == minStop.value
    else tol >= 0.0 && (1000.0 * tol == tp || 1000.0 * tol == 0.0 - tp)
  }

  predicate ReasonFor(reasons: map<Ref, Outcome>, ref: Option<Ref>, reason: Option<Outcome>) {
    match reason
    case Some(r) => ref.Some? && ref.value in reasons && reasons[ref.value] == r
    case None => ref.None? || ref.value !in reasons
  }

  /** The row is one of the leg's own position. */
  predicate Own(a: Leg, m: Option<Txn>) { m.Some? && a.posRef.Some? && m.value.deal == a.posRef }

  /** Where the close is put and what it is called, with tolerance `tol`, entry `entry` and the broker's word. */
  predicate Described(c: Ctx, a: Leg, close: Close, m: Option<Txn>, tol: real, entry: real, reason: Option<Outcome>) {
    && PaidFor(a, entry) && NearBy(c.snap.minStop, a.tp, tol) && ReasonFor(c.snap.reasons, a.posRef, reason)
    && (tol >= 0.0 ==> PricedAt(c.side, c.snap.price, a.tp, a.sl, tol, close.price))
    && NamedAs(reason, close.price, entry, a.tp, a.sl, a.slMoved, tol, if Own(a, m) then m.value.pl else None,
               close.outcome)
  }

  /** The amount of a row of the leg's own position is booked, as a loss when it was stopped out; with no row at
      all the close is worth the points it gained; and a row of another position says nothing about money. */
  predicate Valued(c: Ctx, a: Leg, close: Close, m: Option<Txn>, entry: real) {
    if Own(a, m) then
      && close.basis == Some(Exact) && (close.pl.Some? <==> m.value.pl.Some?)
      && (close.pl.Some? ==> BookedFor(m.value.pl.value, close.outcome, close.pl.value))
    else if m.Some? then close.basis == Some(Unattributed) && close.pl.None?
    else close.basis == Some(Heuristic) && close.pl.Some?
         && Worth(c.side, close.price, entry, a.lot, c.snap.valuePerPoint, close.pl.value)
  }

  predicate Worth(side: Side, px: real, entry: real, lot: real, perPoint: real, pl: real) {
    match side
    case Buy => pl == (px - entry) * lot * perPoint
    case Sell => pl == (entry - px) * lot * perPoint
  }

  /** Leg `b` is leg `a` as the pass closed it, with `m` the history row it was matched to, if any. */
  ghost predicate ClosedFrom(c: Ctx, a: Leg, b: Leg, m: Option<Txn>) {
    && b == a.(status := Closed, close := b.close) && b.close.Some?
    && exists tol: real, entry: real, reason: Option<Outcome> ::
         Described(c, a, b.close.value, m, tol, entry, reason) && Valued(c, a, b.close.value, m, entry)
  }

  lemma CloseIsDescribed(c: Ctx, leg: Leg, m: Option<Txn>) returns (tol: real, reason: Option<Outcome>)
    ensures Described(c, leg, CloseOf(c, leg, m), m, tol, EntryBasis(leg.fill, leg.entry), reason)
  {
    tol := Tolerance(c.snap.minStop, leg.tp);
    reason := if leg.posRef.Some? && leg.posRef.value in c.snap.reasons
              then Some(c.snap.reasons[leg.posRef.value]) else None;
    CloseIsNamed(reason, CloseOf(c, leg, m).price, EntryBasis(leg.fill, leg.entry), leg.tp, leg.sl, leg.slMoved, tol,
                 if Classify(m, leg.posRef).Exact? then m.value.pl else None);
    if tol >= 0.0 {
      CloseIsPriced(c.side, c.snap.price, leg.tp, leg.sl, tol);
    }
  }

  lemma EstimateIsWorth(side: Side, px: real, entry: real, lot: real, perPoint: real)
    ensures Worth(side, px, entry, lot, perPoint, EstimatedPl(side, px, entry, lot, perPoint))
  {}

  lemma CloseIsBooked(c: Ctx, leg: Leg, m: Option<Txn>)
    ensures Valued(c, leg, CloseOf(c, leg, m), m, EntryBasis(leg.fill, leg.entry))
  {
    EstimateIsWorth(c.side, CloseOf(c, leg, m).price, EntryBasis(leg.fill, leg.entry), leg.lot, c.snap.valuePerPoint);
  }

  lemma SettleMeans(c: Ctx, leg: Leg, m: Option<Txn>)
    ensures ClosedFrom(c, leg, Settle(c, leg, m), m)
  {
    var tol, reason := CloseIsDescribed(c, leg, m);
    CloseIsBooked(c, leg, m);
  }

  /** Every leg a visit closes is closed so, on the row the visit consumed if it consumed one. */
  lemma VisitCloses(c: Ctx, s: Scan, i: nat)
    requires i < |s.legs| && !s.legs[i].status.Closed? && VisitLeg(c, s, i).legs[i].status.Closed?
    ensures var t := VisitLeg(c, s, i);
            || (t.used == s.used && ClosedFrom(c, s.legs[i], t.legs[i], None))
            || exists k: nat :: k < |c.snap.txns| && k !in s.used && t.used == s.used + {k}
                                && ClosedFrom(c, s.legs[i], t.legs[i], Some(c.snap.txns[k]))
  {
    var leg := s.legs[i];
    var m := MatchTxn(c.snap, s.used, leg, leg.status.Working? && Resting(c, leg));
    SettleMeans(c, leg, Row(c, m));
  }
}
