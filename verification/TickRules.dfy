/** What one monitor tick reads about a trade, and what it makes of its stops and resting entries. */
module TickRules {
  import opened Wrappers
  import opened Prices
  import opened StopRules
  import Ratchet
  import opened Rows
  import opened Reconcile
  import opened Book
  import opened Invariants
  import opened Ladder

  /** One poll of the broker, and the trade's resolved configuration. `entry` is its staged-entry row, `mute`
      the legs whose close cannot be announced on the event bus. */
  datatype View = View(quote: Quote, hi: Option<real>, lo: Option<real>, snap: Snapshot, broker: Broker,
                       rules: seq<Rule>, initialSl: Option<real>, ttlSetting: Option<int>, cancelOnStop: bool,
                       entry: Option<StagedCfg>, mute: set<nat>)

  /** The snapshot reconciliation works from: priced on the side the trade closes on, with the TTL clamped. */
  function SnapOf(v: View, price: real, staged: bool): Snapshot {
    v.snap.(price := price, entryTtl := EffectiveEntryTtl(v.ttlSetting), staged := if staged then v.entry else None)
  }

  function FactsOf(v: View, tr: Trade, price: real, cfg: StagedCfg): Facts {
    var mid, ttl := MidPrice(v.quote, price), EffectiveEntryTtl(v.ttlSetting);
    FactsFrom(tr.side, v.quote, mid, v.snap.now, tr.createdAt, ttl, cfg)
  }

  /** TP prices over every leg of the trade, open or not. */
  function TpLevels(legs: seq<Leg>, t: nat): map<int, real> {
    if legs == [] then map[]
    else
      var n := |legs| - 1;
      var rest := TpLevels(legs[..n], t);
      if legs[n].trade == t then rest[legs[n].tpIndex := legs[n].tp] else rest
  }

  /** TPs some leg of the trade closed on. */
  function TpHits(legs: seq<Leg>, t: nat): set<int> {
    set i | 0 <= i < |legs| && legs[i].trade == t && legs[i].status.Closed? && legs[i].close.Some?
            && legs[i].close.value.outcome.TpHit? :: legs[i].tpIndex
  }

  function HitsOf(d: Db, t: nat, side: Side, mfe: real): set<int> {
    LevelsReached(side, mfe, TpLevels(d.legs, t)) + TpHits(d.legs, t)
  }

  /** The position a leg is linked to, if the broker still lists it. */
  function LivePos(positions: seq<Pos>, ref: Option<Ref>): (p: Option<Pos>)
    ensures p.Some? ==> p.value in positions && ref == Some(p.value.ref)
    ensures p.None? ==> forall k :: 0 <= k < |positions| ==> ref != Some(positions[k].ref)
  {
    if positions == [] then None
    else
      var last := positions[|positions| - 1];
      if ref == Some(last.ref) then Some(last) else LivePos(positions[..|positions| - 1], ref)
  }

  /** An unknown fill heals from the broker's open level. */
  function Healed(leg: Leg, p: Pos): Leg {
    if (leg.fill.None? || leg.fill == Some(0.0)) && p.openPx.Some? then leg.(fill := p.openPx) else leg
  }

  function StopContext(side: Side, v: View, price: real, tps: map<int, real>, leg: Leg): Position {
    Position(side, EntryBasis(leg.fill, leg.entry), Some(leg.sl), price, tps, v.initialSl)
  }

  /** The stop the rules want for a leg, if tighter than the one it has. */
  function StopFor(side: Side, v: View, price: real, tps: map<int, real>, hits: set<int>, leg: Leg): Option<real> {
    NewStop(StopContext(side, v, price, tps, leg), v.rules, hits)
  }

  /** The ratchet on one leg: nothing unless it is open on a listed position; then its fill heals, and its
      stop moves to what the rules want if the broker takes the move. */
  function Ratcheted(side: Side, v: View, price: real, tps: map<int, real>, hits: set<int>, a: Leg): Leg {
    var p := LivePos(v.snap.positions, a.posRef);
    if !a.status.Open? || p.None? then a
    else
      var h := Healed(a, p.value);
      var stop := StopFor(side, v, price, tps, hits, h);
      if stop.Some? && p.value.ref in v.broker.moves then h.(sl := stop.value, slMoved := true) else h
  }

  lemma RatchetedEvolves(side: Side, v: View, price: real, tps: map<int, real>, hits: set<int>, a: Leg)
    requires LegOk(a)
    ensures var b := Ratcheted(side, v, price, tps, hits, a); LegEdit(a, b) && LegEvolves(side, a, b)
  {}

  // ---- retiring entries --------------------------------------------------------------------------

  /** Cancel resting leg `i` and settle the tranche that owns it. */
  function RetireLeg(d: Db, i: nat, now: int): Db
    requires i < |d.legs|
  {
    d.(legs := d.legs[i := d.legs[i].(status := Cancelled)], tranches := ResolveOwner(d.tranches, i, Withdrawn, now))
  }

  /** Some pulled leg among the first `k` is the tranche's. */
  predicate LosesLeg(d: Db, t: nat, keys: set<Ref>, k: nat, tr: Tranche)
    requires k <= |d.legs|
  {
    exists i :: 0 <= i < k && i in tr.legs && Pulled(d.legs[i], t, keys)
  }

  /** The first `k` legs dealt with: resting orders among `keys` cancelled, and their tranches settled. */
  function RetirePulled(d: Db, t: nat, keys: set<Ref>, now: int, k: nat): (e: Db)
    requires k <= |d.legs|
    ensures SameSize(d, e)
  {
    Db(d.trades,
       seq(|d.tranches|, r requires 0 <= r < |d.tranches| =>
         if LosesLeg(d, t, keys, k, d.tranches[r]) && !Resolved(d.tranches[r].state)
         then d.tranches[r].(state := Withdrawn, since := now) else d.tranches[r]),
       PullOrders(d.legs, t, keys, k))
  }

  lemma RetireNext(d: Db, t: nat, keys: set<Ref>, now: int, k: nat)
    requires k < |d.legs|
    ensures var b := RetirePulled(d, t, keys, now, k);
            RetirePulled(d, t, keys, now, k + 1) == if Pulled(d.legs[k], t, keys) then RetireLeg(b, k, now) else b
  {
    var b := RetirePulled(d, t, keys, now, k);
    var want, c := if Pulled(d.legs[k], t, keys) then RetireLeg(b, k, now) else b, RetirePulled(d, t, keys, now, k + 1);
    forall r | 0 <= r < |d.tranches|
      ensures LosesLeg(d, t, keys, k + 1, d.tranches[r])
         <==> LosesLeg(d, t, keys, k, d.tranches[r]) || (k in d.tranches[r].legs && Pulled(d.legs[k], t, keys))
    {}
    assert c.tranches == want.tranches;
    assert c.legs == want.legs;
  }

  predicate AnyMoved(d: Db, t: nat) { exists i :: 0 <= i < |d.legs| && d.legs[i].trade == t && d.legs[i].slMoved }

  /** The rule-cancel. When the trade is in play its resting orders go; when it is out of the market,
      every row that still waits goes too. Only orders that are listed and that the broker lets go go. */
  function Retired(d: Db, t: nat, v: View, tpsHit: bool): (e: Db)
    ensures SameSize(d, e)
  {
    var why := CancelReason(d, t, tpsHit, AnyMoved(d, t));
    if !v.cancelOnStop || why.None? then d
    else
      var m := RetirePulled(d, t, v.snap.orders * v.broker.cancels, v.snap.now, |d.legs|);
      if why.value.StoppedOut? then WithdrawAllBut(m, t, |m.tranches|, v.snap.now) else m
  }

  predicate OutOfMarket(d: Db, t: nat) { EverFilled(d, t) && !AnyOpen(d, t) }

  /** Nothing is retired before a fill or with the flag off, and nothing waits once the trade is over. */
  lemma RetiredMeans(d: Db, t: nat, v: View, tpsHit: bool)
    ensures !v.cancelOnStop || !EverFilled(d, t) ==> Retired(d, t, v, tpsHit) == d
    ensures v.cancelOnStop && OutOfMarket(d, t) ==> NoneWaiting(Retired(d, t, v, tpsHit), t)
  {}

  lemma RetireLegOk(d: Db, i: nat, t: nat, now: int)
    requires WellFormed(d) && i < |d.legs| && d.legs[i].trade == t && d.legs[i].status.Working? && Managed(d, t)
    ensures EditOk(d, RetireLeg(d, i, now), t)
  {
    forall r | 0 <= r < |d.tranches| && i in d.tranches[r].legs ensures d.tranches[r].trade == t {
      assert OwnsLegs(d, d.tranches[r]);
    }
  }

  lemma EvolvedLegsOf(a: Db, b: Db, t: nat, ids: seq<nat>)
    requires Shaped(a) && Evolves(a, b) && LegsOfTrade(a, t, ids)
    ensures LegsOfTrade(b, t, ids)
  {}

  // ---- the whole tick ----------------------------------------------------------------------------

  ghost predicate ActiveIds(d: Db, t: nat, ids: seq<nat>) {
    && LegsOfTrade(d, t, ids) && Distinct(ids) && (forall k :: 0 <= k < |ids| ==> Active(d.legs[ids[k]].status))
    && (forall i :: 0 <= i < |d.legs| && d.legs[i].trade == t && Active(d.legs[i].status) ==> i in ids)
  }

  function Latched(d: Db, t: nat, mfe: real): Db
    requires t < |d.trades|
  {
    d.(trades := d.trades[t := d.trades[t].(mfe := Some(mfe))])
  }

  function MfeOf(d: Db, t: nat, v: View, price: real): real
    requires t < |d.trades|
  {
    TickMfe(d.trades[t].side, d.trades[t].mfe, price, v.hi, v.lo, v.quote)
  }

  /** The extreme of the tick's candle on the side the trade gains, as the closing side saw it. */
  function Extreme(side: Side, v: View): Option<real> {
    if side.Buy? then Shift(v.hi, -HalfSpread(v.quote)) else Shift(v.lo, HalfSpread(v.quote))
  }

  /** Level `tp` was known before the tick, or the tick's price reaches it, or its candle does, which counts
      from the second tick on. */
  predicate Knows(d: Db, t: nat, v: View, price: real, tp: real)
    requires t < |d.trades|
  {
    var side, prev := d.trades[t].side, d.trades[t].mfe;
    || ReachedTarget(side, price, tp)
    || (prev.Some? && ReachedTarget(side, prev.value, tp))
    || (prev.Some? && Extreme(side, v).Some? && ReachedTarget(side, Extreme(side, v).value, tp))
  }

  /** The latch reaches exactly the levels the tick knows of, covers the tick's price, and never walks back. */
  ghost predicate LatchIsRight(d: Db, t: nat, v: View, price: real, mfe: real)
    requires t < |d.trades|
  {
    var tr := d.trades[t];
    && (forall tp :: ReachedTarget(tr.side, mfe, tp) <==> Knows(d, t, v, price, tp))
    && !Tighter(tr.side, price, mfe) && (tr.mfe.Some? ==> !Tighter(tr.side, tr.mfe.value, mfe))
  }

  lemma LatchMeans(d: Db, t: nat, v: View, price: real)
    requires t < |d.trades|
    ensures LatchIsRight(d, t, v, price, MfeOf(d, t, v, price))
  {
    var poll := Ratchet.Poll(price, Shift(v.hi, -HalfSpread(v.quote)), Shift(v.lo, HalfSpread(v.quote)), {}, false);
    forall tp ensures ReachedTarget(d.trades[t].side, MfeOf(d, t, v, price), tp) <==> Knows(d, t, v, price, tp) {
      Ratchet.LatchAdds(d.trades[t].side, d.trades[t].mfe, poll, tp);
    }
  }

  /** Each leg of `ids` ratcheted. */
  function StopsMoved(d: Db, t: nat, ids: seq<nat>, v: View, price: real, tps: map<int, real>, hits: set<int>): Db
    requires t < |d.trades|
  {
    d.(legs := seq(|d.legs|, i requires 0 <= i < |d.legs| =>
      if i in ids then Ratcheted(d.trades[t].side, v, price, tps, hits, d.legs[i]) else d.legs[i]))
  }

  /** Ratcheting leg `ids[k]` too. */
  lemma StopsMovedNext(d: Db, t: nat, ids: seq<nat>, k: nat, v: View, price: real, tps: map<int, real>, hits: set<int>)
    requires t < |d.trades| && k < |ids| && Distinct(ids) && ids[k] < |d.legs|
    ensures var e, i := StopsMoved(d, t, ids[..k], v, price, tps, hits), ids[k];
            && e.trades == d.trades && e.legs[i] == d.legs[i]
            && StopsMoved(d, t, ids[..k + 1], v, price, tps, hits)
               == SetLeg(e, i, Ratcheted(d.trades[t].side, v, price, tps, hits, d.legs[i]))
  {
    var e, i := StopsMoved(d, t, ids[..k], v, price, tps, hits), ids[k];
    assert i !in ids[..k] && ids[..k + 1] == ids[..k] + [i];
    assert StopsMoved(d, t, ids[..k + 1], v, price, tps, hits).legs
        == SetLeg(e, i, Ratcheted(d.trades[t].side, v, price, tps, hits, d.legs[i])).legs;
  }

  /** The ratchet over the legs `ids`, on the levels and hits of the rows as the pass left them. */
  function StopsOf(r: Db, t: nat, ids: seq<nat>, v: View, price: real, mfe: real): Db
    requires t < |r.trades|
  {
    StopsMoved(r, t, ids, v, price, TpLevels(r.legs, t), HitsOf(r, t, r.trades[t].side, mfe))
  }

  /** Reconcile and ratchet, once `mfe` is latched. */
  function ReviewedFrom(l: Db, t: nat, v: View, price: real, ids: seq<nat>, staged: bool, mfe: real): Db
    requires t < |l.trades| && LegsOfTrade(l, t, ids)
  {
    StopsOf(Reconciled(l, t, SnapOf(v, price, staged), ids, false), t, ids, v, price, mfe)
  }

  /** Latch, reconcile and ratchet. */
  function Reviewed(d: Db, t: nat, v: View, price: real, ids: seq<nat>, staged: bool): Db
    requires t < |d.trades| && LegsOfTrade(d, t, ids)
  {
    var mfe := MfeOf(d, t, v, price);
    ReviewedFrom(Latched(d, t, mfe), t, v, price, ids, staged, mfe)
  }

  /** Every close of the pass could be announced. */
  ghost predicate Announced(d: Db, t: nat, v: View, price: real, ids: seq<nat>, staged: bool)
    requires t < |d.trades| && LegsOfTrade(d, t, ids)
  {
    var e := Latched(d, t, MfeOf(d, t, v, price));
    EndsAfter(CtxFor(e, t, SnapOf(v, price, staged)), ScanOf(e), ids, v.mute, |ids|, false)
  }

  /** An exception ended the tick: at the first close that could not be announced, or after the whole pass. */
  ghost predicate BrokenOff(a: Db, b: Db, t: nat, v: View, price: real, ids: seq<nat>, staged: bool)
    requires t < |a.trades| && LegsOfTrade(a, t, ids)
  {
    var d, snap := Latched(a, t, MfeOf(a, t, v, price)), SnapOf(v, price, staged);
    exists n: nat, cut: bool ::
      && EndsAfter(CtxFor(d, t, snap), ScanOf(d), ids, v.mute, n, cut)
      && b == Reconciled(d, t, snap, ids[..n], cut)
  }

  /** TPs reached, as the rule-cancel sees them. */
  predicate TpsReached(d: Db, t: nat, v: View, price: real, ids: seq<nat>, staged: bool)
    requires t < |d.trades| && LegsOfTrade(d, t, ids)
  {
    var mfe := MfeOf(d, t, v, price);
    var r := Reconciled(Latched(d, t, mfe), t, SnapOf(v, price, staged), ids, false);
    HitsOf(r, t, r.trades[t].side, mfe) != {}
  }

  /** Everything before the ladder: latch, reconcile, ratchet, retire. */
  function LegsManaged(d: Db, t: nat, v: View, price: real, ids: seq<nat>, staged: bool): Db
    requires t < |d.trades| && LegsOfTrade(d, t, ids)
  {
    Retired(Reviewed(d, t, v, price, ids, staged), t, v, TpsReached(d, t, v, price, ids, staged))
  }

  /** The ladder is driven only for a staged trade whose entry row is there. */
  ghost predicate DrivenIfStaged(a: Db, b: Db, t: nat, v: View, price: real, staged: bool) {
    if staged && v.entry.Some? && t < |a.trades|
    then LadderDriven(FactsOf(v, a.trades[t], price, v.entry.value), v.broker, a, b, t) else b == a
  }

  /** No waiting row of the trade is older than its entry TTL. */
  predicate NoneOverdue(d: Db, t: nat, v: View) {
    forall r :: 0 <= r < |d.tranches| && WaitsIn(d, r, t)
      ==> v.snap.now - d.tranches[r].since <= 60 * EffectiveEntryTtl(v.ttlSetting)
  }

  /** A whole tick of trade `t`: its legs managed, its ladder driven if it has one, and the roll-up. */
  ghost predicate Ticked(a: Db, b: Db, t: nat, v: View, price: real, ids: seq<nat>, staged: bool)
    requires t < |a.trades| && LegsOfTrade(a, t, ids)
  {
    exists d: Db ::
      && DrivenIfStaged(LegsManaged(a, t, v, price, ids, staged), d, t, v, price, staged)
      && t < |d.trades| && b == RolledUp(d, t)
  }

  /** One trade's tick: closed when nothing of it is left, skipped without a price, and otherwise run to its
      roll-up unless an exception broke it off. */
  ghost predicate TradeTicked(a: Db, b: Db, t: nat, v: View)
    requires t < |a.trades|
  {
    var price, staged := ClosingSide(a.trades[t].side, v.quote), a.trades[t].staged || !NoneWaiting(a, t);
    if Quiet(a, t) then b == SetStatus(a, t, Done)
    else if price.None? then b == a
    else exists ids :: ActiveIds(a, t, ids) && LegsTicked(a, b, t, v, price.value, ids, staged)
  }

  ghost predicate LegsTicked(a: Db, b: Db, t: nat, v: View, price: real, ids: seq<nat>, staged: bool)
    requires t < |a.trades| && LegsOfTrade(a, t, ids)
  {
    || (Announced(a, t, v, price, ids, staged) && Ticked(a, b, t, v, price, ids, staged))
    || BrokenOff(a, b, t, v, price, ids, staged)
  }

  /** A roll-up closes the trade exactly when nothing of it is left, and touches no other row. */
  lemma RolledStatus(d: Db, t: nat)
    requires Managed(d, t)
    ensures var e := RolledUp(d, t);
            (e.trades[t].status.Done? <==> Quiet(e, t)) && (NoneWaiting(e, t) <==> NoneWaiting(d, t))
  {}

  lemma PendingMeans(d: Db, t: nat, ids: seq<nat>, rows: seq<nat>)
    requires ActiveIds(d, t, ids) && IsPending(d, t, rows)
    ensures rows == [] <==> NoneWaiting(d, t)
    ensures ids == [] && rows == [] <==> Quiet(d, t)
  {
    if rows != [] {
      assert d.tranches[rows[0]].state.Waiting?;
    }
    if ids != [] {
      assert Active(d.legs[ids[0]].status);
    }
  }
}
