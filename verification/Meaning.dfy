/** What the monitor's decisions come to in quotes and levels, without the functions they are made with. */
module QuoteMeaning {
  import opened Wrappers
  import opened Prices
  import opened Rows
  import opened Reconcile
  import opened Book
  import opened Ladder
  import opened TickRules

  // ---- the ladder ----------------------------------------------------------------------------------

  /** The quote is at an entry level: for a BUY the offer is down at it, for a SELL the bid is up at it. A side
      that is not quoted is taken at `price`. */
  predicate EntryQuoted(side: Side, q: Quote, price: real, level: real) {
    match side
    case Buy => (match q.offer case Some(offer) => offer <= level case None => price <= level)
    case Sell => (match q.bid case Some(bid) => level <= bid case None => level <= price)
  }

  /** The quote is at a target: for a BUY the bid is up at it, for a SELL the offer is down at it. */
  predicate TargetQuoted(side: Side, q: Quote, price: real, level: real) {
    match side
    case Buy => (match q.bid case Some(bid) => level <= bid case None => level <= price)
    case Sell => (match q.offer case Some(offer) => offer <= level case None => price <= level)
  }

  predicate Quoted(v: View, tr: Trade, price: real, row: Tranche) {
    row.level.Some?
    && if row.role.at == Tp1 then TargetQuoted(tr.side, v.quote, price, row.level.value)
       else EntryQuoted(tr.side, v.quote, price, row.level.value)
  }

  predicate Aged(v: View, tr: Trade, cfg: StagedCfg) {
    cfg.maxEntryAge > 0 && v.snap.now > tr.createdAt + 60 * cfg.maxEntryAge
  }

  /** The entry TTL in force: the configured minutes held between 1 and 480, or an hour when none are. */
  function TtlSec(v: View): int {
    match v.ttlSetting
    case None => 3600
    case Some(m) => if m < 1 then 60 else if m > 480 then 28800 else 60 * m
  }

  /** Which rungs a quote deploys, which rows time out, and which cancel rows it sets off. */
  lemma VerdictOnQuote(v: View, tr: Trade, price: real, cfg: StagedCfg, row: Tranche)
    ensures var f := FactsOf(v, tr, price, cfg);
            && (Touched(f, row) <==> Quoted(v, tr, price, row))
            && (Due(f, row) <==> row.role.Rung? && Quoted(v, tr, price, row) && !Aged(v, tr, cfg))
            && (Lapsed(f, row) <==> (row.role.Rung? && Aged(v, tr, cfg)) || v.snap.now > row.since + TtlSec(v))
            && f.now == v.snap.now
  {}

  /** A whole tick of a staged trade that reaches its roll-up, from the legs as managed: with a cancel row due
      one of them fires, and otherwise every waiting row gets what the quote says. */
  lemma TickDrives(a: Db, b: Db, t: nat, v: View, price: real, ids: seq<nat>)
    requires t < |a.trades| && LegsOfTrade(a, t, ids) && v.entry.Some?
    requires Ticked(a, b, t, v, price, ids, true)
    ensures var m := LegsManaged(a, t, v, price, ids, true);
            && t < |m.trades|
            && var f := FactsOf(v, m.trades[t], price, v.entry.value);
               exists d: Db ::
                 && d.tranches == b.tranches && d.legs == b.legs
                 && if CancelDue(f, m, t) then OneFired(f, m, d, t, v.broker.cancels)
                    else RowsDriven(f, v.broker, m, d, t)
  {
    var m := LegsManaged(a, t, v, price, ids, true);
    ManagedKeepsTrades(a, t, v, price, ids, true);
    var d: Db :| DrivenIfStaged(m, d, t, v, price, true) && t < |d.trades| && b == RolledUp(d, t);
    DriveMeans(FactsOf(v, m.trades[t], price, v.entry.value), v.broker, m, d, t);
  }

  lemma ManagedKeepsTrades(a: Db, t: nat, v: View, price: real, ids: seq<nat>, staged: bool)
    requires t < |a.trades| && LegsOfTrade(a, t, ids)
    ensures |LegsManaged(a, t, v, price, ids, staged).trades| == |a.trades|
  {}

  // ---- the price and what the pass is told ---------------------------------------------------------

  /** The price a tick works at: what the side that closes the trade is quoted, or the last price when that is
      missing or 0; no price when both are missing. */
  lemma ClosingPrice(side: Side, q: Quote)
    ensures var quoted := match side case Buy => q.bid case Sell => q.offer;
            ClosingSide(side, q) == if quoted.None? || quoted == Some(0.0) then q.last else quoted
  {}

  /** The pass sees the broker's snapshot at this price, with the entry TTL in force, and a staged trade's entry
      row. */
  lemma PassSees(v: View, price: real, staged: bool)
    ensures var snap := SnapOf(v, price, staged);
            && snap.price == price && 60 * snap.entryTtl == TtlSec(v)
            && (snap.staged == if staged then v.entry else None)
            && snap.positions == v.snap.positions && snap.orders == v.snap.orders && snap.txns == v.snap.txns
            && snap.reasons == v.snap.reasons && snap.minStop == v.snap.minStop && snap.now == v.snap.now
            && snap.valuePerPoint == v.snap.valuePerPoint
  {}

  /** And the trade's side and age, with every leg of its rows but the signal's own counted as placed late. */
  lemma PassKnows(d: Db, t: nat, snap: Snapshot, i: nat)
    requires t < |d.trades|
    ensures var c := CtxFor(d, t, snap);
            && c.side == d.trades[t].side && c.createdAt == d.trades[t].createdAt && c.snap == snap
            && (i in c.late <==> exists r :: 0 <= r < |d.tranches| && PlacesLate(d.tranches[r], t, i))
    ensures var s := ScanOf(d);
            && s.legs == d.legs && s.tranches == d.tranches && s.used == {}
            && (i in s.linked <==> exists k :: 0 <= k < |d.legs| && OpenOn(d.legs[k], i))
  {
    var c, s := CtxFor(d, t, snap), ScanOf(d);
    if r :| 0 <= r < |d.tranches| && PlacesLate(d.tranches[r], t, i) {
      var k :| 0 <= k < |d.tranches[r].legs| && d.tranches[r].legs[k] == i;
      assert d.tranches[r].legs[k] in c.late;
    }
    if k :| 0 <= k < |d.legs| && OpenOn(d.legs[k], i) {
      assert d.legs[k].posRef.value in s.linked;
    }
  }

  predicate PlacesLate(tr: Tranche, t: nat, i: nat) { tr.trade == t && tr.role != Rung(Signal) && i in tr.legs }

  predicate OpenOn(l: Leg, ref: Ref) { l.status == Open && l.posRef == Some(ref) }

  /** The ratchet's first step: a fill that is unknown is read off the listed position. */
  lemma HealsFill(leg: Leg, p: Pos)
    ensures Healed(leg, p)
         == if (leg.fill == None || leg.fill == Some(0.0)) && p.openPx != None then leg.(fill := p.openPx) else leg
  {}

  // ---- the latch and the hits ----------------------------------------------------------------------

  /** Half of what the broker charges between the two sides, when both are quoted and not crossed. */
  function Half(q: Quote): real {
    match (q.bid, q.offer)
    case (Some(b), Some(o)) => if b < o then (o - b) / 2.0 else 0.0
    case _ => 0.0
  }

  /** `best` is the furthest of the prices `seen` in the direction of the trade. */
  predicate Furthest(side: Side, best: real, seen: set<real>) {
    best in seen && forall x :: x in seen ==> if side.Buy? then x <= best else best <= x
  }

  /** The prices a tick has to latch: its own, and once something is latched that and the candle's extreme as
      the closing side saw it. */
  function Seen(side: Side, v: View, price: real, prev: Option<real>): set<real> {
    match prev
    case None => {price}
    case Some(p) =>
      {price, p} + (match side
                    case Buy => if v.hi.Some? then {v.hi.value - Half(v.quote)} else {}
                    case Sell => if v.lo.Some? then {v.lo.value + Half(v.quote)} else {})
  }

  lemma LatchIsFurthest(d: Db, t: nat, v: View, price: real)
    requires t < |d.trades|
    ensures var tr := d.trades[t]; Furthest(tr.side, MfeOf(d, t, v, price), Seen(tr.side, v, price, tr.mfe))
  {}

  /** `tp` is the level of TP `i`: that of the last leg of the trade with this index. */
  predicate LastLevel(legs: seq<Leg>, t: nat, i: int, tp: real) {
    exists k :: 0 <= k < |legs| && LevelAt(legs, t, i, k) && legs[k].tp == tp
                && forall m :: k < m < |legs| ==> !LevelAt(legs, t, i, m)
  }

  predicate LevelAt(legs: seq<Leg>, t: nat, i: int, k: nat)
    requires k < |legs|
  {
    legs[k].trade == t && legs[k].tpIndex == i
  }

  lemma {:induction false} LevelsAreLegs(legs: seq<Leg>, t: nat, i: int, tp: real)
    ensures i in TpLevels(legs, t) && TpLevels(legs, t)[i] == tp <==> LastLevel(legs, t, i, tp)
  {
    if legs != [] {
      var n := |legs| - 1;
      LevelsAreLegs(legs[..n], t, i, tp);
      if LevelAt(legs, t, i, n) {
        assert LastLevel(legs, t, i, legs[n].tp);
      } else {
        if LastLevel(legs[..n], t, i, tp) {
          var k :| 0 <= k < n && LevelAt(legs[..n], t, i, k) && legs[..n][k].tp == tp
                   && forall m :: k < m < n ==> !LevelAt(legs[..n], t, i, m);
          assert LevelAt(legs, t, i, k)
              && forall m :: k < m < n ==> LevelAt(legs, t, i, m) == LevelAt(legs[..n], t, i, m);
        }
        if LastLevel(legs, t, i, tp) {
          var k :| 0 <= k < |legs| && LevelAt(legs, t, i, k) && legs[k].tp == tp
                   && forall m :: k < m < |legs| ==> !LevelAt(legs, t, i, m);
          assert LevelAt(legs[..n], t, i, k)
              && forall m :: k < m < n ==> LevelAt(legs, t, i, m) == LevelAt(legs[..n], t, i, m);
        }
      }
    }
  }

  /** A TP counts as hit when the latched price is at or beyond its level, or a leg of it closed there. */
  lemma HitsAre(d: Db, t: nat, side: Side, mfe: real, i: int)
    ensures i in HitsOf(d, t, side, mfe)
       <==> || (exists tp :: LastLevel(d.legs, t, i, tp) && (side == Buy ==> tp <= mfe) && (side == Sell ==> mfe <= tp))
            || (exists k :: 0 <= k < |d.legs| && LevelAt(d.legs, t, i, k) && ClosedAtTarget(d.legs[k]))
  {
    forall tp ensures i in TpLevels(d.legs, t) && TpLevels(d.legs, t)[i] == tp <==> LastLevel(d.legs, t, i, tp) {
      LevelsAreLegs(d.legs, t, i, tp);
    }
    if i in TpLevels(d.legs, t) {
      assert LastLevel(d.legs, t, i, TpLevels(d.legs, t)[i]);
    }
    if k :| 0 <= k < |d.legs| && LevelAt(d.legs, t, i, k) && ClosedAtTarget(d.legs[k]) {
      assert i in TpHits(d.legs, t);
    }
    if i in TpHits(d.legs, t) {
      var k :| 0 <= k < |d.legs| && d.legs[k].trade == t && d.legs[k].status.Closed? && d.legs[k].close.Some?
               && d.legs[k].close.value.outcome.TpHit? && d.legs[k].tpIndex == i;
      assert LevelAt(d.legs, t, i, k);
    }
  }

  predicate ClosedAtTarget(l: Leg) { l.status == Closed && l.close.Some? && l.close.value.outcome == TpHit }
}
