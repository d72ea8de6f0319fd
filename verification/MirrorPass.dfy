/** The mirror on the monitor's whole tick of a trade's legs: latch, reconciliation pass and ratchet. */
module MirrorPass {
  import opened Wrappers
  import opened Prices
  import opened StopRules
  import opened Rows
  import opened Reconcile
  import opened Book
  import opened Ladder
  import opened TickRules
  import D = Duality
  import opened MirrorTick

  function MirrorLegs(K: real, legs: seq<Leg>): (ms: seq<Leg>)
    ensures |ms| == |legs|
  {
    seq(|legs|, i requires 0 <= i < |legs| => MirrorLeg(K, legs[i]))
  }

  function MirrorRows(K: real, rows: seq<Tranche>): (ms: seq<Tranche>)
    ensures |ms| == |rows|
  {
    seq(|rows|, r requires 0 <= r < |rows| => MirrorRow(K, rows[r]))
  }

  function MirrorScan(K: real, s: Scan): Scan {
    s.(legs := MirrorLegs(K, s.legs), tranches := MirrorRows(K, s.tranches))
  }

  /** Fills and open levels are real prices, so 0 means unknown on neither side of the mirror. */
  predicate RealFills(K: real, legs: seq<Leg>) {
    forall i :: 0 <= i < |legs| ==> D.Inside(K, legs[i].fill)
  }

  predicate RealSnap(K: real, s: Snapshot) {
    && s.minStop.Some? && s.minStop.value != 0.0
    && forall k :: 0 <= k < |s.positions| ==> D.Inside(K, s.positions[k].openPx)
  }

  predicate RealQuote(K: real, q: Quote) { D.Inside(K, q.bid) && D.Inside(K, q.offer) && D.Inside(K, q.last) }

  // ---- lookups -------------------------------------------------------------------------------------

  lemma LastChar(s: string, suffix: string)
    requires suffix != ""
    ensures EndsWith(s, suffix) ==> s != "" && s[|s| - 1] == suffix[|suffix| - 1]
  {
    if EndsWith(s, suffix) {
      assert s[|s| - |suffix|..][|suffix| - 1] == s[|s| - 1];
    }
  }

  lemma NameFlips(name: string, side: Side)
    ensures EndsWith(FlipName(name), SideName(D.Flip(side))) <==> EndsWith(name, SideName(side))
  {
    var m := FlipName(name);
    LastChar(m, "BUY");
    LastChar(m, "SELL");
    LastChar(name, "BUY");
    LastChar(name, "SELL");
    if EndsWith(name, "BUY") {
      assert m[|m| - 4..] == "SELL";
    } else if EndsWith(name, "SELL") {
      assert m[|m| - 3..] == "BUY";
    }
  }

  lemma {:induction false} FilledByMirrors(K: real, ps: seq<Pos>, order: Option<Ref>)
    ensures FilledBy(MirrorPositions(K, ps), order)
         == (var p := FilledBy(ps, order); if p.Some? then Some(MirrorPos(K, p.value)) else None)
  {
    if ps != [] {
      var n := |ps| - 1;
      FilledByMirrors(K, ps[..n], order);
      assert MirrorPositions(K, ps)[..n] == MirrorPositions(K, ps[..n]);
    }
  }

  lemma ClaimMirrors(K: real, side: Side, linked: set<Ref>, p: Pos)
    ensures Claimable(D.Flip(side), linked, MirrorPos(K, p)) <==> Claimable(side, linked, p)
  {
    NameFlips(p.direction, side);
  }

  lemma {:induction false} GuessMirrors(K: real, side: Side, ps: seq<Pos>, linked: set<Ref>)
    ensures Guess(D.Flip(side), MirrorPositions(K, ps), linked)
         == (var p := Guess(side, ps, linked); if p.Some? then Some(MirrorPos(K, p.value)) else None)
  {
    if ps != [] {
      ClaimMirrors(K, side, linked, ps[0]);
      GuessMirrors(K, side, ps[1..], linked);
      assert MirrorPositions(K, ps)[1..] == MirrorPositions(K, ps[1..]);
    }
  }

  lemma LinkForMirrors(K: real, c: Ctx, linked: set<Ref>, leg: Leg)
    ensures LinkFor(MirrorCtx(K, c), linked, MirrorLeg(K, leg))
         == (var p := LinkFor(c, linked, leg); if p.Some? then Some(MirrorPos(K, p.value)) else None)
  {
    FilledByMirrors(K, c.snap.positions, leg.orderRef);
    GuessMirrors(K, c.side, c.snap.positions, linked);
  }

  lemma LinkMirrors(K: real, leg: Leg, p: Pos)
    requires D.Inside(K, leg.fill) && D.Inside(K, p.openPx)
    ensures Link(MirrorLeg(K, leg), MirrorPos(K, p)) == MirrorLeg(K, Link(leg, p))
  {}

  lemma SettleMirrors(K: real, c: Ctx, leg: Leg, m: Option<Txn>)
    requires RealSnap(K, c.snap) && D.Inside(K, leg.fill)
    ensures Settle(MirrorCtx(K, c), MirrorLeg(K, leg), m) == MirrorLeg(K, Settle(c, leg, m))
  {
    CloseOfMirrors(K, c, leg, m);
  }

  // ---- the pass ------------------------------------------------------------------------------------

  lemma SetMirrors(K: real, legs: seq<Leg>, i: nat, leg: Leg)
    requires i < |legs|
    ensures MirrorLegs(K, legs[i := leg]) == MirrorLegs(K, legs)[i := MirrorLeg(K, leg)]
  {}

  lemma ResolveMirrors(K: real, rows: seq<Tranche>, i: nat, state: TrancheState, now: int)
    ensures ResolveOwner(MirrorRows(K, rows), i, state, now) == MirrorRows(K, ResolveOwner(rows, i, state, now))
  {}

  lemma GiveUpMirrors(K: real, c: Ctx, s: Scan, i: nat, exactOnly: bool, status: LegStatus, state: TrancheState)
    requires i < |s.legs| && RealSnap(K, c.snap) && RealFills(K, s.legs)
    ensures CloseOrGiveUp(MirrorCtx(K, c), MirrorScan(K, s), i, exactOnly, status, state)
         == MirrorScan(K, CloseOrGiveUp(c, s, i, exactOnly, status, state))
  {
    var leg := s.legs[i];
    var m := MatchTxn(c.snap, s.used, leg, exactOnly);
    SettleMirrors(K, c, leg, Row(c, m));
    SetMirrors(K, s.legs, i, Settle(c, leg, Row(c, m)));
    SetMirrors(K, s.legs, i, leg.(status := status));
    ResolveMirrors(K, s.tranches, i, Filled, c.snap.now);
    ResolveMirrors(K, s.tranches, i, state, c.snap.now);
  }

  lemma OpenMirrors(K: real, c: Ctx, s: Scan, i: nat)
    requires i < |s.legs| && s.legs[i].status.Open? && RealSnap(K, c.snap) && RealFills(K, s.legs)
    ensures VisitLeg(MirrorCtx(K, c), MirrorScan(K, s), i) == MirrorScan(K, VisitLeg(c, s, i))
  {
    var leg := s.legs[i];
    assert forall k :: 0 <= k < |c.snap.positions| ==>
        MirrorCtx(K, c).snap.positions[k].ref == c.snap.positions[k].ref;
    assert Gone(MirrorCtx(K, c), MirrorLeg(K, leg)) == Gone(c, leg);
    var m := MatchTxn(c.snap, s.used, leg, false);
    SettleMirrors(K, c, leg, Row(c, m));
    SetMirrors(K, s.legs, i, Settle(c, leg, Row(c, m)));
  }

  lemma VisitMirrors(K: real, c: Ctx, s: Scan, i: nat)
    requires i < |s.legs| && RealSnap(K, c.snap) && RealFills(K, s.legs)
    ensures VisitLeg(MirrorCtx(K, c), MirrorScan(K, s), i) == MirrorScan(K, VisitLeg(c, s, i))
    ensures RealFills(K, VisitLeg(c, s, i).legs)
  {
    var leg := s.legs[i];
    if leg.status.Open? {
      OpenMirrors(K, c, s, i);
    } else if leg.status.Working? {
      if Resting(c, leg) {
        GiveUpMirrors(K, c, s, i, true, Expired, TimedOut);
      } else {
        LinkForMirrors(K, c, s.linked, leg);
        var p := LinkFor(c, s.linked, leg);
        if p.Some? {
          LinkMirrors(K, leg, p.value);
          SetMirrors(K, s.legs, i, Link(leg, p.value));
          ResolveMirrors(K, s.tranches, i, Filled, c.snap.now);
        } else {
          GiveUpMirrors(K, c, s, i, false, Cancelled, Withdrawn);
        }
      }
    }
  }

  /** The whole pass commutes with the mirror: the same legs are linked to the same positions, closed on the
      same transactions for the same money, expired or cancelled. */
  lemma {:induction false} PassMirrors(K: real, c: Ctx, s: Scan, ids: seq<nat>)
    requires InRange(ids, |s.legs|) && RealSnap(K, c.snap) && RealFills(K, s.legs)
    ensures Visits(MirrorCtx(K, c), MirrorScan(K, s), ids) == MirrorScan(K, Visits(c, s, ids))
    ensures RealFills(K, Visits(c, s, ids).legs)
  {
    if ids != [] {
      var init := ids[..|ids| - 1];
      PassMirrors(K, c, s, init);
      VisitMirrors(K, c, Visits(c, s, init), ids[|ids| - 1]);
    }
  }

  // ---- the rows ------------------------------------------------------------------------------------

  function MirrorTrade(K: real, tr: Trade): Trade { tr.(side := D.Flip(tr.side), mfe := D.Mirror(K, tr.mfe)) }

  function MirrorDb(K: real, d: Db): Db {
    Db(seq(|d.trades|, t requires 0 <= t < |d.trades| => MirrorTrade(K, d.trades[t])),
       MirrorRows(K, d.tranches), MirrorLegs(K, d.legs))
  }

  lemma SameOpenRefs(K: real, legs: seq<Leg>)
    ensures OpenRefs(MirrorLegs(K, legs)) == OpenRefs(legs)
  {
    var ms := MirrorLegs(K, legs);
    forall ref ensures ref in OpenRefs(ms) <==> ref in OpenRefs(legs) {
      assert forall i :: 0 <= i < |legs| ==> ms[i].status == legs[i].status && ms[i].posRef == legs[i].posRef;
    }
  }

  lemma SameTpHits(K: real, legs: seq<Leg>, t: nat)
    ensures TpHits(MirrorLegs(K, legs), t) == TpHits(legs, t)
  {
    var ms := MirrorLegs(K, legs);
    forall tp ensures tp in TpHits(ms, t) <==> tp in TpHits(legs, t) {
      assert forall i :: 0 <= i < |legs| ==> ms[i] == MirrorLeg(K, legs[i]);
    }
  }

  lemma SameLate(K: real, d: Db, t: nat)
    ensures LateLegs(MirrorDb(K, d), t) == LateLegs(d, t)
  {
    var m := MirrorDb(K, d);
    forall i ensures i in LateLegs(m, t) <==> i in LateLegs(d, t) {
      assert forall r :: 0 <= r < |d.tranches| ==> m.tranches[r] == MirrorRow(K, d.tranches[r]);
    }
  }

  lemma ContextMirrors(K: real, d: Db, t: nat, v: View, price: real, staged: bool)
    requires t < |d.trades|
    ensures SnapOf(MirrorView(K, v), K - price, staged) == MirrorSnap(K, SnapOf(v, price, staged))
    ensures var snap := SnapOf(v, price, staged);
            CtxFor(MirrorDb(K, d), t, MirrorSnap(K, snap)) == MirrorCtx(K, CtxFor(d, t, snap))
    ensures ScanOf(MirrorDb(K, d)) == MirrorScan(K, ScanOf(d))
  {
    SameLate(K, d, t);
    SameOpenRefs(K, d.legs);
  }

  lemma ReconciledMirrors(K: real, d: Db, t: nat, v: View, price: real, ids: seq<nat>, staged: bool, cut: bool)
    requires t < |d.trades| && LegsOfTrade(d, t, ids)
    requires RealSnap(K, v.snap) && RealFills(K, d.legs)
    ensures LegsOfTrade(MirrorDb(K, d), t, ids)
    ensures var r := Reconciled(d, t, SnapOf(v, price, staged), ids, cut);
            && Reconciled(MirrorDb(K, d), t, SnapOf(MirrorView(K, v), K - price, staged), ids, cut)
               == MirrorDb(K, r)
            && RealFills(K, r.legs)
  {
    ContextMirrors(K, d, t, v, price, staged);
    PassMirrors(K, CtxFor(d, t, SnapOf(v, price, staged)), ScanOf(d), ids);
    if cut && ids != [] {
      PassMirrors(K, CtxFor(d, t, SnapOf(v, price, staged)), ScanOf(d), ids[..|ids| - 1]);
    }
  }

  // ---- the latch and the ratchet -------------------------------------------------------------------

  lemma LatchMirrors(K: real, d: Db, t: nat, v: View, price: real)
    requires t < |d.trades| && RealQuote(K, v.quote)
    ensures MfeOf(MirrorDb(K, d), t, MirrorView(K, v), K - price) == K - MfeOf(d, t, v, price)
  {
    D.QuoteMirrors(K, d.trades[t].side, v.quote);
  }

  lemma LatchedMirrors(K: real, d: Db, t: nat, mfe: real)
    requires t < |d.trades|
    ensures Latched(MirrorDb(K, d), t, K - mfe) == MirrorDb(K, Latched(d, t, mfe))
  {}

  lemma {:induction false} LevelsMirror(K: real, legs: seq<Leg>, t: nat)
    ensures TpLevels(MirrorLegs(K, legs), t) == D.MirrorMap(K, TpLevels(legs, t))
  {
    if legs != [] {
      var n := |legs| - 1;
      LevelsMirror(K, legs[..n], t);
      assert MirrorLegs(K, legs)[..n] == MirrorLegs(K, legs[..n]);
    }
  }

  lemma HitsMirror(K: real, d: Db, t: nat, side: Side, mfe: real)
    ensures HitsOf(MirrorDb(K, d), t, D.Flip(side), K - mfe) == HitsOf(d, t, side, mfe)
  {
    var tps := TpLevels(d.legs, t);
    LevelsMirror(K, d.legs, t);
    assert forall i :: i in tps ==>
        ReachedTarget(D.Flip(side), K - mfe, D.MirrorMap(K, tps)[i]) == ReachedTarget(side, mfe, tps[i]);
    assert LevelsReached(D.Flip(side), K - mfe, D.MirrorMap(K, tps)) == LevelsReached(side, mfe, tps);
    SameTpHits(K, d.legs, t);
  }

  lemma {:induction false} LivePosMirrors(K: real, ps: seq<Pos>, ref: Option<Ref>)
    ensures LivePos(MirrorPositions(K, ps), ref)
         == (var p := LivePos(ps, ref); if p.Some? then Some(MirrorPos(K, p.value)) else None)
  {
    if ps != [] {
      var n := |ps| - 1;
      LivePosMirrors(K, ps[..n], ref);
      assert MirrorPositions(K, ps)[..n] == MirrorPositions(K, ps[..n]);
    }
  }

  lemma HealMirrors(K: real, leg: Leg, p: Pos)
    requires D.Inside(K, leg.fill) && D.Inside(K, p.openPx)
    ensures Healed(MirrorLeg(K, leg), MirrorPos(K, p)) == MirrorLeg(K, Healed(leg, p))
    ensures D.Inside(K, Healed(leg, p).fill)
  {}

  lemma MoveMirrors(K: real, leg: Leg, stop: real)
    ensures MirrorLeg(K, leg).(sl := K - stop, slMoved := true) == MirrorLeg(K, leg.(sl := stop, slMoved := true))
  {}

  lemma RatchetedMirrors(K: real, side: Side, v: View, price: real, tps: map<int, real>, hits: set<int>, a: Leg)
    requires RealSnap(K, v.snap) && D.Inside(K, a.fill)
    ensures Ratcheted(D.Flip(side), MirrorView(K, v), K - price, D.MirrorMap(K, tps), hits, MirrorLeg(K, a))
         == MirrorLeg(K, Ratcheted(side, v, price, tps, hits, a))
  {
    LivePosMirrors(K, v.snap.positions, a.posRef);
    var p := LivePos(v.snap.positions, a.posRef);
    if a.status.Open? && p.Some? {
      var h := Healed(a, p.value);
      HealMirrors(K, a, p.value);
      StopForMirrors(K, side, v, price, tps, hits, h);
      var stop := StopFor(side, v, price, tps, hits, h);
      if stop.Some? {
        MoveMirrors(K, h, stop.value);
      }
    }
  }

  lemma StopsMirror(K: real, r: Db, t: nat, ids: seq<nat>, v: View, price: real, mfe: real)
    requires t < |r.trades| && RealSnap(K, v.snap) && RealFills(K, r.legs)
    ensures StopsOf(MirrorDb(K, r), t, ids, MirrorView(K, v), K - price, K - mfe)
         == MirrorDb(K, StopsOf(r, t, ids, v, price, mfe))
  {
    var side, tps, m := r.trades[t].side, TpLevels(r.legs, t), MirrorDb(K, r);
    var hits := HitsOf(r, t, side, mfe);
    LevelsMirror(K, r.legs, t);
    HitsMirror(K, r, t, side, mfe);
    var got := StopsMoved(m, t, ids, MirrorView(K, v), K - price, D.MirrorMap(K, tps), hits);
    var want := MirrorDb(K, StopsMoved(r, t, ids, v, price, tps, hits));
    forall i | 0 <= i < |r.legs| ensures got.legs[i] == want.legs[i] {
      RatchetedMirrors(K, side, v, price, tps, hits, r.legs[i]);
    }
    assert got.legs == want.legs;
  }

  lemma ReviewedFromMirrors(K: real, l: Db, t: nat, v: View, price: real, ids: seq<nat>, staged: bool, mfe: real)
    requires t < |l.trades| && LegsOfTrade(l, t, ids) && RealSnap(K, v.snap) && RealFills(K, l.legs)
    ensures LegsOfTrade(MirrorDb(K, l), t, ids)
    ensures ReviewedFrom(MirrorDb(K, l), t, MirrorView(K, v), K - price, ids, staged, K - mfe)
         == MirrorDb(K, ReviewedFrom(l, t, v, price, ids, staged, mfe))
  {
    ReconciledMirrors(K, l, t, v, price, ids, staged, false);
    StopsMirror(K, Reconciled(l, t, SnapOf(v, price, staged), ids, false), t, ids, v, price, mfe);
  }

  lemma ReviewedIsFrom(d: Db, l: Db, t: nat, v: View, price: real, ids: seq<nat>, staged: bool, mfe: real)
    requires t < |d.trades| && LegsOfTrade(d, t, ids) && mfe == MfeOf(d, t, v, price) && l == Latched(d, t, mfe)
    ensures Reviewed(d, t, v, price, ids, staged) == ReviewedFrom(l, t, v, price, ids, staged, mfe)
  {}

  /** Latch, pass and ratchet of a whole tick commute with the mirror: in the mirrored market the same legs are
      linked, closed, expired and cancelled, for the same money, and every stop is the mirror of the stop. */
  lemma ReviewedMirrors(K: real, d: Db, t: nat, v: View, price: real, ids: seq<nat>, staged: bool)
    requires t < |d.trades| && LegsOfTrade(d, t, ids)
    requires RealQuote(K, v.quote) && RealSnap(K, v.snap) && RealFills(K, d.legs)
    ensures LegsOfTrade(MirrorDb(K, d), t, ids)
    ensures Reviewed(MirrorDb(K, d), t, MirrorView(K, v), K - price, ids, staged)
         == MirrorDb(K, Reviewed(d, t, v, price, ids, staged))
  {
    var mfe := MfeOf(d, t, v, price);
    var l := Latched(d, t, mfe);
    LatchMirrors(K, d, t, v, price);
    LatchedMirrors(K, d, t, mfe);
    ReviewedIsFrom(d, l, t, v, price, ids, staged, mfe);
    ReviewedFromMirrors(K, l, t, v, price, ids, staged, mfe);
    ReviewedIsFrom(MirrorDb(K, d), MirrorDb(K, l), t, MirrorView(K, v), K - price, ids, staged, K - mfe);
  }
}
