/** The mirror on a whole tick of a trade: its legs, the rule-cancel, its ladder and the roll-up. */
module MirrorDrive {
  import opened Wrappers
  import opened Prices
  import opened Rows
  import opened Reconcile
  import opened Book
  import opened Invariants
  import opened Steps
  import opened Ladder
  import opened TickRules
  import D = Duality
  import opened MirrorTick
  import opened MirrorPass

  function MirrorFacts(K: real, f: Facts): Facts {
    f.(side := D.Flip(f.side), entryPx := K - f.entryPx, targetPx := K - f.targetPx)
  }

  /** A fill the broker confirms is a real price. */
  ghost predicate RealReplies(K: real, m: Broker) {
    forall i: nat :: RealReply(K, m.replies(i))
  }

  predicate RealReply(K: real, reply: Reply) { reply.Accepted? ==> D.Inside(K, reply.fill) }

  // ---- seen twice, the mirror shows what is there ----------------------------------------------------

  lemma LegTwice(K: real, l: Leg)
    ensures MirrorLeg(K, MirrorLeg(K, l)) == l
  {}

  lemma LegsAlike(K: real, a: Leg, b: Leg)
    ensures MirrorLeg(K, a) == MirrorLeg(K, b) <==> a == b
  {
    LegTwice(K, a);
    LegTwice(K, b);
  }

  lemma RowsAlike(K: real, a: Tranche, b: Tranche)
    ensures MirrorRow(K, a) == MirrorRow(K, b) <==> a == b
  {
    assert MirrorRow(K, MirrorRow(K, a)) == a && MirrorRow(K, MirrorRow(K, b)) == b;
  }

  lemma DbTwice(K: real, d: Db)
    ensures MirrorDb(K, MirrorDb(K, d)) == d
  {
    var m := MirrorDb(K, MirrorDb(K, d));
    forall i | 0 <= i < |d.legs| ensures m.legs[i] == d.legs[i] {
      LegTwice(K, d.legs[i]);
    }
    assert m.legs == d.legs && m.tranches == d.tranches && m.trades == d.trades;
  }

  lemma DbsAlike(K: real, a: Db, b: Db)
    ensures MirrorDb(K, a) == MirrorDb(K, b) <==> a == b
  {
    DbTwice(K, a);
    DbTwice(K, b);
  }

  // ---- the ladder ----------------------------------------------------------------------------------

  lemma FactsMirror(K: real, v: View, tr: Trade, price: real, cfg: StagedCfg)
    ensures FactsOf(MirrorView(K, v), MirrorTrade(K, tr), K - price, cfg) == MirrorFacts(K, FactsOf(v, tr, price, cfg))
  {}

  lemma VerdictMirrors(K: real, f: Facts, tr: Tranche)
    ensures Hit(MirrorFacts(K, f), MirrorRow(K, tr)) == Hit(f, tr)
    ensures Judge(MirrorFacts(K, f), MirrorRow(K, tr)) == Judge(f, tr)
  {}

  lemma StatesMirror(K: real, d: Db, t: nat)
    ensures EverFilled(MirrorDb(K, d), t) == EverFilled(d, t) && AnyOpen(MirrorDb(K, d), t) == AnyOpen(d, t)
    ensures NoneWaiting(MirrorDb(K, d), t) == NoneWaiting(d, t) && Quiet(MirrorDb(K, d), t) == Quiet(d, t)
    ensures AnyClosed(MirrorDb(K, d), t) == AnyClosed(d, t) && AnyMoved(MirrorDb(K, d), t) == AnyMoved(d, t)
  {
    var m := MirrorDb(K, d);
    assert forall i :: 0 <= i < |d.legs| ==> m.legs[i] == MirrorLeg(K, d.legs[i]);
    assert forall r :: 0 <= r < |d.tranches| ==> m.tranches[r] == MirrorRow(K, d.tranches[r]);
  }

  lemma FiresMirrors(K: real, f: Facts, d: Db, t: nat)
    ensures forall r :: 0 <= r < |d.tranches| ==>
              (Fires(MirrorFacts(K, f), MirrorDb(K, d), MirrorDb(K, d).tranches[r]) <==> Fires(f, d, d.tranches[r]))
    ensures SomeFires(MirrorFacts(K, f), MirrorDb(K, d), t) <==> SomeFires(f, d, t)
  {
    var m, g := MirrorDb(K, d), MirrorFacts(K, f);
    forall r | 0 <= r < |d.tranches| ensures Fires(g, m, m.tranches[r]) <==> Fires(f, d, d.tranches[r]) {
      VerdictMirrors(K, f, d.tranches[r]);
      StatesMirror(K, d, d.tranches[r].trade);
    }
    assert forall r :: 0 <= r < |d.tranches| ==> WaitsIn(m, r, t) == WaitsIn(d, r, t);
  }

  lemma PlacedLegMirrors(K: real, a: Leg, reply: Reply, at: int)
    requires RealReply(K, reply)
    ensures PlacedLeg(MirrorLeg(K, a), MirrorReply(K, reply), at) == MirrorLeg(K, PlacedLeg(a, reply, at))
  {}

  lemma PlacedMirrors(K: real, a: Leg, b: Leg, reply: Reply)
    requires RealReply(K, reply)
    ensures WasPlaced(MirrorLeg(K, a), MirrorLeg(K, b), MirrorReply(K, reply)) <==> WasPlaced(a, b, reply)
  {
    forall at: int
      ensures MirrorLeg(K, b) == PlacedLeg(MirrorLeg(K, a), MirrorReply(K, reply), at) <==> b == PlacedLeg(a, reply, at)
    {
      PlacedLegMirrors(K, a, reply, at);
      LegsAlike(K, b, PlacedLeg(a, reply, at));
    }
  }

  lemma LegOutcomeMirrors(K: real, v: Verdict, rung: bool, reply: Reply, a: Leg, b: Leg)
    requires RealReply(K, reply)
    ensures LegOutcome(v, rung, MirrorReply(K, reply), MirrorLeg(K, a), MirrorLeg(K, b))
       <==> LegOutcome(v, rung, reply, a, b)
  {
    LegsAlike(K, b, a);
    LegsAlike(K, b, a.(status := Expired));
    assert MirrorLeg(K, a.(status := Expired)) == MirrorLeg(K, a).(status := Expired);
    PlacedMirrors(K, a, b, reply);
  }

  lemma TakenMirrors(K: real, m: Broker, a: Db, ids: seq<nat>, stops: bool)
    ensures AnyTaken(MirrorBroker(K, m), MirrorDb(K, a), ids, stops) == AnyTaken(m, a, ids, stops)
  {
    var w := MirrorDb(K, a);
    assert forall i: nat :: i < |a.legs| ==> w.legs[i] == MirrorLeg(K, a.legs[i]);
    assert forall i: nat :: MirrorBroker(K, m).replies(i).Accepted? == m.replies(i).Accepted?;
  }

  lemma RowStateMirrors(K: real, a: Tranche, b: Tranche, state: TrancheState, since: int)
    ensures MirrorRow(K, b) == MirrorRow(K, a).(state := state, since := since)
       <==> b == a.(state := state, since := since)
  {
    RowsAlike(K, b, a.(state := state, since := since));
  }

  lemma RowOutcomeMirrors(K: real, f: Facts, m: Broker, a: Db, b: Db, r: nat)
    requires r < |a.tranches| && RealReplies(K, m)
    ensures RowOutcome(MirrorFacts(K, f), MirrorBroker(K, m), MirrorDb(K, a), MirrorDb(K, b), r)
       <==> RowOutcome(f, m, a, b, r)
  {
    if SameSize(a, b) {
      var tr, v := a.tranches[r], Judge(f, a.tranches[r]);
      VerdictMirrors(K, f, tr);
      TakenMirrors(K, m, a, tr.legs, false);
      TakenMirrors(K, m, a, tr.legs, true);
      RowsAlike(K, b.tranches[r], tr);
      RowStateMirrors(K, tr, b.tranches[r], TimedOut, f.now);
      var settled := if !AnyTaken(m, a, tr.legs, false) then Refused
                     else if AnyTaken(m, a, tr.legs, true) then Armed else Deployed;
      RowStateMirrors(K, tr, b.tranches[r], settled, b.tranches[r].since);
      forall i: nat | i < |a.legs|
        ensures LegOutcome(v, tr.role.Rung?, MirrorBroker(K, m).replies(i), MirrorDb(K, a).legs[i],
                           MirrorDb(K, b).legs[i])
           <==> LegOutcome(v, tr.role.Rung?, m.replies(i), a.legs[i], b.legs[i])
      {
        assert RealReply(K, m.replies(i));
        LegOutcomeMirrors(K, v, tr.role.Rung?, m.replies(i), a.legs[i], b.legs[i]);
      }
    }
  }

  lemma TradesAlike(K: real, a: Db, b: Db)
    ensures MirrorDb(K, b).trades == MirrorDb(K, a).trades <==> b.trades == a.trades
  {
    DbsAlike(K, a.(trades := b.trades), a);
  }

  lemma DrivenMirrors(K: real, f: Facts, m: Broker, a: Db, b: Db, rows: seq<nat>, j: nat)
    requires RealReplies(K, m)
    ensures Driven(MirrorFacts(K, f), MirrorBroker(K, m), MirrorDb(K, a), MirrorDb(K, b), rows, j)
       <==> Driven(f, m, a, b, rows, j)
  {
    var w, v := MirrorDb(K, a), MirrorDb(K, b);
    TradesAlike(K, a, b);
    if SameSize(a, b) && j <= |rows| {
      forall r: nat | r < |a.tranches|
        ensures RowOutcome(MirrorFacts(K, f), MirrorBroker(K, m), w, v, r) <==> RowOutcome(f, m, a, b, r)
        ensures v.tranches[r] == w.tranches[r] <==> b.tranches[r] == a.tranches[r]
      {
        RowOutcomeMirrors(K, f, m, a, b, r);
        RowsAlike(K, b.tranches[r], a.tranches[r]);
      }
      forall i: nat | i < |a.legs|
        ensures v.legs[i] == w.legs[i] <==> b.legs[i] == a.legs[i]
        ensures OwnedByNone(w, rows, j, i) <==> OwnedByNone(a, rows, j, i)
      {
        LegsAlike(K, b.legs[i], a.legs[i]);
      }
    }
  }

  lemma PendingMirrors(K: real, d: Db, t: nat, rows: seq<nat>)
    ensures IsPending(MirrorDb(K, d), t, rows) <==> IsPending(d, t, rows)
  {
    var m := MirrorDb(K, d);
    assert forall r :: 0 <= r < |d.tranches| ==> m.tranches[r] == MirrorRow(K, d.tranches[r]);
  }

  lemma WithdrawMirrors(K: real, d: Db, t: nat, r: nat, now: int)
    ensures WithdrawAllBut(MirrorDb(K, d), t, r, now) == MirrorDb(K, WithdrawAllBut(d, t, r, now))
  {
    var m := MirrorDb(K, d);
    var got, want := WithdrawAllBut(m, t, r, now), MirrorDb(K, WithdrawAllBut(d, t, r, now));
    assert forall q :: 0 <= q < |d.tranches| ==> WaitsIn(m, q, t) == WaitsIn(d, q, t);
    assert forall i: nat :: i < |d.legs| ==> OwnedByOther(m, t, r, i) == OwnedByOther(d, t, r, i);
    assert got.tranches == want.tranches;
    assert got.legs == want.legs;
  }

  lemma PullMirrors(K: real, legs: seq<Leg>, t: nat, keys: set<Ref>, k: nat)
    requires k <= |legs|
    ensures PullOrders(MirrorLegs(K, legs), t, keys, k) == MirrorLegs(K, PullOrders(legs, t, keys, k))
  {}

  lemma FireMirrors(K: real, d: Db, t: nat, r: nat, keys: set<Ref>, now: int)
    requires r < |d.tranches|
    ensures FireRow(MirrorDb(K, d), t, r, keys, now) == MirrorDb(K, FireRow(d, t, r, keys, now))
  {
    var w := WithdrawAllBut(d, t, r, now);
    WithdrawMirrors(K, d, t, r, now);
    PullMirrors(K, w.legs, t, keys, |w.legs|);
    assert MirrorRows(K, w.tranches[r := w.tranches[r].(state := Filled, since := now)])
        == MirrorRows(K, w.tranches)[r := MirrorRow(K, w.tranches[r]).(state := Filled, since := now)];
  }

  /** One drive of the ladder: the same row fires, or every row gets the same outcome. */
  lemma DriveMirrors(K: real, f: Facts, m: Broker, a: Db, b: Db, t: nat)
    requires RealReplies(K, m)
    ensures LadderDriven(MirrorFacts(K, f), MirrorBroker(K, m), MirrorDb(K, a), MirrorDb(K, b), t)
       <==> LadderDriven(f, m, a, b, t)
  {
    var g, w, v := MirrorFacts(K, f), MirrorDb(K, a), MirrorDb(K, b);
    FiresMirrors(K, f, a, t);
    if SomeFires(f, a, t) {
      forall r: nat | r < |a.tranches|
        ensures v == FireRow(w, t, r, m.cancels, f.now) <==> b == FireRow(a, t, r, m.cancels, f.now)
        ensures WaitsIn(w, r, t) == WaitsIn(a, r, t)
      {
        FireMirrors(K, a, t, r, m.cancels, f.now);
        DbsAlike(K, b, FireRow(a, t, r, m.cancels, f.now));
      }
    } else {
      forall rows: seq<nat>
        ensures IsPending(w, t, rows) <==> IsPending(a, t, rows)
        ensures Driven(g, MirrorBroker(K, m), w, v, rows, |rows|) <==> Driven(f, m, a, b, rows, |rows|)
      {
        PendingMirrors(K, a, t, rows);
        DrivenMirrors(K, f, m, a, b, rows, |rows|);
      }
    }
  }

  // ---- the rule-cancel and the roll-up -------------------------------------------------------------

  lemma LosesMirrors(K: real, d: Db, t: nat, keys: set<Ref>, k: nat, tr: Tranche)
    requires k <= |d.legs|
    ensures LosesLeg(MirrorDb(K, d), t, keys, k, MirrorRow(K, tr)) == LosesLeg(d, t, keys, k, tr)
  {
    var m := MirrorDb(K, d);
    assert forall i: nat :: i < |d.legs| ==> Pulled(m.legs[i], t, keys) == Pulled(d.legs[i], t, keys);
  }

  lemma PulledMirrors(K: real, d: Db, t: nat, keys: set<Ref>, now: int)
    ensures RetirePulled(MirrorDb(K, d), t, keys, now, |d.legs|) == MirrorDb(K, RetirePulled(d, t, keys, now, |d.legs|))
  {
    var n := |d.legs|;
    var got, want := RetirePulled(MirrorDb(K, d), t, keys, now, n), MirrorDb(K, RetirePulled(d, t, keys, now, n));
    PullMirrors(K, d.legs, t, keys, n);
    forall r | 0 <= r < |d.tranches| ensures got.tranches[r] == want.tranches[r] {
      LosesMirrors(K, d, t, keys, n, d.tranches[r]);
    }
    assert got.tranches == want.tranches;
  }

  lemma RetiredMirrors(K: real, d: Db, t: nat, v: View, tpsHit: bool)
    ensures Retired(MirrorDb(K, d), t, MirrorView(K, v), tpsHit) == MirrorDb(K, Retired(d, t, v, tpsHit))
  {
    var keys, now := v.snap.orders * v.broker.cancels, v.snap.now;
    StatesMirror(K, d, t);
    PulledMirrors(K, d, t, keys, now);
    var m := RetirePulled(d, t, keys, now, |d.legs|);
    WithdrawMirrors(K, m, t, |m.tranches|, now);
  }

  lemma {:induction false} BooksMirror(K: real, legs: seq<Leg>, t: nat)
    ensures AuditSum(MirrorLegs(K, legs), t) == AuditSum(legs, t)
  {
    if legs != [] {
      var n := |legs| - 1;
      BooksMirror(K, legs[..n], t);
      assert MirrorLegs(K, legs)[..n] == MirrorLegs(K, legs[..n]);
    }
  }

  lemma TradeSetMirrors(K: real, d: Db, t: nat, tr: Trade)
    requires t < |d.trades|
    ensures MirrorDb(K, d.(trades := d.trades[t := tr]))
         == MirrorDb(K, d).(trades := MirrorDb(K, d).trades[t := MirrorTrade(K, tr)])
  {}

  /** The same money is booked, and the trade closes alike. */
  lemma RollUpMirrors(K: real, d: Db, t: nat)
    requires t < |d.trades|
    ensures RolledUp(MirrorDb(K, d), t) == MirrorDb(K, RolledUp(d, t))
  {
    StatesMirror(K, d, t);
    BooksMirror(K, d.legs, t);
    TradeSetMirrors(K, d, t, RolledUp(d, t).trades[t]);
  }

  // ---- the whole tick ------------------------------------------------------------------------------

  /** Every price the tick reads is a real one, and the broker has a tolerance. */
  ghost predicate RealView(K: real, v: View) {
    RealQuote(K, v.quote) && RealSnap(K, v.snap) && RealReplies(K, v.broker)
  }

  lemma TpsMirror(K: real, d: Db, t: nat, v: View, price: real, ids: seq<nat>, staged: bool)
    requires t < |d.trades| && LegsOfTrade(d, t, ids) && RealView(K, v) && RealFills(K, d.legs)
    ensures LegsOfTrade(MirrorDb(K, d), t, ids)
    ensures TpsReached(MirrorDb(K, d), t, MirrorView(K, v), K - price, ids, staged)
         == TpsReached(d, t, v, price, ids, staged)
  {
    var mfe := MfeOf(d, t, v, price);
    LatchMirrors(K, d, t, v, price);
    LatchedMirrors(K, d, t, mfe);
    ReconciledMirrors(K, Latched(d, t, mfe), t, v, price, ids, staged, false);
    var r := Reconciled(Latched(d, t, mfe), t, SnapOf(v, price, staged), ids, false);
    HitsMirror(K, r, t, r.trades[t].side, mfe);
  }

  lemma ManagedMirrors(K: real, d: Db, t: nat, v: View, price: real, ids: seq<nat>, staged: bool)
    requires t < |d.trades| && LegsOfTrade(d, t, ids) && RealView(K, v) && RealFills(K, d.legs)
    ensures LegsOfTrade(MirrorDb(K, d), t, ids)
    ensures LegsManaged(MirrorDb(K, d), t, MirrorView(K, v), K - price, ids, staged)
         == MirrorDb(K, LegsManaged(d, t, v, price, ids, staged))
  {
    ReviewedMirrors(K, d, t, v, price, ids, staged);
    TpsMirror(K, d, t, v, price, ids, staged);
    RetiredMirrors(K, Reviewed(d, t, v, price, ids, staged), t, v, TpsReached(d, t, v, price, ids, staged));
  }

  lemma StagedDriveMirrors(K: real, a: Db, b: Db, t: nat, v: View, price: real, staged: bool)
    requires RealView(K, v)
    ensures DrivenIfStaged(MirrorDb(K, a), MirrorDb(K, b), t, MirrorView(K, v), K - price, staged)
       <==> DrivenIfStaged(a, b, t, v, price, staged)
  {
    DbsAlike(K, b, a);
    if staged && v.entry.Some? && t < |a.trades| {
      FactsMirror(K, v, a.trades[t], price, v.entry.value);
      DriveMirrors(K, FactsOf(v, a.trades[t], price, v.entry.value), v.broker, a, b, t);
    }
  }

  /** The drive and the roll-up that end a tick, from legs managed as `m`. */
  ghost predicate Finishes(m: Db, b: Db, t: nat, v: View, price: real, staged: bool) {
    exists d: Db :: DrivenIfStaged(m, d, t, v, price, staged) && t < |d.trades| && b == RolledUp(d, t)
  }

  lemma FinishMirrors(K: real, m: Db, b: Db, t: nat, v: View, price: real, staged: bool)
    requires RealView(K, v)
    ensures Finishes(MirrorDb(K, m), MirrorDb(K, b), t, MirrorView(K, v), K - price, staged)
       <==> Finishes(m, b, t, v, price, staged)
  {
    forall d: Db | t < |d.trades|
      ensures DrivenIfStaged(MirrorDb(K, m), MirrorDb(K, d), t, MirrorView(K, v), K - price, staged)
         <==> DrivenIfStaged(m, d, t, v, price, staged)
      ensures MirrorDb(K, b) == RolledUp(MirrorDb(K, d), t) <==> b == RolledUp(d, t)
    {
      StagedDriveMirrors(K, m, d, t, v, price, staged);
      RollUpMirrors(K, d, t);
      DbsAlike(K, b, RolledUp(d, t));
    }
    forall d: Db ensures MirrorDb(K, MirrorDb(K, d)) == d {
      DbTwice(K, d);
    }
    if Finishes(MirrorDb(K, m), MirrorDb(K, b), t, MirrorView(K, v), K - price, staged) {
      var e: Db :| DrivenIfStaged(MirrorDb(K, m), e, t, MirrorView(K, v), K - price, staged) && t < |e.trades|
                   && MirrorDb(K, b) == RolledUp(e, t);
      var d := MirrorDb(K, e);
      assert MirrorDb(K, d) == e && t < |d.trades|;
    }
  }

  /** A whole tick commutes with the mirror: its legs, the rule-cancel, the ladder and the roll-up. */
  lemma TickedMirrors(K: real, a: Db, b: Db, t: nat, v: View, price: real, ids: seq<nat>, staged: bool)
    requires t < |a.trades| && LegsOfTrade(a, t, ids) && RealView(K, v) && RealFills(K, a.legs)
    ensures LegsOfTrade(MirrorDb(K, a), t, ids)
    ensures Ticked(MirrorDb(K, a), MirrorDb(K, b), t, MirrorView(K, v), K - price, ids, staged)
       <==> Ticked(a, b, t, v, price, ids, staged)
  {
    ManagedMirrors(K, a, t, v, price, ids, staged);
    FinishMirrors(K, LegsManaged(a, t, v, price, ids, staged), b, t, v, price, staged);
  }

  // ---- a trade's turn, whichever way it goes ---------------------------------------------------------

  lemma RaisesMirrors(K: real, c: Ctx, s: Scan, ids: seq<nat>, k: nat, mute: set<nat>)
    requires InRange(ids, |s.legs|) && k < |ids| && RealSnap(K, c.snap) && RealFills(K, s.legs)
    ensures RaisesAt(MirrorCtx(K, c), MirrorScan(K, s), ids, k, mute) == RaisesAt(c, s, ids, k, mute)
  {
    PassMirrors(K, c, s, ids[..k]);
    VisitMirrors(K, c, After(c, s, ids, k), ids[k]);
  }

  lemma EndsMirrors(K: real, c: Ctx, s: Scan, ids: seq<nat>, mute: set<nat>, n: nat, raised: bool)
    requires InRange(ids, |s.legs|) && RealSnap(K, c.snap) && RealFills(K, s.legs)
    ensures EndsAfter(MirrorCtx(K, c), MirrorScan(K, s), ids, mute, n, raised)
       <==> EndsAfter(c, s, ids, mute, n, raised)
  {
    forall k: nat | k < |ids|
      ensures RaisesAt(MirrorCtx(K, c), MirrorScan(K, s), ids, k, mute) == RaisesAt(c, s, ids, k, mute)
    {
      RaisesMirrors(K, c, s, ids, k, mute);
    }
  }

  lemma EndedMirrors(K: real, l: Db, t: nat, v: View, price: real, ids: seq<nat>, staged: bool, n: nat, cut: bool)
    requires t < |l.trades| && LegsOfTrade(l, t, ids) && RealView(K, v) && RealFills(K, l.legs)
    ensures var m, w := MirrorDb(K, l), MirrorView(K, v);
            EndsAfter(CtxFor(m, t, SnapOf(w, K - price, staged)), ScanOf(m), ids, w.mute, n, cut)
            <==> EndsAfter(CtxFor(l, t, SnapOf(v, price, staged)), ScanOf(l), ids, v.mute, n, cut)
  {
    ContextMirrors(K, l, t, v, price, staged);
    EndsMirrors(K, CtxFor(l, t, SnapOf(v, price, staged)), ScanOf(l), ids, v.mute, n, cut);
  }

  lemma AnnouncedMirrors(K: real, a: Db, t: nat, v: View, price: real, ids: seq<nat>, staged: bool)
    requires t < |a.trades| && LegsOfTrade(a, t, ids) && RealView(K, v) && RealFills(K, a.legs)
    ensures LegsOfTrade(MirrorDb(K, a), t, ids)
    ensures Announced(MirrorDb(K, a), t, MirrorView(K, v), K - price, ids, staged)
       <==> Announced(a, t, v, price, ids, staged)
  {
    var mfe := MfeOf(a, t, v, price);
    LatchMirrors(K, a, t, v, price);
    LatchedMirrors(K, a, t, mfe);
    EndedMirrors(K, Latched(a, t, mfe), t, v, price, ids, staged, |ids|, false);
  }

  /** `b` is what a pass of `n` visits over the latched rows `l` leaves. */
  ghost predicate BreaksAt(l: Db, b: Db, t: nat, v: View, price: real, ids: seq<nat>, staged: bool, n: nat, cut: bool)
    requires t < |l.trades| && LegsOfTrade(l, t, ids)
  {
    && EndsAfter(CtxFor(l, t, SnapOf(v, price, staged)), ScanOf(l), ids, v.mute, n, cut)
    && b == Reconciled(l, t, SnapOf(v, price, staged), ids[..n], cut)
  }

  lemma BreakMirrors(K: real, l: Db, b: Db, t: nat, v: View, price: real, ids: seq<nat>, staged: bool, n: nat,
                     cut: bool)
    requires t < |l.trades| && LegsOfTrade(l, t, ids) && RealView(K, v) && RealFills(K, l.legs)
    ensures LegsOfTrade(MirrorDb(K, l), t, ids)
    ensures BreaksAt(MirrorDb(K, l), MirrorDb(K, b), t, MirrorView(K, v), K - price, ids, staged, n, cut)
       <==> BreaksAt(l, b, t, v, price, ids, staged, n, cut)
  {
    EndedMirrors(K, l, t, v, price, ids, staged, n, cut);
    if n <= |ids| {
      ReconciledMirrors(K, l, t, v, price, ids[..n], staged, cut);
      DbsAlike(K, b, Reconciled(l, t, SnapOf(v, price, staged), ids[..n], cut));
    }
  }

  ghost predicate Breaks(l: Db, b: Db, t: nat, v: View, price: real, ids: seq<nat>, staged: bool)
    requires t < |l.trades| && LegsOfTrade(l, t, ids)
  {
    exists n: nat, cut: bool :: BreaksAt(l, b, t, v, price, ids, staged, n, cut)
  }

  lemma BreaksMirror(K: real, l: Db, b: Db, t: nat, v: View, price: real, ids: seq<nat>, staged: bool)
    requires t < |l.trades| && LegsOfTrade(l, t, ids) && RealView(K, v) && RealFills(K, l.legs)
    ensures LegsOfTrade(MirrorDb(K, l), t, ids)
    ensures Breaks(MirrorDb(K, l), MirrorDb(K, b), t, MirrorView(K, v), K - price, ids, staged)
       <==> Breaks(l, b, t, v, price, ids, staged)
  {
    var m, c, w := MirrorDb(K, l), MirrorDb(K, b), MirrorView(K, v);
    if Breaks(l, b, t, v, price, ids, staged) {
      var n: nat, cut: bool :| BreaksAt(l, b, t, v, price, ids, staged, n, cut);
      BreakMirrors(K, l, b, t, v, price, ids, staged, n, cut);
      assert BreaksAt(m, c, t, w, K - price, ids, staged, n, cut);
    }
    if Breaks(m, c, t, w, K - price, ids, staged) {
      var n: nat, cut: bool :| BreaksAt(m, c, t, w, K - price, ids, staged, n, cut);
      BreakMirrors(K, l, b, t, v, price, ids, staged, n, cut);
      assert BreaksAt(l, b, t, v, price, ids, staged, n, cut);
    }
  }

  lemma BrokenBreaks(a: Db, b: Db, l: Db, t: nat, v: View, price: real, ids: seq<nat>, staged: bool)
    requires t < |a.trades| && LegsOfTrade(a, t, ids) && l == Latched(a, t, MfeOf(a, t, v, price))
    requires BrokenOff(a, b, t, v, price, ids, staged)
    ensures Breaks(l, b, t, v, price, ids, staged)
  {
    var snap := SnapOf(v, price, staged);
    var n: nat, cut: bool :| EndsAfter(CtxFor(l, t, snap), ScanOf(l), ids, v.mute, n, cut)
                             && b == Reconciled(l, t, snap, ids[..n], cut);
    assert BreaksAt(l, b, t, v, price, ids, staged, n, cut);
  }

  lemma BreaksBroken(a: Db, b: Db, l: Db, t: nat, v: View, price: real, ids: seq<nat>, staged: bool)
    requires t < |a.trades| && LegsOfTrade(a, t, ids) && l == Latched(a, t, MfeOf(a, t, v, price))
    requires Breaks(l, b, t, v, price, ids, staged)
    ensures BrokenOff(a, b, t, v, price, ids, staged)
  {
    var snap := SnapOf(v, price, staged);
    var n: nat, cut: bool :| BreaksAt(l, b, t, v, price, ids, staged, n, cut);
    assert EndsAfter(CtxFor(l, t, snap), ScanOf(l), ids, v.mute, n, cut);
    assert b == Reconciled(l, t, snap, ids[..n], cut);
  }

  lemma BrokenIsBreaks(a: Db, b: Db, l: Db, t: nat, v: View, price: real, ids: seq<nat>, staged: bool)
    requires t < |a.trades| && LegsOfTrade(a, t, ids) && l == Latched(a, t, MfeOf(a, t, v, price))
    ensures BrokenOff(a, b, t, v, price, ids, staged) <==> Breaks(l, b, t, v, price, ids, staged)
  {
    if BrokenOff(a, b, t, v, price, ids, staged) {
      BrokenBreaks(a, b, l, t, v, price, ids, staged);
    }
    if Breaks(l, b, t, v, price, ids, staged) {
      BreaksBroken(a, b, l, t, v, price, ids, staged);
    }
  }

  lemma BrokenOffMirrors(K: real, a: Db, b: Db, t: nat, v: View, price: real, ids: seq<nat>, staged: bool)
    requires t < |a.trades| && LegsOfTrade(a, t, ids) && RealView(K, v) && RealFills(K, a.legs)
    ensures LegsOfTrade(MirrorDb(K, a), t, ids)
    ensures BrokenOff(MirrorDb(K, a), MirrorDb(K, b), t, MirrorView(K, v), K - price, ids, staged)
       <==> BrokenOff(a, b, t, v, price, ids, staged)
  {
    var mfe := MfeOf(a, t, v, price);
    var l := Latched(a, t, mfe);
    LatchMirrors(K, a, t, v, price);
    LatchedMirrors(K, a, t, mfe);
    BreaksMirror(K, l, b, t, v, price, ids, staged);
    BrokenIsBreaks(a, b, l, t, v, price, ids, staged);
    BrokenIsBreaks(MirrorDb(K, a), MirrorDb(K, b), MirrorDb(K, l), t, MirrorView(K, v), K - price, ids, staged);
  }

  lemma ActiveMirrors(K: real, d: Db, t: nat, ids: seq<nat>)
    ensures ActiveIds(MirrorDb(K, d), t, ids) <==> ActiveIds(d, t, ids)
  {
    var m := MirrorDb(K, d);
    assert forall i :: 0 <= i < |d.legs| ==> m.legs[i] == MirrorLeg(K, d.legs[i]);
  }

  lemma LegsTickedMirrors(K: real, a: Db, b: Db, t: nat, v: View, price: real, ids: seq<nat>, staged: bool)
    requires t < |a.trades| && LegsOfTrade(a, t, ids) && RealView(K, v) && RealFills(K, a.legs)
    ensures LegsOfTrade(MirrorDb(K, a), t, ids)
    ensures LegsTicked(MirrorDb(K, a), MirrorDb(K, b), t, MirrorView(K, v), K - price, ids, staged)
       <==> LegsTicked(a, b, t, v, price, ids, staged)
  {
    AnnouncedMirrors(K, a, t, v, price, ids, staged);
    TickedMirrors(K, a, b, t, v, price, ids, staged);
    BrokenOffMirrors(K, a, b, t, v, price, ids, staged);
  }

  ghost predicate HasTick(a: Db, b: Db, t: nat, v: View, price: real, staged: bool)
    requires t < |a.trades|
  {
    exists ids: seq<nat> :: ActiveIds(a, t, ids) && LegsTicked(a, b, t, v, price, ids, staged)
  }

  lemma HasTickMirrors(K: real, a: Db, b: Db, t: nat, v: View, price: real, staged: bool)
    requires t < |a.trades| && RealView(K, v) && RealFills(K, a.legs)
    ensures HasTick(MirrorDb(K, a), MirrorDb(K, b), t, MirrorView(K, v), K - price, staged)
       <==> HasTick(a, b, t, v, price, staged)
  {
    forall ids: seq<nat>
      ensures ActiveIds(MirrorDb(K, a), t, ids) <==> ActiveIds(a, t, ids)
      ensures ActiveIds(a, t, ids) ==>
                (LegsTicked(MirrorDb(K, a), MirrorDb(K, b), t, MirrorView(K, v), K - price, ids, staged)
                 <==> LegsTicked(a, b, t, v, price, ids, staged))
    {
      ActiveMirrors(K, a, t, ids);
      if ActiveIds(a, t, ids) {
        LegsTickedMirrors(K, a, b, t, v, price, ids, staged);
      }
    }
  }

  /** What a due tick at `price` may leave. */
  ghost function Outcomes(a: Db, t: nat, v: View, price: real, staged: bool): iset<Db>
    requires t < |a.trades|
  {
    iset b: Db | HasTick(a, b, t, v, price, staged)
  }

  lemma OutcomesMirror(K: real, a: Db, b: Db, t: nat, v: View, price: real, staged: bool)
    requires t < |a.trades| && RealView(K, v) && RealFills(K, a.legs)
    ensures MirrorDb(K, b) in Outcomes(MirrorDb(K, a), t, MirrorView(K, v), K - price, staged)
       <==> b in Outcomes(a, t, v, price, staged)
  {
    HasTickMirrors(K, a, b, t, v, price, staged);
  }

  lemma DoneMirrors(K: real, a: Db, b: Db, t: nat)
    requires t < |a.trades|
    ensures MirrorDb(K, b) == SetStatus(MirrorDb(K, a), t, Done) <==> b == SetStatus(a, t, Done)
  {
    TradeSetMirrors(K, a, t, a.trades[t].(status := Done));
    DbsAlike(K, b, SetStatus(a, t, Done));
  }

  /** A tick is due. */
  predicate Due(a: Db, t: nat, v: View, price: real, staged: bool)
    requires t < |a.trades|
  {
    && !Quiet(a, t) && ClosingSide(a.trades[t].side, v.quote) == Some(price)
    && staged == (a.trades[t].staged || !NoneWaiting(a, t))
  }

  lemma DueMirrors(K: real, a: Db, t: nat, v: View, price: real, staged: bool)
    requires t < |a.trades| && RealQuote(K, v.quote) && Due(a, t, v, price, staged)
    ensures Due(MirrorDb(K, a), t, MirrorView(K, v), K - price, staged)
  {
    StatesMirror(K, a, t);
    D.QuoteMirrors(K, a.trades[t].side, v.quote);
  }

  lemma DueTicks(a: Db, b: Db, t: nat, v: View, price: real, staged: bool)
    requires t < |a.trades| && Due(a, t, v, price, staged)
    ensures TradeTicked(a, b, t, v) <==> b in Outcomes(a, t, v, price, staged)
  {}

  lemma TickDueMirrors(K: real, a: Db, b: Db, t: nat, v: View, price: real, staged: bool)
    requires t < |a.trades| && RealView(K, v) && RealFills(K, a.legs) && Due(a, t, v, price, staged)
    ensures TradeTicked(MirrorDb(K, a), MirrorDb(K, b), t, MirrorView(K, v)) <==> TradeTicked(a, b, t, v)
  {
    DueMirrors(K, a, t, v, price, staged);
    DueTicks(a, b, t, v, price, staged);
    DueTicks(MirrorDb(K, a), MirrorDb(K, b), t, MirrorView(K, v), K - price, staged);
    OutcomesMirror(K, a, b, t, v, price, staged);
  }

  lemma NoTickMirrors(K: real, a: Db, b: Db, t: nat, v: View)
    requires t < |a.trades| && RealQuote(K, v.quote)
    requires Quiet(a, t) || ClosingSide(a.trades[t].side, v.quote).None?
    ensures TradeTicked(MirrorDb(K, a), MirrorDb(K, b), t, MirrorView(K, v)) <==> TradeTicked(a, b, t, v)
  {
    StatesMirror(K, a, t);
    D.QuoteMirrors(K, a.trades[t].side, v.quote);
    DoneMirrors(K, a, b, t);
    DbsAlike(K, b, a);
  }

  /** A trade's turn of the monitor commutes with the mirror: closed when nothing is left of it, skipped without
      a price, broken off by an exception, or run to its roll-up. */
  lemma TurnMirrors(K: real, a: Db, b: Db, t: nat, v: View)
    requires t < |a.trades| && RealView(K, v) && RealFills(K, a.legs)
    ensures TradeTicked(MirrorDb(K, a), MirrorDb(K, b), t, MirrorView(K, v)) <==> TradeTicked(a, b, t, v)
  {
    if Quiet(a, t) || ClosingSide(a.trades[t].side, v.quote).None? {
      NoTickMirrors(K, a, b, t, v);
    } else {
      var staged := a.trades[t].staged || !NoneWaiting(a, t);
      TickDueMirrors(K, a, b, t, v, ClosingSide(a.trades[t].side, v.quote).value, staged);
    }
  }
}
