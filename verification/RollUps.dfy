/** When a trade's stored total is right, and the run on which it is wrong for ever. */
module RollUps {
  import opened Wrappers
  import opened Prices
  import opened Rows
  import opened Reconcile
  import opened Links
  import opened Book
  import opened Invariants
  import opened Steps

  /** The stored total is the sum of the trade's auditable legs. */
  predicate InSync(d: Db, t: nat) { t < |d.trades| ==> d.trades[t].realized == AuditSum(d.legs, t) }

  /** The monitor's events that change the session alone. */
  predicate EditsSession(e: Event) { e.Pass? || e.Edit? || e.RollUp? || e.CloseIdle? || e.Place? || e.Finish? }

  predicate RollsBack(e: Event) { e.Crash? || ((e.Intent? || e.CommitAll?) && e.end.Failed?) }

  predicate Keeps(e: Event) { (e.Intent? || e.CommitAll?) && !e.end.Failed? }

  /** What every other event does to the stored trades and legs: add a new trade's, make the session's durable,
      give them up, or nothing. */
  lemma OtherEvents(cfg: RiskCfg, w: World, v: World, e: Event)
    requires Step(cfg, w, v, e) && !EditsSession(e)
    ensures e.HandOver? ==> v.db == Append(w.db, w.draft.value, e.tranches, e.legs)
                            && v.ses == Append(w.ses, w.draft.value, e.tranches, e.legs)
    ensures Keeps(e) ==> SameRows(v.db, w.ses) && SameRows(v.ses, w.ses)
    ensures RollsBack(e) ==> v.db == v.ses == w.db
    ensures !e.HandOver? && !Keeps(e) && !RollsBack(e) ==> v.db == w.db && v.ses == w.ses
  {}

  ghost predicate SameRows(a: Db, b: Db) { a.trades == b.trades && a.legs == b.legs }

  // ---- sums ------------------------------------------------------------------------------------

  /** `b` has trade `t`'s legs where `a` has them, with the same amounts, and no others. */
  ghost predicate SameMoney(a: seq<Leg>, b: seq<Leg>, t: nat) {
    && |a| <= |b|
    && forall i :: 0 <= i < |b| ==>
         if i < |a| && a[i].trade == t then b[i].trade == t && Booked(b[i]) == Booked(a[i])
         else b[i].trade == t ==> Booked(b[i]) == 0.0
  }

  lemma {:induction false} SameSum(a: seq<Leg>, b: seq<Leg>, t: nat)
    requires SameMoney(a, b, t)
    ensures AuditSum(a, t) == AuditSum(b, t)
  {
    if b != [] {
      var n := |b| - 1;
      if |a| == |b| {
        SameSum(a[..n], b[..n], t);
      } else {
        SameSum(a, b[..n], t);
      }
    }
  }

  // ---- closed trades are final -----------------------------------------------------------------

  /** Trade `t` and its legs are in `b` exactly as in `a`. */
  ghost predicate Frozen(a: Db, b: Db, t: nat) {
    && t < |a.trades| <= |b.trades| && |a.legs| <= |b.legs| && b.trades[t] == a.trades[t]
    && forall i :: 0 <= i < |b.legs| ==>
         if i < |a.legs| && a.legs[i].trade == t then b.legs[i] == a.legs[i] else b.legs[i].trade != t
  }

  ghost predicate ClosedFrozen(a: Db, b: Db) {
    forall t :: 0 <= t < |a.trades| && a.trades[t].status.Done? ==> Frozen(a, b, t)
  }

  lemma FrozenTransitive(a: Db, b: Db, c: Db)
    requires ClosedFrozen(a, b) && ClosedFrozen(b, c)
    ensures ClosedFrozen(a, c)
  {}

  lemma EvolvedLegTrade(a: Db, b: Db, i: nat)
    requires Shaped(a) && Evolves(a, b) && i < |a.legs|
    ensures b.legs[i].trade == a.legs[i].trade
  {}

  /** Legs of other trades than `t`, and other trades, are untouched by `t`'s tick. */
  ghost predicate OnlyTouches(a: Db, b: Db, t: nat) {
    && SameSize(a, b)
    && (forall u :: 0 <= u < |a.trades| && u != t ==> b.trades[u] == a.trades[u])
    && (forall i :: 0 <= i < |a.legs| ==> b.legs[i].trade == a.legs[i].trade)
    && (forall i :: 0 <= i < |a.legs| && a.legs[i].trade != t ==> b.legs[i] == a.legs[i])
  }

  lemma TouchedFrozen(a: Db, b: Db, t: nat)
    requires OnlyTouches(a, b, t) && (t < |a.trades| ==> !a.trades[t].status.Done?)
    ensures ClosedFrozen(a, b)
  {}

  /** Each monitor step edits the session's rows of one live trade. */
  lemma StepTouches(cfg: RiskCfg, w: World, v: World, e: Event) returns (t: nat)
    requires Inv(cfg, w) && Step(cfg, w, v, e)
    requires EditsSession(e)
    ensures OnlyTouches(w.ses, v.ses, t) && Managed(w.ses, t) && v.db == w.db
    ensures !e.Pass? && !e.Edit? && !e.RollUp? && !e.CloseIdle? ==> v.ses.trades == w.ses.trades
    ensures e.Pass? ==> t == e.t
  {
    match e
    case Pass(u, snap, ids, cut) =>
      t := u;
      PassIsLocal(w.ses, u, snap, ids, cut);
      forall i | 0 <= i < |w.ses.legs|
        ensures v.ses.legs[i].trade == w.ses.legs[i].trade
        ensures w.ses.legs[i].trade != u ==> v.ses.legs[i] == w.ses.legs[i]
      {
        EvolvedLegTrade(w.ses, v.ses, i);
        PassEvolves(CtxFor(w.ses, u, snap), ScanOf(w.ses), ids, i);
      }
    case Edit(u, edited) =>
      t := u;
      forall i | 0 <= i < |w.ses.legs| ensures v.ses.legs[i].trade == w.ses.legs[i].trade {
        EvolvedLegTrade(w.ses, v.ses, i);
      }
    case RollUp(u) => t := u;
    case CloseIdle(u) => t := u;
    case Place(reply, now) =>
      t := w.ses.tranches[w.drive.r].trade;
      assert OwnsLegs(w.ses, w.ses.tranches[w.drive.r]);
    case Finish(_, _) => t := w.ses.tranches[w.drive.r].trade;
  }

  lemma FrozenSame(a: Db, b: Db)
    requires SameRows(a, b)
    ensures ClosedFrozen(a, b)
  {}

  lemma HandOverFrozen(cfg: RiskCfg, w: World, e: Event, d: Db)
    requires e.HandOver? && Enabled(cfg, w, e) && |d.trades| == |w.db.trades| && |d.legs| == |w.db.legs|
    requires Shaped(d)
    ensures ClosedFrozen(d, Append(d, w.draft.value, e.tranches, e.legs))
  {}

  lemma AppendFrozen(cfg: RiskCfg, w: World, e: Event)
    requires Inv(cfg, w) && e.HandOver? && Enabled(cfg, w, e) && ClosedFrozen(w.db, w.ses)
    ensures ClosedFrozen(Append(w.db, w.draft.value, e.tranches, e.legs),
                         Append(w.ses, w.draft.value, e.tranches, e.legs))
  {}

  lemma StepFrozen(cfg: RiskCfg, w: World, v: World, e: Event)
    requires Inv(cfg, w) && Step(cfg, w, v, e) && ClosedFrozen(w.db, w.ses)
    ensures ClosedFrozen(w.db, v.db) && ClosedFrozen(v.db, v.ses)
  {
    FrozenReflexive(w.db);
    if EditsSession(e) {
      var t := StepTouches(cfg, w, v, e);
      TouchedFrozen(w.ses, v.ses, t);
      FrozenTransitive(w.db, w.ses, v.ses);
    } else {
      OtherEvents(cfg, w, v, e);
      if e.HandOver? {
        HandOverFrozen(cfg, w, e, w.db);
        AppendFrozen(cfg, w, e);
      } else if Keeps(e) {
        FrozenSame(w.ses, v.db);
        FrozenSame(v.db, v.ses);
        FrozenTransitive(w.db, w.ses, v.db);
      }
    }
  }

  lemma FrozenReflexive(d: Db)
    ensures ClosedFrozen(d, d)
  {}

  lemma {:induction false} RunFrozen(cfg: RiskCfg, ws: seq<World>, es: seq<Event>, j: nat, k: nat)
    requires Run(cfg, ws, es) && j <= k < |ws|
    ensures ClosedFrozen(ws[k].db, ws[k].ses) && ClosedFrozen(ws[j].db, ws[k].db)
    decreases k
  {
    if k == 0 {
      FrozenReflexive(EMPTY_DB);
    } else {
      RunFrozen(cfg, ws, es, if j == k then k - 1 else j, k - 1);
      RunKeeps(cfg, ws, es, k - 1);
      assert StepAt(cfg, ws, es, k - 1);
      StepFrozen(cfg, ws[k - 1], ws[k], es[k - 1]);
      if j == k {
        FrozenReflexive(ws[k].db);
      } else {
        FrozenTransitive(ws[j].db, ws[k - 1].db, ws[k].db);
      }
    }
  }

  /** A durably closed trade and its legs never change again, so its total is right for ever or wrong
      for ever. */
  lemma ClosedIsFinal(cfg: RiskCfg, ws: seq<World>, es: seq<Event>, j: nat, k: nat, t: nat)
    requires Run(cfg, ws, es) && j <= k < |ws| && t < |ws[j].db.trades| && ws[j].db.trades[t].status.Done?
    ensures Frozen(ws[j].db, ws[k].db, t)
    ensures InSync(ws[k].db, t) <==> InSync(ws[j].db, t)
  {
    RunFrozen(cfg, ws, es, j, k);
    SameSum(ws[j].db.legs, ws[k].db.legs, t);
  }

  // ---- when the stored total is right ----------------------------------------------------------

  predicate Passes(e: Event, t: nat) { e.Pass? && e.t == t }

  predicate RollsUp(e: Event, t: nat) { e.RollUp? && e.t == t }

  lemma SameMoneyInSync(a: Db, b: Db, t: nat)
    requires InSync(a, t) && t < |a.trades| <= |b.trades| && SameMoney(a.legs, b.legs, t)
    requires b.trades[t].realized == a.trades[t].realized
    ensures InSync(b, t)
  {
    SameSum(a.legs, b.legs, t);
  }

  /** A leg that is not closed by the step books what it did. */
  lemma BookedSame(d: Db, e: Db, t: nat)
    requires SameSize(d, e) && LegsOk(d.legs) && LegsOk(e.legs)
    requires forall i :: 0 <= i < |d.legs| ==> e.legs[i].trade == d.legs[i].trade
    requires forall i :: 0 <= i < |d.legs| && d.legs[i].trade == t ==> e.legs[i].close == d.legs[i].close
    ensures SameMoney(d.legs, e.legs, t)
  {}

  lemma EditKeepsCloses(d: Db, e: Db, u: nat)
    requires EditOk(d, e, u)
    ensures forall i :: 0 <= i < |d.legs| ==> e.legs[i].close == d.legs[i].close
  {
    forall i | 0 <= i < |d.legs| ensures e.legs[i].close == d.legs[i].close {
      assert e.legs[i] == d.legs[i] || LegEdit(d.legs[i], e.legs[i]);
    }
  }

  /** Nothing but its roll-up changes a trade's stored total in the session. */
  lemma TotalStays(cfg: RiskCfg, w: World, v: World, e: Event, t: nat)
    requires Inv(cfg, w) && Step(cfg, w, v, e) && !RollsUp(e, t) && t < |w.ses.trades|
    requires EditsSession(e)
    ensures t < |v.ses.trades| && v.ses.trades[t].realized == w.ses.trades[t].realized
  {}

  /** A placed order closes nothing. */
  lemma PlaceKeepsClose(cfg: RiskCfg, w: World, v: World, e: Event)
    requires Inv(cfg, w) && Step(cfg, w, v, e) && e.Place?
    ensures forall i :: 0 <= i < |w.ses.legs| && i < |v.ses.legs| ==> v.ses.legs[i].close == w.ses.legs[i].close
  {}

  /** Outside a pass of the trade, a monitor step leaves its closes alone. */
  lemma ClosesKept(cfg: RiskCfg, w: World, v: World, e: Event, t: nat)
    requires Inv(cfg, w) && Step(cfg, w, v, e) && !Passes(e, t)
    requires EditsSession(e)
    ensures SameSize(w.ses, v.ses) && v.db == w.db
    ensures forall i :: 0 <= i < |w.ses.legs| ==> v.ses.legs[i].trade == w.ses.legs[i].trade
    ensures forall i :: 0 <= i < |w.ses.legs| && w.ses.legs[i].trade == t ==> v.ses.legs[i].close == w.ses.legs[i].close
  {
    var u := StepTouches(cfg, w, v, e);
    match e
    case Edit(_, _) => EditKeepsCloses(w.ses, v.ses, e.t);
    case Place(_, _) => PlaceKeepsClose(cfg, w, v, e);
    case _ =>
  }

  lemma SessionInSync(cfg: RiskCfg, w: World, v: World, e: Event, t: nat)
    requires Inv(cfg, w) && Step(cfg, w, v, e) && !Passes(e, t) && t < |w.ses.trades|
    requires EditsSession(e)
    requires InSync(w.ses, t) || RollsUp(e, t)
    ensures InSync(v.ses, t)
  {
    if !RollsUp(e, t) {
      ClosesKept(cfg, w, v, e, t);
      assert LegsOk(v.ses.legs) by {
        StepKeeps(cfg, w, v, e);
      }
      BookedSame(w.ses, v.ses, t);
      SameMoneyInSync(w.ses, v.ses, t);
    }
  }

  lemma HandOverInSync(cfg: RiskCfg, w: World, e: Event, d: Db, t: nat)
    requires Inv(cfg, w) && e.HandOver? && Enabled(cfg, w, e) && t < |d.trades| && InSync(d, t)
    requires |d.legs| == |w.db.legs| && |d.trades| == |w.db.trades|
    ensures InSync(Append(d, w.draft.value, e.tranches, e.legs), t)
  {
    SameMoneyInSync(d, Append(d, w.draft.value, e.tranches, e.legs), t);
  }

  /** Only a pass of the trade, or rolling its roll-up back, can put a stored total out of step. */
  lemma OnlyAPassUnsyncs(cfg: RiskCfg, w: World, v: World, e: Event, t: nat)
    requires Inv(cfg, w) && Step(cfg, w, v, e) && !Passes(e, t) && t < |w.db.trades|
    ensures t < |v.db.trades|
    ensures InSync(w.ses, t) && (RollsBack(e) ==> InSync(w.db, t)) ==> InSync(v.ses, t)
    ensures InSync(w.db, t) && InSync(w.ses, t) ==> InSync(v.db, t)
    ensures RollsUp(e, t) ==> InSync(v.ses, t)
    ensures e.CommitAll? && !e.end.Failed? && InSync(w.ses, t) ==> InSync(v.db, t)
  {
    if EditsSession(e) {
      EditInSync(cfg, w, v, e, t);
    } else {
      OtherEvents(cfg, w, v, e);
      if e.HandOver? {
        if InSync(w.ses, t) { HandOverInSync(cfg, w, e, w.ses, t); }
        if InSync(w.db, t) { HandOverInSync(cfg, w, e, w.db, t); }
      }
    }
  }

  lemma EditInSync(cfg: RiskCfg, w: World, v: World, e: Event, t: nat)
    requires Inv(cfg, w) && Step(cfg, w, v, e) && !Passes(e, t) && t < |w.db.trades| && EditsSession(e)
    ensures v.db == w.db && |v.ses.trades| == |w.ses.trades|
    ensures InSync(w.ses, t) || RollsUp(e, t) ==> InSync(v.ses, t)
  {
    var u := StepTouches(cfg, w, v, e);
    if InSync(w.ses, t) || RollsUp(e, t) {
      SessionInSync(cfg, w, v, e, t);
    }
  }

  lemma NextInSync(cfg: RiskCfg, ws: seq<World>, es: seq<Event>, k: nat, t: nat)
    requires Run(cfg, ws, es) && k < |es| && !Passes(es[k], t) && t < |ws[k].db.trades|
    ensures t < |ws[k + 1].db.trades|
    ensures InSync(ws[k].ses, t) && (RollsBack(es[k]) ==> InSync(ws[k].db, t)) ==> InSync(ws[k + 1].ses, t)
    ensures InSync(ws[k].db, t) && InSync(ws[k].ses, t) ==> InSync(ws[k + 1].db, t)
    ensures es[k] == RollUp(t) ==> InSync(ws[k + 1].ses, t)
    ensures es[k].CommitAll? && !es[k].end.Failed? && InSync(ws[k].ses, t) ==> InSync(ws[k + 1].db, t)
  {
    RunKeeps(cfg, ws, es, k);
    assert StepAt(cfg, ws, es, k);
    OnlyAPassUnsyncs(cfg, ws[k], ws[k + 1], es[k], t);
  }

  /** A roll-up at `j` that is committed at `c` leaves the durable total right until the trade's next
      pass, and for ever when it closed the trade. */
  lemma {:induction false} RollUpBooks(cfg: RiskCfg, ws: seq<World>, es: seq<Event>, j: nat, c: nat, k: nat, t: nat)
    requires Run(cfg, ws, es) && j < c < k < |ws| && t < |ws[j].db.trades|
    requires es[j] == RollUp(t) && es[c].CommitAll? && !es[c].end.Failed?
    requires forall m :: j <= m < c ==> !RollsBack(es[m])
    requires forall m :: j <= m < k ==> !Passes(es[m], t)
    ensures t < |ws[k].db.trades| && InSync(ws[k].db, t) && InSync(ws[k].ses, t)
    decreases k
  {
    if k == c + 1 {
      SessionHolds(cfg, ws, es, j, c, t);
    } else {
      RollUpBooks(cfg, ws, es, j, c, k - 1, t);
    }
    NextInSync(cfg, ws, es, k - 1, t);
  }

  lemma {:induction false} SessionHolds(cfg: RiskCfg, ws: seq<World>, es: seq<Event>, j: nat, c: nat, t: nat)
    requires Run(cfg, ws, es) && j < c < |ws| && t < |ws[j].db.trades| && es[j] == RollUp(t)
    requires forall m :: j <= m < c ==> !RollsBack(es[m]) && !Passes(es[m], t)
    ensures t < |ws[c].db.trades| && InSync(ws[c].ses, t)
  {
    if c > j + 1 {
      SessionHolds(cfg, ws, es, j, c - 1, t);
    }
    NextInSync(cfg, ws, es, c - 1, t);
  }

  // ---- exactly when it is right ------------------------------------------------------------------

  /** Money of trade `t`'s legs among the first `n` of `b` that were not closed yet in `a`. */
  function SettledTo(a: seq<Leg>, b: seq<Leg>, t: nat, n: nat): real
    requires n <= |b|
  {
    if n == 0 then 0.0
    else
      var i := n - 1;
      SettledTo(a, b, t, i) + if b[i].trade == t && !(i < |a| && a[i].status.Closed?) then Booked(b[i]) else 0.0
  }

  /** What trade `t` settled between `a` and `b`. */
  function SettledSince(a: seq<Leg>, b: seq<Leg>, t: nat): real { SettledTo(a, b, t, |b|) }

  /** `b` has the legs of `a`, with what was closed left as it was. */
  ghost predicate GrowsInto(a: seq<Leg>, b: seq<Leg>) {
    |a| <= |b| && forall i :: 0 <= i < |a| ==> b[i].trade == a[i].trade && (a[i].status.Closed? ==> b[i] == a[i])
  }

  lemma {:induction false} SumSplits(a: seq<Leg>, b: seq<Leg>, t: nat, n: nat)
    requires GrowsInto(a, b) && n <= |b|
    ensures AuditSum(b[..n], t) == AuditSum(a[..if n <= |a| then n else |a|], t) + SettledTo(a, b, t, n)
  {
    if n > 0 {
      var i := n - 1;
      SumSplits(a, b, t, i);
      assert b[..n][..i] == b[..i];
      if i < |a| {
        assert a[..n][..i] == a[..i];
      }
    }
  }

  /** `d` stores the total of `base`, and its legs are those of `base` later on. */
  ghost predicate Since(base: seq<Leg>, d: Db, t: nat) {
    t < |d.trades| && d.trades[t].realized == AuditSum(base, t) && GrowsInto(base, d.legs)
  }

  /** Such a total is right exactly when what settled since nets to nothing. */
  lemma SinceExactly(base: seq<Leg>, d: Db, t: nat)
    requires Since(base, d, t)
    ensures InSync(d, t) <==> SettledSince(base, d.legs, t) == 0.0
  {
    SumSplits(base, d.legs, t, |d.legs|);
    assert d.legs[..|d.legs|] == d.legs && base[..|base|] == base;
  }

  lemma SessionEvolves(cfg: RiskCfg, w: World, v: World, e: Event)
    requires Inv(cfg, w) && Step(cfg, w, v, e)
    requires EditsSession(e)
    ensures Evolves(w.ses, v.ses) && v.db == w.db
  {
    match e
    case Pass(t, snap, ids, cut) => PassIsLocal(w.ses, t, snap, ids, cut);
    case Edit(t, edited) =>
    case RollUp(t) => TradeEditIsLocal(w.ses, t, RolledUp(w.ses, t).trades[t]);
    case CloseIdle(t) => TradeEditIsLocal(w.ses, t, w.ses.trades[t].(status := Done));
    case Place(reply, now) =>
      var i := w.drive.todo[0];
      assert OwnsLegs(w.ses, w.ses.tranches[w.drive.r]);
      PlacedEvolves(w.ses.trades[w.ses.legs[i].trade].side, w.ses.legs[i], reply, now);
      PlaceIsLocal(w.ses, i, PlacedLeg(w.ses.legs[i], reply, now));
    case Finish(state, now) => TrancheSetIsLocal(w.ses, w.drive.r, state, now);
  }

  lemma GrowsOn(base: seq<Leg>, a: Db, b: Db)
    requires Shaped(a) && Evolves(a, b) && GrowsInto(base, a.legs)
    ensures GrowsInto(base, b.legs)
  {
    forall i | 0 <= i < |base|
      ensures b.legs[i].trade == base[i].trade && (base[i].status.Closed? ==> b.legs[i] == base[i])
    {
      assert LegEvolves(a.trades[a.legs[i].trade].side, a.legs[i], b.legs[i]);
    }
  }

  lemma SinceOn(cfg: RiskCfg, w: World, v: World, e: Event, t: nat, base: seq<Leg>)
    requires Inv(cfg, w) && Step(cfg, w, v, e) && Since(base, w.ses, t)
    requires EditsSession(e)
    ensures v.db == w.db && Since(if RollsUp(e, t) then w.ses.legs else base, v.ses, t)
  {
    SessionEvolves(cfg, w, v, e);
    if !RollsUp(e, t) {
      GrowsOn(base, w.ses, v.ses);
      TotalStays(cfg, w, v, e, t);
    }
  }

  /** How the two stored totals follow an event: `x` is what the durable total sums, `y` the session's. */
  lemma StepSince(cfg: RiskCfg, w: World, v: World, e: Event, t: nat, x: seq<Leg>, y: seq<Leg>)
    requires Inv(cfg, w) && Step(cfg, w, v, e) && Since(x, w.db, t) && Since(y, w.ses, t)
    ensures Since(DurableBase(e, x, y), v.db, t) && Since(SessionBase(w, e, t, x, y), v.ses, t)
  {
    if EditsSession(e) {
      SinceOn(cfg, w, v, e, t, y);
    } else {
      OtherEvents(cfg, w, v, e);
      if e.HandOver? {
        AppendSince(w.db, v.db, t, x);
        AppendSince(w.ses, v.ses, t, y);
      } else if Keeps(e) {
        SinceSame(w.ses, v.db, t, y);
        SinceSame(w.ses, v.ses, t, y);
      }
    }
  }

  lemma AppendSince(a: Db, b: Db, t: nat, base: seq<Leg>)
    requires Since(base, a, t) && a.trades <= b.trades && a.legs <= b.legs
    ensures Since(base, b, t)
  {}

  lemma SinceSame(a: Db, b: Db, t: nat, base: seq<Leg>)
    requires Since(base, a, t) && SameRows(a, b)
    ensures Since(base, b, t)
  {}

  function DurableBase(e: Event, x: seq<Leg>, y: seq<Leg>): seq<Leg> {
    if (e.Intent? || e.CommitAll?) && !e.end.Failed? then y else x
  }

  function SessionBase(w: World, e: Event, t: nat, x: seq<Leg>, y: seq<Leg>): seq<Leg> {
    if RollsBack(e) then x else if RollsUp(e, t) then w.ses.legs else y
  }

  lemma NextSince(cfg: RiskCfg, ws: seq<World>, es: seq<Event>, k: nat, t: nat, x: seq<Leg>, y: seq<Leg>)
    requires Run(cfg, ws, es) && k < |es| && Since(x, ws[k].db, t) && Since(y, ws[k].ses, t)
    ensures Since(DurableBase(es[k], x, y), ws[k + 1].db, t)
    ensures Since(SessionBase(ws[k], es[k], t, x, y), ws[k + 1].ses, t)
  {
    RunKeeps(cfg, ws, es, k);
    assert StepAt(cfg, ws, es, k);
    StepSince(cfg, ws[k], ws[k + 1], es[k], t, x, y);
  }

  /** A new trade's total is 0, the sum of no legs. */
  lemma OpensSince(cfg: RiskCfg, w: World, v: World, e: Event, t: nat)
    requires Inv(cfg, w) && Step(cfg, w, v, e) && |w.db.trades| <= t < |v.db.trades|
    ensures Since([], v.db, t) && Since([], v.ses, t)
  {
    assert e.HandOver?;
  }

  /** `base` is nothing, or the legs some roll-up of the trade before `k` summed. */
  ghost predicate RolledFrom(ws: seq<World>, es: seq<Event>, k: nat, t: nat, base: seq<Leg>)
    requires |ws| == |es| + 1 && k < |ws|
  {
    base == [] || exists j :: 0 <= j < k && RollsUp(es[j], t) && base == ws[j].ses.legs
  }

  lemma {:induction false} TotalsComeFrom(cfg: RiskCfg, ws: seq<World>, es: seq<Event>, k: nat, t: nat)
    returns (x: seq<Leg>, y: seq<Leg>)
    requires Run(cfg, ws, es) && k < |ws| && t < |ws[k].db.trades|
    ensures Since(x, ws[k].db, t) && Since(y, ws[k].ses, t)
    ensures RolledFrom(ws, es, k, t, x) && RolledFrom(ws, es, k, t, y)
    decreases k
  {
    assert k > 0;
    var w, e := ws[k - 1], es[k - 1];
    if t < |w.db.trades| {
      x, y := TotalsComeFrom(cfg, ws, es, k - 1, t);
      NextSince(cfg, ws, es, k - 1, t, x, y);
      x, y := DurableBase(e, x, y), SessionBase(w, e, t, x, y);
    } else {
      RunKeeps(cfg, ws, es, k - 1);
      assert StepAt(cfg, ws, es, k - 1);
      OpensSince(cfg, w, ws[k], e, t);
      x, y := [], [];
    }
  }

  /** Over every run: the durable total is what some roll-up of the trade summed (0 if none has been kept),
      and it is right exactly when the legs that settled since net to nothing. */
  lemma TotalIsRightExactly(cfg: RiskCfg, ws: seq<World>, es: seq<Event>, k: nat, t: nat) returns (base: seq<Leg>)
    requires Run(cfg, ws, es) && k < |ws| && t < |ws[k].db.trades|
    ensures RolledFrom(ws, es, k, t, base) && ws[k].db.trades[t].realized == AuditSum(base, t)
    ensures InSync(ws[k].db, t) <==> SettledSince(base, ws[k].db.legs, t) == 0.0
  {
    var y;
    base, y := TotalsComeFrom(cfg, ws, es, k, t);
    SinceExactly(base, ws[k].db, t);
  }

  /** Before its first roll-up a trade stores 0, which is right exactly when its legs net to nothing. */
  lemma NeverRolledUp(cfg: RiskCfg, ws: seq<World>, es: seq<Event>, k: nat, t: nat)
    requires Run(cfg, ws, es) && k < |ws| && t < |ws[k].db.trades| && forall j :: 0 <= j < k ==> !RollsUp(es[j], t)
    ensures ws[k].db.trades[t].realized == 0.0 && (InSync(ws[k].db, t) <==> AuditSum(ws[k].db.legs, t) == 0.0)
  {
    var base := TotalIsRightExactly(cfg, ws, es, k, t);
  }

  /** With `j` the trade's latest roll-up, kept by a commit at `c`: the durable total is right exactly when
      what settled since that roll-up nets to nothing, whatever passes, commits and crashes came after. */
  lemma RolledUpExactly(cfg: RiskCfg, ws: seq<World>, es: seq<Event>, j: nat, c: nat, k: nat, t: nat)
    requires Run(cfg, ws, es) && j < c < k < |ws| && t < |ws[j].db.trades|
    requires es[j] == RollUp(t) && Keeps(es[c]) && forall m :: j < m < c ==> !RollsBack(es[m])
    requires forall m :: j < m < k ==> !RollsUp(es[m], t)
    ensures InSync(ws[k].db, t) <==> SettledSince(ws[j].ses.legs, ws[k].db.legs, t) == 0.0
  {
    KeptSince(cfg, ws, es, j, c, k, t);
    SinceExactly(ws[j].ses.legs, ws[k].db, t);
  }

  /** Until it is kept, the session stores the roll-up's total. */
  lemma {:induction false} HeldSince(cfg: RiskCfg, ws: seq<World>, es: seq<Event>, j: nat, k: nat, t: nat)
    requires Run(cfg, ws, es) && j < k < |ws| && t < |ws[j].db.trades| && es[j] == RollUp(t)
    requires forall m :: j < m < k ==> !RollsBack(es[m]) && !RollsUp(es[m], t)
    ensures t < |ws[k].db.trades| && Since(ws[j].ses.legs, ws[k].ses, t)
    decreases k
  {
    var base, e := ws[j].ses.legs, es[k - 1];
    if k == j + 1 {
      var x, y := TotalsComeFrom(cfg, ws, es, j, t);
      NextSince(cfg, ws, es, j, t, x, y);
    } else {
      HeldSince(cfg, ws, es, j, k - 1, t);
      var x, y := TotalsComeFrom(cfg, ws, es, k - 1, t);
      assert SessionBase(ws[k - 1], e, t, x, base) == base;
      NextSince(cfg, ws, es, k - 1, t, x, base);
    }
  }

  /** From then on the tables and the session both do. */
  lemma {:induction false} KeptSince(cfg: RiskCfg, ws: seq<World>, es: seq<Event>, j: nat, c: nat, k: nat, t: nat)
    requires Run(cfg, ws, es) && j < c < k < |ws| && t < |ws[j].db.trades|
    requires es[j] == RollUp(t) && Keeps(es[c]) && forall m :: j < m < c ==> !RollsBack(es[m])
    requires forall m :: j < m < k ==> !RollsUp(es[m], t)
    ensures t < |ws[k].db.trades| && Since(ws[j].ses.legs, ws[k].ses, t) && Since(ws[j].ses.legs, ws[k].db, t)
    decreases k
  {
    var base, w, e := ws[j].ses.legs, ws[k - 1], es[k - 1];
    if k == c + 1 {
      HeldSince(cfg, ws, es, j, c, t);
      var x, y := TotalsComeFrom(cfg, ws, es, c, t);
      assert DurableBase(e, x, base) == base == SessionBase(w, e, t, x, base);
      NextSince(cfg, ws, es, c, t, x, base);
    } else {
      KeptSince(cfg, ws, es, j, c, k - 1, t);
      assert DurableBase(e, base, base) == base == SessionBase(w, e, t, base, base);
      NextSince(cfg, ws, es, k - 1, t, base, base);
    }
  }

  // ---- when it is wrong ------------------------------------------------------------------------

  const TRADE := Trade(0, 0, "GOLD", Buy, 1.0, 0, false, Live, None, 0.0)
  const HELD := Leg(0, 1, Market, 100.0, 110.0, 1.0, 90.0, 90.0, false, Open, None, Some(7), Some(100.0), 0, None)
  const GAIN := Close(110.0, TpHit, Some(10.0), Some(Exact))
  const SEEN := Snapshot([], {}, [Txn(Some(7), Some(10.0), true, true)], map[], 110.0, Some(1.0), 1.0, 60, 60, None)

  function Holding(): Db { Db([TRADE], [], [HELD]) }

  function Gained(status: TradeStatus): Db {
    Db([TRADE.(status := status)], [], [HELD.(status := Closed, close := Some(GAIN))])
  }

  function Quietly(db: Db, ses: Db): World { World(db, ses, Idle, None, multiset{}, {}) }

  lemma GainBooked(status: TradeStatus)
    ensures AuditSum(Gained(status).legs, 0) == 10.0
  {}

  const DRAFTED := EMPTY.(draft := Some(TRADE))

  lemma Opens(cfg: RiskCfg)
    requires !cfg.halted && !cfg.enabled
    ensures Step(cfg, EMPTY, DRAFTED, Check(TRADE, 0.0))
    ensures Step(cfg, DRAFTED, Quietly(Holding(), Holding()), HandOver([], [HELD]))
  {}

  lemma GainTaken(cfg: RiskCfg)
    ensures Step(cfg, Quietly(Holding(), Holding()), Quietly(Holding(), Gained(Live)), Pass(0, SEEN, [0], true))
  {}

  lemma Retires(cfg: RiskCfg)
    ensures Step(cfg, Quietly(Gained(Live), Gained(Live)), Quietly(Gained(Live), Gained(Done)), CloseIdle(0))
  {}

  lemma Stays(cfg: RiskCfg, db: Db, ses: Db)
    ensures Step(cfg, Quietly(db, ses), Quietly(ses, ses), CommitAll(Applied))
  {}

  /** The tick that closes the leg, and its commit. */
  lemma CutRun(cfg: RiskCfg) returns (ws: seq<World>, es: seq<Event>)
    requires !cfg.halted && !cfg.enabled
    ensures Run(cfg, ws, es) && ws[|es|] == Quietly(Gained(Live), Gained(Live))
  {
    var held, gained := Holding(), Gained(Live);
    ws := [EMPTY, DRAFTED, Quietly(held, held), Quietly(held, gained), Quietly(gained, gained)];
    es := [Check(TRADE, 0.0), HandOver([], [HELD]), Pass(0, SEEN, [0], true), CommitAll(Applied)];
    Opens(cfg);
    GainTaken(cfg);
    Stays(cfg, held, gained);
    assert StepAt(cfg, ws, es, 0) && StepAt(cfg, ws, es, 1) && StepAt(cfg, ws, es, 2) && StepAt(cfg, ws, es, 3);
  }

  /** The next tick, which finds nothing live and closes the trade. */
  lemma StaleRun(cfg: RiskCfg) returns (ws: seq<World>, es: seq<Event>)
    requires !cfg.halted && !cfg.enabled
    ensures Run(cfg, ws, es) && ws[|es|] == Quietly(Gained(Done), Gained(Done))
  {
    var gained, done := Gained(Live), Gained(Done);
    ws, es := CutRun(cfg);
    Retires(cfg);
    Stays(cfg, gained, done);
    RunGrows(cfg, ws, es, Quietly(gained, done), CloseIdle(0));
    ws, es := ws + [Quietly(gained, done)], es + [CloseIdle(0)];
    RunGrows(cfg, ws, es, Quietly(done, done), CommitAll(Applied));
    ws, es := ws + [Quietly(done, done)], es + [CommitAll(Applied)];
  }

  /** An exception after the close and before the roll-up (publishing the event can raise) lets the
      tick's commit keep the closed leg alone. The next tick then closes the trade with no roll-up:
      it has no live leg left to tick. Its winnings are never in the stored total. */
  lemma StaleTotal(cfg: RiskCfg) returns (ws: seq<World>, es: seq<Event>)
    requires !cfg.halted && !cfg.enabled
    ensures Run(cfg, ws, es) && ws[|es|].db == Gained(Done)
    ensures !InSync(ws[|es|].db, 0) && AuditSum(ws[|es|].db.legs, 0) == 10.0 && ws[|es|].db.trades[0].realized == 0.0
  {
    ws, es := StaleRun(cfg);
    GainBooked(Done);
  }
}
